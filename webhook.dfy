/** The `/notify-point-redemption` webhook of the gateway (index.js): pull
    the customer, the points and the reward out of the provider's loosely
    shaped event with `||` fallback chains, refuse an event that lacks the
    required fields or a gateway without an email key, and otherwise send the
    reward confirmation email. */
module Webhook {

  import opened Wrappers
  import opened JsText
  import opened JsValues
  import opened Adapters

  /** The values the handler reads from the event. */
  datatype RedemptionEvent = RedemptionEvent(
    email: JsValue, customerName: string, pointsRedeemed: JsValue, pointsRemaining: JsValue,
    rewardName: JsValue, rewardCode: JsValue)

  const AnonymousName: string := "Valued Customer"

  /** `body.customer?.key` */
  function CustomerField(body: JsValue, key: string): JsValue {
    Get(Get(body, "customer"), key)
  }

  /** `body.event_attributes?.key` */
  function EventAttribute(body: JsValue, key: string): JsValue {
    Get(Get(body, "event_attributes"), key)
  }

  /** The reward name candidates, in the order the chain tries them. */
  function RewardNameSources(body: JsValue): seq<JsValue> {
    [Get(body, "name"), Get(body, "title"), EventAttribute(body, "name"),
     EventAttribute(body, "reward_name"), EventAttribute(body, "title")]
  }

  /** The reward code candidates, in the order the chain tries them. */
  function RewardCodeSources(body: JsValue): seq<JsValue> {
    [Get(body, "code"), EventAttribute(body, "code"),
     EventAttribute(body, "discount_code"), EventAttribute(body, "reward_code")]
  }

  /** `${firstName} ${lastName}`.trim() || 'Valued Customer', each part
      defaulting to the empty string. */
  function CustomerName(first: JsValue, last: JsValue): (name: string)
    ensures name != [] && Trimmed(name)
    ensures var full := Trim(ToStr(Or(first, Str(""))) + " " + ToStr(Or(last, Str(""))));
            name == if full == "" then AnonymousName else full
  {
    var full := Trim(ToStr(Or(first, Str(""))) + " " + ToStr(Or(last, Str(""))));
    if full == "" then AnonymousName else full
  }

  /** A customer without a first and a last name is greeted as a valued
      customer. */
  lemma AnonymousCustomer(first: JsValue, last: JsValue)
    requires !Truthy(first) && !Truthy(last)
    ensures CustomerName(first, last) == AnonymousName
  {
    assert Or(first, Str("")) == Str("") && Or(last, Str("")) == Str("");
    assert ToStr(Str("")) + " " + ToStr(Str("")) == "" + " ";
    TrimSpaceSuffix("");
  }

  function ExtractEvent(body: JsValue): (e: RedemptionEvent)
    requires RequestBody(body)
    ensures e.email == CustomerField(body, "email")
    ensures e.customerName == CustomerName(CustomerField(body, "first_name"), CustomerField(body, "last_name"))
    ensures e.pointsRedeemed == Get(body, "points_amount")
    ensures e.pointsRemaining == CustomerField(body, "points_tally")
    ensures e.rewardName == OrChain(RewardNameSources(body), Null)
    ensures e.rewardCode == OrChain(RewardCodeSources(body), Null)
  {
    var customer := Get(body, "customer");
    var eventAttributes := Or(Get(body, "event_attributes"), EmptyObject);
    OrEmptyGet(Get(body, "event_attributes"), "name");
    OrEmptyGet(Get(body, "event_attributes"), "reward_name");
    OrEmptyGet(Get(body, "event_attributes"), "title");
    OrEmptyGet(Get(body, "event_attributes"), "code");
    OrEmptyGet(Get(body, "event_attributes"), "discount_code");
    OrEmptyGet(Get(body, "event_attributes"), "reward_code");
    RedemptionEvent(
      Get(customer, "email"),
      CustomerName(Get(customer, "first_name"), Get(customer, "last_name")),
      Get(body, "points_amount"),
      Get(customer, "points_tally"),
      OrChain([Get(body, "name"), Get(body, "title"), Get(eventAttributes, "name"),
               Get(eventAttributes, "reward_name"), Get(eventAttributes, "title")], Null),
      OrChain([Get(body, "code"), Get(eventAttributes, "code"), Get(eventAttributes, "discount_code"),
               Get(eventAttributes, "reward_code")], Null))
  }

  /** The reward name is the first truthy candidate, and null when none is. */
  lemma RewardNameFallback(body: JsValue)
    requires RequestBody(body)
    ensures var vs, name := RewardNameSources(body), ExtractEvent(body).rewardName;
      && (forall i :: 0 <= i < |vs| && Truthy(vs[i]) && (forall j :: 0 <= j < i ==> !Truthy(vs[j])) ==> name == vs[i])
      && ((forall i :: 0 <= i < |vs| ==> !Truthy(vs[i])) ==> name == Null)
  {
    OrChainFirstTruthy(RewardNameSources(body), Null);
  }

  /** The reward code is the first truthy candidate, and null when none is. */
  lemma RewardCodeFallback(body: JsValue)
    requires RequestBody(body)
    ensures var vs, code := RewardCodeSources(body), ExtractEvent(body).rewardCode;
      && (forall i :: 0 <= i < |vs| && Truthy(vs[i]) && (forall j :: 0 <= j < i ==> !Truthy(vs[j])) ==> code == vs[i])
      && ((forall i :: 0 <= i < |vs| ==> !Truthy(vs[i])) ==> code == Null)
  {
    OrChainFirstTruthy(RewardCodeSources(body), Null);
  }

  /** The values the confirmation email is built from; the HTML and text
      templates around them are not modelled. */
  datatype RedemptionEmail = RedemptionEmail(
    from: string, to: JsValue, customerName: string, rewardName: JsValue, rewardCode: JsValue,
    pointsRedeemed: JsValue, pointsRemaining: JsValue)

  function RedemptionSender(config: Config): string {
    OrDefault(config.emailFromName, "Rivo Loyalty") + " <" + OrDefault(config.resendFrom, "onboarding@resend.dev") + ">"
  }

  /** The `data` of a successful reply. */
  datatype Notification = Notification(
    email: JsValue, customerName: string, pointsRedeemed: JsValue, pointsRemaining: JsValue,
    rewardName: JsValue, rewardCode: JsValue, messageId: JsValue)

  datatype WebhookReply =
    | MissingFields(error: string)
    | NotifyFailed(error: string)
    | Notified(data: Notification)
  {
    function Status(): int {
      match this
      case MissingFields(_) => 400
      case NotifyFailed(_) => 500
      case Notified(_) => 200
    }
  }

  const MissingWebhookFields: string := "Missing required fields from Rivo webhook"
  const EmailNotConfigured: string := "Email service not configured"

  /** The required-field guard: a truthy email and points amount, and a
      remaining balance that is present (zero included). */
  predicate HasRequiredFields(e: RedemptionEvent) {
    Truthy(e.email) && Truthy(e.pointsRedeemed) && !e.pointsRemaining.Undefined?
  }

  /** `/notify-point-redemption`. `send` is the outcome of the email call,
      used only when that call is made. Returns the reply and the email that
      was attempted. */
  function NotifyRedemption(body: JsValue, config: Config, send: Fetched): (r: (WebhookReply, Option<RedemptionEmail>))
    requires RequestBody(body)
    ensures var e := ExtractEvent(body);
      && (!HasRequiredFields(e) ==> r == (MissingFields(MissingWebhookFields), None))
      && (HasRequiredFields(e) && !Present(config.resendApiKey) ==> r == (NotifyFailed(EmailNotConfigured), None))
    ensures r.1.Some? <==> HasRequiredFields(ExtractEvent(body)) && Present(config.resendApiKey)
    ensures r.1.Some? ==>
      var e := ExtractEvent(body);
      && r.1.value == RedemptionEmail(RedemptionSender(config), e.email, e.customerName,
                                      Or(e.rewardName, Str("Reward")), e.rewardCode, e.pointsRedeemed, e.pointsRemaining)
      && (SendViaResend(config.resendApiKey, send).Fail? ==> r.0 == NotifyFailed(SendViaResend(config.resendApiKey, send).msg))
      && (SendViaResend(config.resendApiKey, send).Ok? ==>
            var resp := SendViaResend(config.resendApiKey, send).value;
            && (Nullish(resp) ==> r.0 == NotifyFailed(ReadError(resp, "id")))
            && (!Nullish(resp) ==>
                  r.0 == Notified(Notification(e.email, e.customerName, e.pointsRedeemed, e.pointsRemaining,
                                               Or(e.rewardName, Str("Reward")), e.rewardCode, Or(Get(resp, "id"), Null)))))
  {
    var e := ExtractEvent(body);
    if !Truthy(e.email) || !Truthy(e.pointsRedeemed) || e.pointsRemaining.Undefined? then
      (MissingFields(MissingWebhookFields), None)
    else if !Present(config.resendApiKey) then
      (NotifyFailed(EmailNotConfigured), None)
    else
      var email := RedemptionEmail(RedemptionSender(config), e.email, e.customerName,
                                   Or(e.rewardName, Str("Reward")), e.rewardCode, e.pointsRedeemed, e.pointsRemaining);
      match SendViaResend(config.resendApiKey, send)
      case Fail(m) => (NotifyFailed(m), Some(email))
      case Ok(resp) =>
        if Nullish(resp) then (NotifyFailed(ReadError(resp, "id")), Some(email))
        else (Notified(Notification(e.email, e.customerName, e.pointsRedeemed, e.pointsRemaining,
                                    Or(e.rewardName, Str("Reward")), e.rewardCode, Or(Get(resp, "id"), Null))), Some(email))
  }

  /** A zero points amount is refused as missing. */
  lemma ZeroPointsRefused(body: JsValue, config: Config, send: Fetched)
    requires RequestBody(body) && Get(body, "points_amount") == Num(0)
    ensures NotifyRedemption(body, config, send).0 == MissingFields(MissingWebhookFields)
  {
  }

  /** A zero remaining balance passes the guard, which only rejects an
      undefined one: the email is attempted when the key is configured. */
  lemma ZeroRemainingAccepted(body: JsValue, config: Config, send: Fetched)
    requires RequestBody(body) && CustomerField(body, "points_tally") == Num(0)
    requires Truthy(CustomerField(body, "email")) && Truthy(Get(body, "points_amount"))
    ensures !NotifyRedemption(body, config, send).0.MissingFields?
    ensures Present(config.resendApiKey) ==> NotifyRedemption(body, config, send).1.Some?
  {
  }
}
