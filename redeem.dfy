/** The `/redeem-points` handler of the gateway (index.js): validate the
    request, build the form for the provider's redemption endpoint, call it
    through the form-encoded adapter and project the nested redemption
    record into the flat receipt the POS client reads. */
module Redemption {

  import opened Wrappers
  import opened JsText
  import opened JsValues
  import opened Adapters

  /** URLSearchParams: name/value pairs in insertion order. */
  class SearchParams {
    var entries: seq<(string, string)>

    constructor ()
      ensures entries == []
    {
      entries := [];
    }

    /** `append(name, value)`, which stores the value's string form. */
    method Append(name: string, value: JsValue)
      modifies this
      ensures entries == old(entries) + [(name, ToStr(value))]
    {
      entries := entries + [(name, ToStr(value))];
    }
  }

  datatype RedemptionView = RedemptionView(
    id: JsValue, pointsRedeemed: JsValue, creditsRedeemed: JsValue, appliedAt: JsValue,
    discountCode: JsValue, expiresAt: JsValue, usedAt: JsValue)

  datatype RewardView = RewardView(id: JsValue, name: JsValue, rewardType: JsValue, value: JsValue, displayText: JsValue)

  datatype CustomerView = CustomerView(
    email: JsValue, firstName: JsValue, lastName: JsValue, pointsRemaining: JsValue,
    creditsRemaining: JsValue, vipTier: JsValue, loyaltyStatus: JsValue)

  /** The `redemption`, `reward` and `customer` parts of a successful reply. */
  datatype Receipt = Receipt(redemption: RedemptionView, reward: RewardView, customer: CustomerView)

  datatype RedeemReply =
    | MissingFields(error: string)
    | RedeemFailed(error: string)
    | Redeemed(receipt: Receipt)
  {
    function Status(): int {
      match this
      case MissingFields(_) => 400
      case RedeemFailed(_) => 500
      case Redeemed(_) => 200
    }
  }

  const MissingFieldsError: string := "Missing required fields: email and rewardId"

  /** `responseData.data?.attributes`: the redemption record in the provider's reply. */
  function Attributes(data: JsValue): JsValue {
    Get(Get(data, "data"), "attributes")
  }

  /** The projection of the provider's reply. Only a null reply throws (on
      `responseData.data`); every missing node below it yields undefined
      fields: each field is read with optional chaining from the redemption
      record or from its nested customer or reward, the reward's name
      prefers the redemption's own name, and the VIP tier defaults to null. */
  function Project(data: JsValue): (r: Result<Receipt>)
    ensures r.Fail? <==> Nullish(data)
    ensures r.Fail? ==> r.msg == ReadError(data, "data")
    ensures r.Ok? ==>
      var a, p := Attributes(data), r.value.redemption;
      && p.id == Get(a, "id")
      && p.pointsRedeemed == Get(a, "points_amount")
      && p.creditsRedeemed == Get(a, "credits_amount")
      && p.appliedAt == Get(a, "applied_at")
      && p.discountCode == Get(a, "code")
      && p.expiresAt == Get(a, "expires_at")
      && p.usedAt == Get(a, "used_at")
    ensures r.Ok? ==>
      var a, w := Attributes(data), r.value.reward;
      var reward := Get(a, "reward");
      && w.id == Get(reward, "id")
      && w.name == Or(Get(a, "name"), Get(reward, "name"))
      && w.rewardType == Get(reward, "reward_type")
      && w.value == Get(reward, "reward_value")
      && w.displayText == Get(reward, "pretty_display_rewards")
    ensures r.Ok? ==>
      var c := r.value.customer;
      var customer := Get(Attributes(data), "customer");
      && c.email == Get(customer, "email")
      && c.firstName == Get(customer, "first_name")
      && c.lastName == Get(customer, "last_name")
      && c.pointsRemaining == Get(customer, "points_tally")
      && c.creditsRemaining == Get(customer, "credits_tally")
      && c.vipTier == Or(Get(Get(customer, "vip_tier"), "name"), Null)
      && c.loyaltyStatus == Get(customer, "loyalty_status")
  {
    if Nullish(data) then Fail(ReadError(data, "data"))
    else
      var attributes := Or(Attributes(data), EmptyObject);
      var customer := Or(Get(attributes, "customer"), EmptyObject);
      var reward := Or(Get(attributes, "reward"), EmptyObject);
      Ok(Receipt(
        RedemptionView(
          Get(attributes, "id"), Get(attributes, "points_amount"), Get(attributes, "credits_amount"),
          Get(attributes, "applied_at"), Get(attributes, "code"), Get(attributes, "expires_at"),
          Get(attributes, "used_at")),
        RewardView(
          Get(reward, "id"), Or(Get(attributes, "name"), Get(reward, "name")), Get(reward, "reward_type"),
          Get(reward, "reward_value"), Get(reward, "pretty_display_rewards")),
        CustomerView(
          Get(customer, "email"), Get(customer, "first_name"), Get(customer, "last_name"),
          Get(customer, "points_tally"), Get(customer, "credits_tally"),
          Or(Get(Get(customer, "vip_tier"), "name"), Null), Get(customer, "loyalty_status"))))
  }

  /** The redemption form: the customer and the reward, then the points
      and the credits amounts when truthy, in that order. */
  method BuildForm(email: JsValue, rewardId: JsValue, points: JsValue, credits: JsValue)
    returns (form: seq<(string, string)>)
    ensures |form| == 2 + (if Truthy(points) then 1 else 0) + (if Truthy(credits) then 1 else 0)
    ensures form[0] == ("customer_identifier", ToStr(email))
    ensures form[1] == ("reward_id", ToStr(rewardId))
    ensures Truthy(points) ==> form[2] == ("points_amount", ToStr(points))
    ensures Truthy(credits) ==> form[|form| - 1] == ("credits_amount", ToStr(credits))
  {
    var formData := new SearchParams();
    formData.Append("customer_identifier", email);
    formData.Append("reward_id", rewardId);
    if Truthy(points) {
      formData.Append("points_amount", points);
    }
    if Truthy(credits) {
      formData.Append("credits_amount", credits);
    }
    form := formData.entries;
  }

  /** `/redeem-points`. A falsy email or reward id is answered with 400
      before any upstream call. Otherwise the form is sent, and an upstream
      or projection error is answered with 500 and its message. */
  method RedeemPoints(body: JsValue, upstream: Fetched) returns (reply: RedeemReply, form: Option<seq<(string, string)>>)
    requires RequestBody(body)
    ensures var email, rewardId := Get(body, "email"), Get(body, "rewardId");
            form.None? <==> !Truthy(email) || !Truthy(rewardId)
    ensures form.None? ==> reply == MissingFields(MissingFieldsError)
    ensures form.Some? ==>
      var f, points, credits := form.value, Get(body, "points"), Get(body, "credits");
      && |f| == 2 + (if Truthy(points) then 1 else 0) + (if Truthy(credits) then 1 else 0)
      && f[0] == ("customer_identifier", ToStr(Get(body, "email")))
      && f[1] == ("reward_id", ToStr(Get(body, "rewardId")))
      && (Truthy(points) ==> f[2] == ("points_amount", ToStr(points)))
      && (Truthy(credits) ==> f[|f| - 1] == ("credits_amount", ToStr(credits)))
    ensures form.Some? && RivoApiForm(upstream).Fail? ==> reply == RedeemFailed(RivoApiForm(upstream).msg)
    ensures form.Some? && RivoApiForm(upstream).Ok? ==>
      match Project(RivoApiForm(upstream).value)
      case Ok(receipt) => reply == Redeemed(receipt)
      case Fail(m) => reply == RedeemFailed(m)
  {
    var email := Get(body, "email");
    var rewardId := Get(body, "rewardId");
    if !Truthy(email) || !Truthy(rewardId) {
      return MissingFields(MissingFieldsError), None;
    }
    var entries := BuildForm(email, rewardId, Get(body, "points"), Get(body, "credits"));
    form := Some(entries);
    var response := RivoApiForm(upstream);
    var projected := if response.Ok? then Project(response.value) else Fail(response.msg);
    match projected {
      case Ok(receipt) =>
        reply := Redeemed(receipt);
      case Fail(m) =>
        reply := RedeemFailed(if m != "" then m else "Points redemption failed");
    }
  }

  /** A reply without a `data` node still projects: every field is
      undefined and the VIP tier is null. */
  lemma MissingDataProjectsUndefined(fields: seq<Field>)
    requires Lookup(fields, "data").None?
    ensures Project(Obj(fields)) == Ok(Receipt(
      RedemptionView(Undefined, Undefined, Undefined, Undefined, Undefined, Undefined, Undefined),
      RewardView(Undefined, Undefined, Undefined, Undefined, Undefined),
      CustomerView(Undefined, Undefined, Undefined, Undefined, Undefined, Null, Undefined)))
  {
  }

  /** The reward name comes from the redemption record when it has a
      truthy one, and from the nested reward otherwise. */
  lemma RewardNamePrecedence(data: JsValue)
    requires !Nullish(data)
    ensures var name, own := Project(data).value.reward.name, Path(data, ["data", "attributes", "name"]);
            && (Truthy(own) ==> name == own)
            && (!Truthy(own) ==> name == Path(data, ["data", "attributes", "reward", "name"]))
  {
  }

  /** The redemption of 100 points by a@b.com who keeps 400. */
  lemma ExampleReceipt()
    ensures var customer := Obj([Field("email", Str("a@b.com")), Field("points_tally", Num(400))]);
            var attributes := Obj([Field("points_amount", Num(100)), Field("customer", customer)]);
            var r := Project(Obj([Field("data", Obj([Field("attributes", attributes)]))]));
            && r.Ok?
            && r.value.redemption.pointsRedeemed == Num(100)
            && r.value.customer.pointsRemaining == Num(400)
            && r.value.customer.email == Str("a@b.com")
  {
    var customerFields := [Field("email", Str("a@b.com")), Field("points_tally", Num(400))];
    var attributeFields := [Field("points_amount", Num(100)), Field("customer", Obj(customerFields))];
    var payload := Obj([Field("data", Obj([Field("attributes", Obj(attributeFields))]))]);
    assert Attributes(payload) == Obj(attributeFields);
    assert attributeFields[1].key != "points_amount" && attributeFields[..1] == [attributeFields[0]];
    assert Lookup(attributeFields, "points_amount") == Lookup(attributeFields[..1], "points_amount") == Some(Num(100));
    assert Get(Obj(attributeFields), "customer") == Obj(customerFields);
    assert customerFields[1].key != "email" && customerFields[..1] == [customerFields[0]];
    assert Get(Obj(customerFields), "points_tally") == Num(400);
    assert Lookup(customerFields, "email") == Lookup(customerFields[..1], "email") == Some(Str("a@b.com"));
  }
}
