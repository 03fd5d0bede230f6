/** The redemption form of the POS client (client/src/App.js): the rewards
    it offers, normalised from the gateway's `/rewards` reply, and the form
    state that `fetchRewards`, `handleSubmit` and `resetForm` update. Each
    `useState` slot is a field; each setter call is an assignment. */
module PosApp {

  import opened Wrappers
  import opened JsText
  import opened JsValues

  /** One reward card: `{id, name, points, value, description}`. */
  datatype RewardOption = RewardOption(id: JsValue, name: JsValue, points: JsValue, value: JsValue, description: JsValue)

  /** The filter reads `reward.attributes.source`, which throws unless the
      record has an `attributes` object. */
  predicate Readable(reward: JsValue) {
    !Nullish(Get(reward, "attributes"))
  }

  /** `attributes.source === 'points' && attributes.enabled` */
  predicate Kept(reward: JsValue) {
    var attributes := Get(reward, "attributes");
    Get(attributes, "source") == Str("points") && Truthy(Get(attributes, "enabled"))
  }

  /** The `map` step. */
  function ToOption(reward: JsValue): RewardOption {
    var attributes := Get(reward, "attributes");
    RewardOption(Get(reward, "id"), Get(attributes, "name"), Get(attributes, "points_amount"),
                 Get(attributes, "reward_value"), Get(attributes, "pretty_display_rewards"))
  }

  /** The `filter` step, element by element. */
  function PointRecords(records: seq<JsValue>): seq<JsValue>
    decreases |records|
  {
    if records == [] then []
    else
      var last := records[|records| - 1];
      PointRecords(records[..|records| - 1]) + if Kept(last) then [last] else []
  }

  /** The positions of the kept records, a reference definition of the filter. */
  function KeptIndices(records: seq<JsValue>): seq<nat>
    decreases |records|
  {
    if records == [] then []
    else KeptIndices(records[..|records| - 1]) + if Kept(records[|records| - 1]) then [|records| - 1] else []
  }

  /** The kept positions are increasing, each holds a kept record, and
      every kept record's position is among them. */
  lemma {:induction false} KeptIndicesExact(records: seq<JsValue>)
    ensures var idx := KeptIndices(records);
      && (forall k :: 0 <= k < |idx| ==> idx[k] < |records| && Kept(records[idx[k]]))
      && (forall k, l :: 0 <= k < l < |idx| ==> idx[k] < idx[l])
      && (forall i :: 0 <= i < |records| && Kept(records[i]) ==> i in idx)
    decreases |records|
  {
    if records != [] {
      var init := records[..|records| - 1];
      KeptIndicesExact(init);
      assert forall i :: 0 <= i < |init| ==> init[i] == records[i];
    }
  }

  /** The filter keeps exactly the records at the kept positions, in order. */
  lemma {:induction false} PointRecordsAtKeptIndices(records: seq<JsValue>)
    ensures |PointRecords(records)| == |KeptIndices(records)|
    ensures forall k :: 0 <= k < |KeptIndices(records)| ==> KeptIndices(records)[k] < |records|
    ensures forall k :: 0 <= k < |PointRecords(records)| ==> PointRecords(records)[k] == records[KeptIndices(records)[k]]
    decreases |records|
  {
    if records != [] {
      var init := records[..|records| - 1];
      PointRecordsAtKeptIndices(init);
      assert forall i :: 0 <= i < |init| ==> init[i] == records[i];
    }
  }

  /** `data.rewards.data.filter(...).map(...)`: None where it throws, that
      is, when the list is not an array or one of its records has no
      `attributes`. */
  function PointRewards(list: JsValue): (r: Option<seq<RewardOption>>)
    ensures r.Some? <==> list.Arr? && forall i :: 0 <= i < |list.items| ==> Readable(list.items[i])
    ensures r.Some? ==>
      var idx := KeptIndices(list.items);
      && |r.value| == |idx|
      && forall k :: 0 <= k < |idx| ==> idx[k] < |list.items| && r.value[k] == ToOption(list.items[idx[k]])
  {
    if !list.Arr? || exists i :: 0 <= i < |list.items| && !Readable(list.items[i]) then None
    else
      var kept := PointRecords(list.items);
      PointRecordsAtKeptIndices(list.items);
      Some(seq(|kept|, k requires 0 <= k < |kept| => ToOption(kept[k])))
  }

  /** The values shown after a successful redemption. */
  datatype Summary = Summary(
    rewardCode: JsValue, rewardName: JsValue, pointsRedeemed: JsValue, pointsRemaining: JsValue,
    customerEmail: JsValue, customerName: string, vipTier: JsValue, rewardValue: JsValue,
    appliedAt: JsValue, expiresAt: JsValue)

  /** `${first || ''} ${last || ''}`.trim() */
  function FullName(first: JsValue, last: JsValue): (name: string)
    ensures Trimmed(name)
  {
    Trim(ToStr(Or(first, Str(""))) + " " + ToStr(Or(last, Str(""))))
  }

  /** The summary of the gateway's successful `/redeem-points` reply. */
  function Summarize(data: JsValue): Summary {
    var redemption, reward, customer := Get(data, "redemption"), Get(data, "reward"), Get(data, "customer");
    Summary(Get(redemption, "discountCode"), Get(reward, "name"), Get(redemption, "pointsRedeemed"),
            Get(customer, "pointsRemaining"), Get(customer, "email"),
            FullName(Get(customer, "firstName"), Get(customer, "lastName")),
            Get(customer, "vipTier"), Get(reward, "value"), Get(redemption, "appliedAt"), Get(redemption, "expiresAt"))
  }

  /** A customer with a first name only is shown under that name, without
      the separating space. */
  lemma FirstNameOnly(first: string, last: JsValue)
    requires first != [] && Trimmed(first) && !Truthy(last)
    ensures FullName(Str(first), last) == first
  {
    assert ToStr(Or(Str(first), Str(""))) + " " + ToStr(Or(last, Str(""))) == first + " ";
    TrimSpaceSuffix(first);
  }

  /** The body `handleSubmit` posts to `/redeem-points`. */
  datatype RedeemRequest = RedeemRequest(email: string, rewardId: JsValue, rewardName: JsValue, points: JsValue)

  const LoadError: string := "Failed to load rewards. Make sure backend is running."
  const IncompleteForm: string := "Please enter email and select a reward"
  const NetworkError: string := "Network error. Make sure the backend is running on port 5000."
  const Success: string := "✓ Points redeemed successfully!"
  const RedeemFallback: string := "Failed to redeem points"

  /** What one `/rewards` load does to the rewards list. */
  datatype LoadOutcome = KeepRewards | ReplaceRewards(rewards: seq<RewardOption>) | LoadFailed

  /** `response` is the parsed reply, or Fail when the fetch or the parse
      threw. The list is replaced only when `data.success` and
      `data.rewards` are both truthy; every throw becomes the load error. */
  function LoadEffect(response: Result<JsValue>): (o: LoadOutcome)
    ensures o.ReplaceRewards? ==>
      && response.Ok? && Truthy(Get(response.value, "success")) && Truthy(Get(response.value, "rewards"))
      && PointRewards(Path(response.value, ["rewards", "data"])) == Some(o.rewards)
    ensures o.KeepRewards? <==>
      response.Ok? && !Nullish(response.value)
      && !(Truthy(Get(response.value, "success")) && Truthy(Get(response.value, "rewards")))
    ensures o.LoadFailed? <==>
      || response.Fail? || Nullish(response.value)
      || (Truthy(Get(response.value, "success")) && Truthy(Get(response.value, "rewards"))
          && PointRewards(Path(response.value, ["rewards", "data"])).None?)
  {
    match response
    case Fail(_) => LoadFailed
    case Ok(data) =>
      if Nullish(data) then LoadFailed
      else if Truthy(Get(data, "success")) && Truthy(Get(data, "rewards")) then
        match PointRewards(Get(Get(data, "rewards"), "data"))
        case None => LoadFailed
        case Some(rs) => ReplaceRewards(rs)
      else KeepRewards
  }

  /** What one completed `/redeem-points` request does to the form. */
  datatype SubmitOutcome = Redeemed(summary: Summary) | Refused(error: JsValue)

  /** The error shown for a refused redemption is the reply's truthy
      `error`, else the fallback text; a failed fetch or parse, or a null
      reply, shows the network error. */
  function SubmitEffect(response: Result<JsValue>): (o: SubmitOutcome)
    ensures o.Redeemed? <==> response.Ok? && Truthy(Get(response.value, "success"))
    ensures o.Refused? ==> Truthy(o.error)
    ensures response.Fail? || Nullish(response.value) ==> o == Refused(Str(NetworkError))
    ensures response.Ok? && !Nullish(response.value) && !Truthy(Get(response.value, "success")) ==>
      o == Refused(if Truthy(Get(response.value, "error")) then Get(response.value, "error") else Str(RedeemFallback))
  {
    match response
    case Fail(_) => Refused(Str(NetworkError))
    case Ok(data) =>
      if Nullish(data) then Refused(Str(NetworkError))
      else if Truthy(Get(data, "success")) then Redeemed(Summarize(data))
      else Refused(Or(Get(data, "error"), Str(RedeemFallback)))
  }

  /** A successful reply is shown as its summary: the discount code, the
      reward's name and the remaining points as the gateway sent them, and
      the customer's trimmed full name. */
  lemma SuccessShowsSummary(data: JsValue)
    requires !Nullish(data) && Truthy(Get(data, "success"))
    ensures SubmitEffect(Ok(data)) == Redeemed(Summarize(data))
    ensures var s := Summarize(data);
      && s.rewardCode == Path(data, ["redemption", "discountCode"])
      && s.rewardName == Path(data, ["reward", "name"])
      && s.pointsRedeemed == Path(data, ["redemption", "pointsRedeemed"])
      && s.pointsRemaining == Path(data, ["customer", "pointsRemaining"])
      && s.customerName == FullName(Path(data, ["customer", "firstName"]), Path(data, ["customer", "lastName"]))
  {
  }

  class PosForm {
    var customerEmail: string
    var selectedReward: Option<RewardOption>
    var rewards: seq<RewardOption>
    var loading: bool
    var submitting: bool
    var message: Option<string>
    var error: JsValue
    var redemptionResult: Option<Summary>

    /** A success message is on screen exactly when a redemption summary is. */
    predicate Valid()
      reads this
    {
      (message.Some? <==> redemptionResult.Some?) && (message.Some? ==> message.value == Success)
    }

    constructor ()
      ensures customerEmail == "" && selectedReward.None? && rewards == []
      ensures loading && !submitting && message.None? && error == Null && redemptionResult.None?
      ensures Valid()
    {
      customerEmail := "";
      selectedReward := None;
      rewards := [];
      loading := true;
      submitting := false;
      message := None;
      error := Null;
      redemptionResult := None;
    }

    /** `disabled={submitting || !customerEmail || !selectedReward}` */
    predicate SubmitDisabled()
      reads this
    {
      submitting || customerEmail == "" || selectedReward.None?
    }

    /** The email input's onChange. */
    method EditEmail(text: string)
      modifies this
      requires Valid()
      ensures Valid()
      ensures customerEmail == text
      ensures selectedReward == old(selectedReward) && rewards == old(rewards) && loading == old(loading)
      ensures submitting == old(submitting) && message == old(message) && error == old(error)
      ensures redemptionResult == old(redemptionResult)
    {
      customerEmail := text;
    }

    /** A reward card's onClick. */
    method SelectReward(reward: RewardOption)
      modifies this
      requires Valid()
      ensures Valid()
      ensures selectedReward == Some(reward)
      ensures customerEmail == old(customerEmail) && rewards == old(rewards) && loading == old(loading)
      ensures submitting == old(submitting) && message == old(message) && error == old(error)
      ensures redemptionResult == old(redemptionResult)
    {
      selectedReward := Some(reward);
    }

    /** `fetchRewards`, from `setLoading(true)` to the `finally`. */
    method FetchRewards(response: Result<JsValue>)
      modifies this
      requires Valid()
      ensures Valid()
      ensures !loading
      ensures rewards == (match LoadEffect(response) case ReplaceRewards(rs) => rs case _ => old(rewards))
      ensures error == (if LoadEffect(response).LoadFailed? then Str(LoadError) else old(error))
      ensures customerEmail == old(customerEmail) && selectedReward == old(selectedReward)
      ensures submitting == old(submitting) && message == old(message) && redemptionResult == old(redemptionResult)
    {
      loading := true;
      match LoadEffect(response) {
        case ReplaceRewards(rs) => rewards := rs;
        case KeepRewards =>
        case LoadFailed => error := Str(LoadError);
      }
      loading := false;
    }

    /** `resetForm`: clears the form and its outcome, keeps the rewards. */
    method ResetForm()
      modifies this
      ensures Valid()
      ensures customerEmail == "" && selectedReward.None? && redemptionResult.None? && message.None? && error == Null
      ensures rewards == old(rewards) && loading == old(loading) && submitting == old(submitting)
    {
      customerEmail := "";
      selectedReward := None;
      redemptionResult := None;
      message := None;
      error := Null;
    }

    /** `handleSubmit` up to the request: an incomplete form only shows an
        error; otherwise the form is marked submitting, its outcome is
        cleared and the request is built from the selected reward. */
    method BeginSubmit() returns (request: Option<RedeemRequest>)
      modifies this
      requires Valid()
      ensures Valid()
      ensures request.Some? <==> old(customerEmail) != "" && old(selectedReward).Some?
      ensures old(!SubmitDisabled()) ==> request.Some?
      ensures request.None? ==>
        && error == Str(IncompleteForm) && submitting == old(submitting)
        && message == old(message) && redemptionResult == old(redemptionResult)
      ensures request.Some? ==>
        && selectedReward.Some?
        && request.value == RedeemRequest(customerEmail, selectedReward.value.id, selectedReward.value.name,
                                          selectedReward.value.points)
        && submitting && error == Null && message.None? && redemptionResult.None?
      ensures customerEmail == old(customerEmail) && selectedReward == old(selectedReward)
      ensures rewards == old(rewards) && loading == old(loading)
    {
      if customerEmail == "" || selectedReward.None? {
        error := Str(IncompleteForm);
        return None;
      }
      submitting := true;
      error := Null;
      message := None;
      redemptionResult := None;
      request := Some(RedeemRequest(customerEmail, selectedReward.value.id, selectedReward.value.name,
                                    selectedReward.value.points));
    }

    /** `handleSubmit` after the request: shows the summary or the error,
        and clears `submitting` in the `finally`. */
    method FinishSubmit(response: Result<JsValue>)
      modifies this
      requires Valid()
      ensures Valid()
      ensures !submitting
      ensures SubmitEffect(response).Redeemed? ==>
        redemptionResult == Some(SubmitEffect(response).summary) && message == Some(Success) && error == old(error)
      ensures SubmitEffect(response).Refused? ==>
        error == SubmitEffect(response).error && redemptionResult == old(redemptionResult) && message == old(message)
      ensures customerEmail == old(customerEmail) && selectedReward == old(selectedReward)
      ensures rewards == old(rewards) && loading == old(loading)
    {
      var effect := SubmitEffect(response);
      if effect.Redeemed? {
        redemptionResult := Some(effect.summary);
        message := Some(Success);
      } else {
        error := effect.error;
      }
      submitting := false;
    }

    /** The whole `handleSubmit`; `response` is used only when the request
        is sent. */
    method HandleSubmit(response: Result<JsValue>) returns (request: Option<RedeemRequest>)
      modifies this
      requires Valid()
      ensures Valid()
      ensures request.Some? <==> old(customerEmail) != "" && old(selectedReward).Some?
      ensures request.None? ==>
        && error == Str(IncompleteForm) && submitting == old(submitting)
        && message == old(message) && redemptionResult == old(redemptionResult)
      ensures request.Some? ==> !submitting && match SubmitEffect(response)
        case Redeemed(summary) => redemptionResult == Some(summary) && message == Some(Success) && error == Null
        case Refused(e) => error == e && redemptionResult.None? && message.None?
      ensures customerEmail == old(customerEmail) && selectedReward == old(selectedReward)
      ensures rewards == old(rewards) && loading == old(loading)
    {
      request := BeginSubmit();
      if request.Some? {
        FinishSubmit(response);
      }
    }
  }
}
