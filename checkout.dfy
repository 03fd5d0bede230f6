/** The `/checkout` handler of the gateway (index.js): validate the cart,
    total its quantities, accrue the client-supplied points with the loyalty
    provider when they are positive, and send a best-effort confirmation
    email once the accrual has succeeded. The order is placed whatever the
    accrual and the email do. */
module Checkout {

  import opened Wrappers
  import opened JsText
  import opened JsValues
  import opened Adapters

  /** `items.reduce((sum, item) => sum + item.quantity, 0)`: folded from the
      left with JavaScript's `+`; the first null or undefined item throws. */
  function SumQuantities(items: seq<JsValue>): Result<JsValue>
    decreases |items|
  {
    if items == [] then Ok(Num(0))
    else
      var last := items[|items| - 1];
      match SumQuantities(items[..|items| - 1])
      case Fail(m) => Fail(m)
      case Ok(sum) =>
        if Nullish(last) then Fail(ReadError(last, "quantity"))
        else Ok(Plus(sum, Get(last, "quantity")))
  }

  /** Every item carries an integer quantity. */
  predicate NumericQuantities(items: seq<JsValue>) {
    forall i :: 0 <= i < |items| ==> items[i].Obj? && Get(items[i], "quantity").Num?
  }

  /** The arithmetic sum of the quantities, added up from the front. */
  function QuantitySum(items: seq<JsValue>): int
    requires NumericQuantities(items)
  {
    if items == [] then 0 else Get(items[0], "quantity").n + QuantitySum(items[1..])
  }

  lemma {:induction false} QuantitySumSnoc(items: seq<JsValue>)
    requires items != [] && NumericQuantities(items)
    ensures QuantitySum(items) == QuantitySum(items[..|items| - 1]) + Get(items[|items| - 1], "quantity").n
    decreases |items|
  {
    if |items| > 1 {
      assert items[1..][..|items| - 2] == items[..|items| - 1][1..];
      QuantitySumSnoc(items[1..]);
    }
  }

  /** `totalItems` is the sum of the quantities when every quantity is an
      integer. */
  lemma {:induction false} TotalIsSum(items: seq<JsValue>)
    requires NumericQuantities(items)
    ensures SumQuantities(items) == Ok(Num(QuantitySum(items)))
    decreases |items|
  {
    if items != [] {
      var init := items[..|items| - 1];
      assert NumericQuantities(init) by {
        forall i | 0 <= i < |init| ensures init[i].Obj? && Get(init[i], "quantity").Num? {
          assert init[i] == items[i];
        }
      }
      TotalIsSum(init);
      QuantitySumSnoc(items);
    }
  }

  /** The total fails exactly when some item is null or undefined, and then
      with the read error of the first such item. */
  lemma {:induction false} TotalFailsOnNullishItem(items: seq<JsValue>)
    ensures SumQuantities(items).Fail? <==> exists i :: 0 <= i < |items| && Nullish(items[i])
    ensures forall i :: 0 <= i < |items| && Nullish(items[i]) && (forall j :: 0 <= j < i ==> !Nullish(items[j]))
                        ==> SumQuantities(items) == Fail(ReadError(items[i], "quantity"))
    decreases |items|
  {
    if items != [] {
      var init := items[..|items| - 1];
      TotalFailsOnNullishItem(init);
      assert forall i :: 0 <= i < |init| ==> init[i] == items[i];
      if exists i :: 0 <= i < |items| && Nullish(items[i]) {
        var i :| 0 <= i < |items| && Nullish(items[i]);
        if i < |init| {
          assert Nullish(init[i]);
        }
      }
    }
  }

  /** The worked order of quantities 2, 1 and 3 has six items. */
  lemma ExampleTotal()
    ensures SumQuantities([Obj([Field("quantity", Num(2))]), Obj([Field("quantity", Num(1))]), Obj([Field("quantity", Num(3))])])
            == Ok(Num(6))
  {
    var items := [Obj([Field("quantity", Num(2))]), Obj([Field("quantity", Num(1))]), Obj([Field("quantity", Num(3))])];
    assert NumericQuantities(items);
    TotalIsSum(items);
    assert items[1..][1..][1..] == [];
  }

  /** The points event posted to the provider. */
  datatype AccrualEvent = AccrualEvent(
    customerIdentifier: JsValue, pointsAmount: JsValue, source: string,
    customActionName: string, internalNote: string)

  function Accrual(customerEmail: JsValue, pointsEarned: JsValue, totalItems: JsValue): AccrualEvent {
    AccrualEvent(customerEmail, pointsEarned, "manual", "POS Purchase",
                 "Order placed via Wingstop POS - " + ToStr(totalItems) + " item(s)")
  }

  /** The values the confirmation email is built from; the HTML and text
      templates around them are not modelled. */
  datatype PurchaseEmail = PurchaseEmail(
    from: string, to: JsValue, items: JsValue, totalItems: JsValue,
    pointsEarned: JsValue, newPointsBalance: JsValue)

  function PurchaseSender(config: Config): string {
    OrDefault(config.emailFromName, "Wingstop") + " <" + OrDefault(config.resendFrom, "onboarding@resend.dev") + ">"
  }

  datatype Order = Order(
    items: JsValue, totalItems: JsValue, customerEmail: JsValue, pointsEarned: JsValue,
    pointsAdded: bool, newPointsBalance: JsValue)

  datatype CheckoutReply =
    | CartRejected(error: string)
    | CheckoutFailed(error: string)
    | OrderPlaced(order: Order)
  {
    function Status(): int {
      match this
      case CartRejected(_) => 400
      case CheckoutFailed(_) => 500
      case OrderPlaced(_) => 200
    }
  }

  const EmptyCart: string := "Cart is empty"
  const EmailRequired: string := "Customer email is required to earn points"
  const NotReducible: string := "items.reduce is not a function"

  /** `pointsEarned && pointsEarned > 0` */
  predicate EarnsPoints(pointsEarned: JsValue) {
    Truthy(pointsEarned) && IsPositive(pointsEarned)
  }

  /** `rivoData.data?.attributes?.customer || null` */
  function AccruedCustomer(rivoData: JsValue): JsValue {
    Or(Path(rivoData, ["data", "attributes", "customer"]), Null)
  }

  /** `customerData?.points_tally || null` */
  function Balance(customerData: JsValue): JsValue {
    Or(Get(customerData, "points_tally"), Null)
  }

  /** `/checkout`. `accrual` is the outcome of the points-event call, used
      only when that call is made. Returns the reply and the accrual and
      email requests that were attempted. */
  method PlaceOrder(body: JsValue, config: Config, accrual: Fetched)
    returns (reply: CheckoutReply, accrualSent: Option<AccrualEvent>, emailSent: Option<PurchaseEmail>)
    requires RequestBody(body)
    ensures var items, email := Get(body, "items"), Get(body, "customerEmail");
      && (Nullish(items) ==> reply == CheckoutFailed(ReadError(items, "length")))
      && (!Nullish(items) && (!Truthy(items) || LengthOf(items) == Num(0)) ==> reply == CartRejected(EmptyCart))
      && (Truthy(items) && LengthOf(items) != Num(0) && !Truthy(email) ==> reply == CartRejected(EmailRequired))
      && (Truthy(items) && LengthOf(items) != Num(0) && Truthy(email) && !items.Arr? ==> reply == CheckoutFailed(NotReducible))
      && (Truthy(items) && LengthOf(items) != Num(0) && Truthy(email) && items.Arr? && SumQuantities(items.items).Fail? ==>
            reply == CheckoutFailed(SumQuantities(items.items).msg))
      && (Truthy(items) && LengthOf(items) != Num(0) && Truthy(email) && items.Arr? && SumQuantities(items.items).Ok? ==>
            reply.OrderPlaced?)
    // A failed accrual still places the order, only without the points.
    ensures var items, email, pe := Get(body, "items"), Get(body, "customerEmail"), Get(body, "pointsEarned");
      Truthy(items) && LengthOf(items) != Num(0) && Truthy(email) && items.Arr? && SumQuantities(items.items).Ok?
        && EarnsPoints(pe) && RivoApi(accrual).Fail? ==>
          reply.OrderPlaced? && !reply.order.pointsAdded && reply.order.newPointsBalance == Null && emailSent.None?
    ensures !reply.OrderPlaced? ==> accrualSent.None? && emailSent.None?
    ensures reply.OrderPlaced? ==>
      var items, email, pe := Get(body, "items"), Get(body, "customerEmail"), Get(body, "pointsEarned");
      var o := reply.order;
      && Truthy(items) && LengthOf(items) != Num(0) && Truthy(email) && items.Arr?
      && SumQuantities(items.items) == Ok(o.totalItems)
      && o.items == items && o.customerEmail == email && o.pointsEarned == pe
      && (accrualSent.Some? <==> EarnsPoints(pe))
      && (accrualSent.Some? ==> accrualSent.value == Accrual(email, pe, o.totalItems))
      && (o.pointsAdded <==> accrualSent.Some? && RivoApi(accrual).Ok?)
      && (!o.pointsAdded || Nullish(RivoApi(accrual).value) ==> o.newPointsBalance == Null && emailSent.None?)
      && (o.pointsAdded && !Nullish(RivoApi(accrual).value) ==>
            && o.newPointsBalance == Balance(AccruedCustomer(RivoApi(accrual).value))
            && (emailSent.Some? <==> Present(config.resendApiKey))
            && (emailSent.Some? ==>
                  emailSent.value == PurchaseEmail(PurchaseSender(config), email, items, o.totalItems, pe, o.newPointsBalance)))
  {
    var items := Get(body, "items");
    var customerEmail := Get(body, "customerEmail");
    var pointsEarned := Get(body, "pointsEarned");
    accrualSent, emailSent := None, None;
    if Nullish(items) {
      reply := CheckoutFailed(ReadError(items, "length"));
      return;
    }
    if !Truthy(items) || LengthOf(items) == Num(0) {
      reply := CartRejected(EmptyCart);
      return;
    }
    if !Truthy(customerEmail) {
      reply := CartRejected(EmailRequired);
      return;
    }
    if !items.Arr? {
      reply := CheckoutFailed(NotReducible);
      return;
    }
    var total := SumQuantities(items.items);
    if total.Fail? {
      reply := CheckoutFailed(total.msg);
      return;
    }
    var totalItems := total.value;
    var pointsAdded := false;
    var customerData := Null;
    if EarnsPoints(pointsEarned) {
      accrualSent := Some(Accrual(customerEmail, pointsEarned, totalItems));
      var rivoData := RivoApi(accrual);
      // A failed call or a null reply ends the inner try; the order goes on.
      if rivoData.Ok? {
        pointsAdded := true;
        if !Nullish(rivoData.value) {
          customerData := AccruedCustomer(rivoData.value);
          if Present(config.resendApiKey) {
            emailSent := Some(PurchaseEmail(PurchaseSender(config), customerEmail, items, totalItems,
                                            pointsEarned, Balance(customerData)));
          }
        }
      }
    }
    reply := OrderPlaced(Order(items, totalItems, customerEmail, pointsEarned, pointsAdded, Balance(customerData)));
  }

  /** A balance of zero points is reported as null, since `||` treats 0 as
      missing. */
  lemma ZeroBalanceIsNull(customerData: JsValue)
    requires Get(customerData, "points_tally") == Num(0)
    ensures Balance(customerData) == Null
  {
  }

  /** `pointsEarned > 0` already implies `pointsEarned` is truthy, so
      accrual is attempted exactly when the points are positive. */
  lemma PositiveIsTruthy(pointsEarned: JsValue)
    ensures EarnsPoints(pointsEarned) <==> IsPositive(pointsEarned)
  {
    if pointsEarned.Str? && pointsEarned.s == "" {
      assert Trim(pointsEarned.s) == "";
    }
  }

  /** Points sent as the text `"0x10"` compare as sixteen, so they accrue. */
  lemma HexPointsAccrue()
    ensures EarnsPoints(Str("0x10"))
  {
    HexLiteral();
  }
}
