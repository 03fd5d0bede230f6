/** The order import script (import.js): parse the POS orders CSV, then for
    each order in turn create a draft order in the shop and post a points
    event to the loyalty provider, collecting one result per order. The
    first error stops the run, and the results are then not saved. */
module OrderImport {

  import opened Wrappers
  import opened JsText
  import opened JsValues

  /** A row object: each trimmed header cell maps to the trimmed cell at
      the same index, or to None (`undefined`) when the row is shorter. */
  type Record = map<string, Option<string>>

  /** `row[i]?.trim()` */
  function Cell(row: seq<string>, i: nat): Option<string> {
    if i < |row| then Some(Trim(row[i])) else None
  }

  /** `Object.fromEntries` over key/value pairs taken in order; a repeated
      key keeps its last value. */
  function Entries(keys: seq<string>, cells: seq<Option<string>>): Record
    requires |keys| == |cells|
    decreases |keys|
  {
    if keys == [] then map[]
    else Entries(keys[..|keys| - 1], cells[..|cells| - 1])[keys[|keys| - 1] := cells[|cells| - 1]]
  }

  /** The trimmed header cells. */
  function Keys(header: seq<string>): (keys: seq<string>)
    ensures |keys| == |header|
    ensures forall i :: 0 <= i < |header| ==> keys[i] == Trim(header[i])
  {
    seq(|header|, i requires 0 <= i < |header| => Trim(header[i]))
  }

  /** `header.map((h, i) => [h.trim(), row[i]?.trim()])`, then
      `Object.fromEntries`. */
  function RowRecord(header: seq<string>, row: seq<string>): Record {
    Entries(Keys(header), seq(|header|, i requires 0 <= i < |header| => Cell(row, i)))
  }

  /** The keys of the object are exactly the given keys, and each key holds
      the value paired with its last occurrence. */
  lemma {:induction false} EntriesExact(keys: seq<string>, cells: seq<Option<string>>)
    requires |keys| == |cells|
    ensures forall k :: k in Entries(keys, cells) <==> k in keys
    ensures forall i :: 0 <= i < |keys| && (forall j :: i < j < |keys| ==> keys[j] != keys[i])
                        ==> Entries(keys, cells)[keys[i]] == cells[i]
    decreases |keys|
  {
    if keys != [] {
      var n := |keys|;
      var ks, cs := keys[..n - 1], cells[..n - 1];
      EntriesExact(ks, cs);
      assert keys == ks + [keys[n - 1]];
      forall i | 0 <= i < n && (forall j :: i < j < n ==> keys[j] != keys[i])
        ensures Entries(keys, cells)[keys[i]] == cells[i]
      {
        if i < n - 1 {
          assert keys[n - 1] != keys[i];
          assert ks[i] == keys[i] && cs[i] == cells[i];
          assert forall j :: i < j < n - 1 ==> ks[j] == keys[j];
        }
      }
    }
  }

  /** With distinct header names, every header cell's name holds the cell
      at its index; cells beyond the header are dropped and missing cells
      are None. */
  lemma RowRecordByIndex(header: seq<string>, row: seq<string>)
    requires forall i, j :: 0 <= i < j < |header| ==> Trim(header[i]) != Trim(header[j])
    ensures forall k :: k in RowRecord(header, row) <==> exists i :: 0 <= i < |header| && Trim(header[i]) == k
    ensures forall i :: 0 <= i < |header| ==> RowRecord(header, row)[Trim(header[i])] == Cell(row, i)
    ensures forall i :: |row| <= i < |header| ==> RowRecord(header, row)[Trim(header[i])] == None
  {
    var keys := Keys(header);
    var cells := seq(|header|, i requires 0 <= i < |header| => Cell(row, i));
    EntriesExact(keys, cells);
    forall k ensures k in keys <==> exists i :: 0 <= i < |header| && Trim(header[i]) == k {
      if k in keys {
        var i :| 0 <= i < |keys| && keys[i] == k;
      }
    }
  }

  /** The lines of the trimmed text. */
  function Lines(text: string): seq<string> {
    Split(Trim(text), '\n')
  }

  /** `parseCSV`: the first line is the header, every further line is a
      record; cells are split on every comma, with no quoting. */
  function ParseCsv(text: string): seq<Record> {
    var lines := Lines(text);
    var header := Split(lines[0], ',');
    seq(|lines| - 1, k requires 0 <= k < |lines| - 1 => RowRecord(header, Split(lines[k + 1], ',')))
  }

  /** One record per line after the header, in order: as many records as
      the trimmed text has line breaks. */
  lemma RecordCount(text: string)
    ensures |ParseCsv(text)| == |Lines(text)| - 1 == Count(Trim(text), '\n')
    ensures forall k :: 0 <= k < |ParseCsv(text)| ==>
              ParseCsv(text)[k] == RowRecord(Split(Lines(text)[0], ','), Split(Lines(text)[k + 1], ','))
  {
    SplitCount(Trim(text), '\n');
  }

  /** Blank text, or a header with nothing after it, holds no orders. */
  lemma HeaderOnly(text: string)
    requires '\n' !in Trim(text)
    ensures ParseCsv(text) == []
  {
    SplitPiece(Trim(text), '\n');
  }

  /** `record.key`: None where the record has no such key. */
  function Value(record: Record, key: string): Option<string> {
    if key in record then record[key] else None
  }

  /** `name.split(' ')[0]` */
  function FirstName(name: string): string {
    Split(name, ' ')[0]
  }

  /** `name.split(' ')[1] || ''` */
  function LastName(name: string): string {
    var parts := Split(name, ' ');
    if |parts| > 1 then parts[1] else ""
  }

  /** The first name is the text before the first space, the last name the
      text between the first and the second space; later words are dropped. */
  lemma NameParts(name: string)
    ensures ' ' !in FirstName(name) && ' ' !in LastName(name)
    ensures ' ' !in name ==> FirstName(name) == name && LastName(name) == ""
    ensures ' ' in name ==> exists rest :: name == FirstName(name) + " " + LastName(name) + rest && (rest == "" || rest[0] == ' ')
  {
    var parts := Split(name, ' ');
    SplitPiecesFree(name, ' ');
    JoinSplit(name, ' ');
    if ' ' !in name {
      SplitPiece(name, ' ');
    } else {
      SplitCount(name, ' ');
      CountPositive(name, ' ');
      var tail := Join(parts[1..], ' ');
      assert name == parts[0] + " " + tail;
      var rest := if |parts| > 2 then " " + Join(parts[2..], ' ') else "";
      assert tail == parts[1] + rest;
      assert name == FirstName(name) + " " + LastName(name) + rest;
    }
  }

  lemma {:induction false} CountPositive(s: string, c: char)
    requires c in s
    ensures Count(s, c) > 0
    decreases |s|
  {
    if s[0] != c {
      assert c in s[1..];
      CountPositive(s[1..], c);
    }
  }

  /** The longest prefix of `s` made of digits of the radix. */
  function DigitRun(s: string, radix: nat): string
    decreases |s|
  {
    if s != [] && RadixDigit(s[0]) < radix then [s[0]] + DigitRun(s[1..], radix) else []
  }

  /** The run is a prefix made of digits of the radix, and the character
      after it, if any, is not one. */
  lemma {:induction false} DigitRunLongest(s: string, radix: nat)
    ensures var run := DigitRun(s, radix);
      && run <= s
      && (forall k :: 0 <= k < |run| ==> RadixDigit(run[k]) < radix)
      && (|run| < |s| ==> RadixDigit(s[|run|]) >= radix)
    decreases |s|
  {
    if s != [] && RadixDigit(s[0]) < radix {
      DigitRunLongest(s[1..], radix);
      var run := DigitRun(s, radix);
      assert run == [s[0]] + DigitRun(s[1..], radix);
      assert forall k :: 1 <= k < |run| ==> run[k] == DigitRun(s[1..], radix)[k - 1];
    }
  }

  /** The digits after the sign: a `0x` or `0X` prefix selects
      hexadecimal, and the value is that of the longest run of digits of the
      radix; no digit at all is None. */
  function ParseUnsigned(u: string): Option<nat> {
    var hex := |u| >= 2 && u[0] == '0' && (u[1] == 'x' || u[1] == 'X');
    var radix := if hex then 16 else 10;
    var run := DigitRun(if hex then u[2..] else u, radix);
    if run == [] then None else Some(RunValue(run, radix))
  }

  /** An optional sign, then the digits; no digit at all is NaN. */
  function ReadSigned(t: string): (r: JsValue)
    ensures r.Num? || r.NaN?
  {
    var negative := t != [] && t[0] == '-';
    var unsigned := if t != [] && (t[0] == '-' || t[0] == '+') then t[1..] else t;
    match ParseUnsigned(unsigned)
    case None => NaN
    case Some(v) => var w: int := v; Num(if negative then -w else w)
  }

  /** `parseInt(x)` with no radix (ECMA-262 section 19.2.5): skip leading
      white space, read an optional sign, then a `0x` prefix switches to
      hexadecimal; the longest run of digits after that is the value, and no
      digit at all is NaN. `undefined` reads as the text "undefined". */
  function ParseInt(o: Option<string>): (r: JsValue)
    ensures r.Num? || r.NaN?
    ensures o.None? ==> r == NaN
  {
    ReadSigned(TrimStart(if o.Some? then o.value else "undefined"))
  }

  /** A run of decimal digits is read with its decimal value. */
  lemma {:induction false} DecimalRun(s: string)
    requires AllDigits(s)
    ensures RunValue(s, 10) == DigitsValue(s)
    decreases |s|
  {
    if s != [] {
      DecimalRun(s[..|s| - 1]);
    }
  }

  /** The digit run of decimal digits followed by a non-digit is those digits. */
  lemma {:induction false} RunOfDigits(s: string, rest: string)
    requires AllDigits(s)
    requires rest == [] || RadixDigit(rest[0]) >= 10
    ensures DigitRun(s + rest, 10) == s
    decreases |s|
  {
    if s != [] {
      assert (s + rest)[1..] == s[1..] + rest;
      RunOfDigits(s[1..], rest);
    } else {
      assert s + rest == rest;
    }
  }

  /** Decimal digits without a leading zero, then a non-digit, read as
      their decimal value. */
  lemma UnsignedDigits(digits: string, rest: string)
    requires digits != [] && AllDigits(digits) && (digits[0] == '0' ==> digits == "0")
    requires rest == [] || RadixDigit(rest[0]) >= 10
    requires digits == "0" ==> rest == [] || (rest[0] != 'x' && rest[0] != 'X')
    ensures ParseUnsigned(digits + rest) == Some(DigitsValue(digits))
  {
    var u := digits + rest;
    if |u| >= 2 && u[0] == '0' {
      assert digits == "0" && u[1] == rest[0];
    }
    RunOfDigits(digits, rest);
    DecimalRun(digits);
  }

  /** A text that starts with an optional minus sign and then a digit is
      read as its unsigned part, negated after the minus. */
  lemma ReadSignedDigits(negative: bool, u: string, t: string)
    requires u != [] && IsDigit(u[0])
    requires t == (if negative then "-" else "") + u
    ensures ReadSigned(t) == match ParseUnsigned(u)
                             case None => NaN
                             case Some(v) => Num(if negative then -(v as int) else v)
  {
    if negative {
      assert t[0] == '-' && t[1..] == u;
    } else {
      assert t == u;
    }
  }

  /** The decimal text of a natural number, as `parseInt` sees it. */
  lemma DecimalText(m: nat)
    ensures var d := NatToString(m);
      && d != [] && AllDigits(d) && (d[0] == '0' ==> d == "0") && (d == "0" ==> m == 0)
      && DigitsValue(d) == m
  {
    DigitsRoundTrip(m);
  }

  /** `parseInt` reads back the decimal text of an integer, and ignores
      whatever follows it from the first character that is not a digit. */
  lemma ParseIntPrefix(n: int, rest: string)
    requires rest == [] || RadixDigit(rest[0]) >= 10
    requires n == 0 ==> rest == [] || (rest[0] != 'x' && rest[0] != 'X')
    ensures ParseInt(Some(IntToString(n) + rest)) == Num(n)
  {
    var m: nat := if n < 0 then -n else n;
    var digits := NatToString(m);
    DecimalText(m);
    UnsignedDigits(digits, rest);
    var u := digits + rest;
    var t := IntToString(n) + rest;
    assert t == (if n < 0 then "-" else "") + u by {
      assert IntToString(n) == (if n < 0 then "-" else "") + digits;
    }
    assert TrimStart(t) == t by {
      assert t[0] == '-' || IsDigit(t[0]);
    }
    ReadSignedDigits(n < 0, u, t);
  }

  /** The fields the loop reads from one record, with the two numbers it
      passes through `parseInt`. */
  datatype Order = Order(
    orderId: Option<string>, customerEmail: Option<string>, customerName: Option<string>,
    product: Option<string>, quantity: JsValue, price: Option<string>,
    pointsEarned: Option<string>, points: JsValue)

  function Columns(record: Record): (order: Order)
    ensures order.quantity == ParseInt(Value(record, "quantity"))
    ensures order.points == ParseInt(Value(record, "points_earned"))
    ensures order.pointsEarned == Value(record, "points_earned")
  {
    var pointsEarned := Value(record, "points_earned");
    Order(Value(record, "order_id"), Value(record, "customer_email"), Value(record, "customer_name"),
          Value(record, "product"), ParseInt(Value(record, "quantity")), Value(record, "price"),
          pointsEarned, ParseInt(pointsEarned))
  }

  /** The variables of the draft order created in the shop: the email, the
      one line item, and the billing name. */
  datatype DraftOrder = DraftOrder(
    email: Option<string>, title: Option<string>, quantity: JsValue, price: Option<string>,
    firstName: string, lastName: string)

  /** The points event posted to the loyalty provider. */
  datatype PointsEvent = PointsEvent(customerIdentifier: Option<string>, points: JsValue, reason: string)

  /** One entry of `import_results.json`. */
  datatype ImportResult = ImportResult(orderId: Option<string>, status: string, pointsAdded: Option<string>)

  function Draft(order: Order): DraftOrder
    requires order.customerName.Some?
  {
    var name := order.customerName.value;
    DraftOrder(order.customerEmail, order.product, order.quantity, order.price,
               FirstName(name), LastName(name))
  }

  /** `${x}` of a record field. */
  function Text(o: Option<string>): string {
    if o.Some? then o.value else "undefined"
  }

  function Event(order: Order): PointsEvent {
    PointsEvent(order.customerEmail, order.points, "POS Order " + Text(order.orderId))
  }

  function ResultOf(order: Order): ImportResult {
    ImportResult(order.orderId, "success", order.pointsEarned)
  }

  /** The error order `i` throws, if any: a record without a customer name
      fails at `split`, before any call; then the shop call, then the points
      call. `shop(i)` and `loyalty(i)` are the messages the i-th calls
      throw, None when they return. */
  function OrderError(order: Order, i: nat, shop: nat -> Option<string>, loyalty: nat -> Option<string>): Option<string> {
    if order.customerName.None? then Some(ReadError(Undefined, "split"))
    else if shop(i).Some? then shop(i)
    else loyalty(i)
  }

  /** The index of the first order from `i` on that throws, or the number
      of orders when none does. */
  function FirstFailure(orders: seq<Order>, i: nat, shop: nat -> Option<string>, loyalty: nat -> Option<string>): (n: nat)
    requires i <= |orders|
    ensures i <= n <= |orders|
    decreases |orders| - i
  {
    if i == |orders| || OrderError(orders[i], i, shop, loyalty).Some? then i
    else FirstFailure(orders, i + 1, shop, loyalty)
  }

  /** Every order before the first failure goes through, and the order at
      it throws: a thrown error stops the run at the first order that
      throws. */
  lemma {:induction false} FirstFailureExact(orders: seq<Order>, i: nat, shop: nat -> Option<string>, loyalty: nat -> Option<string>)
    requires i <= |orders|
    ensures var n := FirstFailure(orders, i, shop, loyalty);
      && (forall j :: i <= j < n ==> OrderError(orders[j], j, shop, loyalty).None?)
      && (n < |orders| ==> OrderError(orders[n], n, shop, loyalty).Some?)
    decreases |orders| - i
  {
    if i < |orders| && OrderError(orders[i], i, shop, loyalty).None? {
      FirstFailureExact(orders, i + 1, shop, loyalty);
    }
  }

  /** The draft orders requested by the first `k` passes: one for each
      order with a customer name. */
  function Drafts(orders: seq<Order>, k: nat): seq<DraftOrder>
    requires k <= |orders|
  {
    if k == 0 then []
    else Drafts(orders, k - 1) + (if orders[k - 1].customerName.Some? then [Draft(orders[k - 1])] else [])
  }

  /** The points events posted by the first `k` passes: one for each order
      with a customer name whose shop call returned. */
  function Events(orders: seq<Order>, shop: nat -> Option<string>, k: nat): seq<PointsEvent>
    requires k <= |orders|
  {
    if k == 0 then []
    else Events(orders, shop, k - 1)
         + (if orders[k - 1].customerName.Some? && shop(k - 1).None? then [Event(orders[k - 1])] else [])
  }

  /** The results collected by the first `k` passes, one per order. */
  function Results(orders: seq<Order>, k: nat): (results: seq<ImportResult>)
    requires k <= |orders|
    ensures |results| == k
  {
    if k == 0 then [] else Results(orders, k - 1) + [ResultOf(orders[k - 1])]
  }

  /** The k-th result is that of the k-th order. */
  lemma {:induction false} ResultsInOrder(orders: seq<Order>, k: nat)
    requires k <= |orders|
    ensures forall j :: 0 <= j < k ==> Results(orders, k)[j] == ResultOf(orders[j])
    decreases k
  {
    if k > 0 {
      ResultsInOrder(orders, k - 1);
    }
  }

  /** The passes the run makes: every order up to and including the one
      that throws. */
  function Attempted(orders: seq<Order>, shop: nat -> Option<string>, loyalty: nat -> Option<string>): (k: nat)
    ensures k <= |orders|
  {
    var n := FirstFailure(orders, 0, shop, loyalty);
    if n < |orders| then n + 1 else n
  }

  /** Every order before the one that throws gets its draft order; the
      one that throws gets one when it has a customer name. */
  lemma AttemptedDrafts(orders: seq<Order>, shop: nat -> Option<string>, loyalty: nat -> Option<string>)
    ensures var n, drafts := FirstFailure(orders, 0, shop, loyalty), Drafts(orders, Attempted(orders, shop, loyalty));
      && |drafts| == n + (if n < |orders| && orders[n].customerName.Some? then 1 else 0)
      && forall j :: 0 <= j < |drafts| ==> orders[j].customerName.Some? && drafts[j] == Draft(orders[j])
  {
    var n := FirstFailure(orders, 0, shop, loyalty);
    FirstFailureExact(orders, 0, shop, loyalty);
    DraftsBefore(orders, n);
    if n < |orders| {
      var order := orders[n];
      assert Drafts(orders, n + 1) == Drafts(orders, n) + (if order.customerName.Some? then [Draft(order)] else []);
    }
  }

  /** Every order before the one that throws gets its points event; the one
      that throws gets one when it has a customer name and its shop call
      returned. */
  lemma AttemptedEvents(orders: seq<Order>, shop: nat -> Option<string>, loyalty: nat -> Option<string>)
    ensures var n, events := FirstFailure(orders, 0, shop, loyalty), Events(orders, shop, Attempted(orders, shop, loyalty));
      && |events| == n + (if n < |orders| && orders[n].customerName.Some? && shop(n).None? then 1 else 0)
      && forall j :: 0 <= j < |events| ==> events[j] == Event(orders[j])
  {
    var n := FirstFailure(orders, 0, shop, loyalty);
    FirstFailureExact(orders, 0, shop, loyalty);
    EventsBefore(orders, shop, n);
    if n < |orders| {
      var order := orders[n];
      assert Events(orders, shop, n + 1) == Events(orders, shop, n) + (if order.customerName.Some? && shop(n).None? then [Event(order)] else []);
    }
  }

  /** Orders that all have a customer name each get their draft order. */
  lemma {:induction false} DraftsBefore(orders: seq<Order>, k: nat)
    requires k <= |orders|
    requires forall j :: 0 <= j < k ==> orders[j].customerName.Some?
    ensures |Drafts(orders, k)| == k
    ensures forall j :: 0 <= j < k ==> Drafts(orders, k)[j] == Draft(orders[j])
    decreases k
  {
    if k > 0 {
      DraftsBefore(orders, k - 1);
    }
  }

  /** Orders that all have a customer name and whose shop calls all
      returned each get their points event. */
  lemma {:induction false} EventsBefore(orders: seq<Order>, shop: nat -> Option<string>, k: nat)
    requires k <= |orders|
    requires forall j :: 0 <= j < k ==> orders[j].customerName.Some? && shop(j).None?
    ensures |Events(orders, shop, k)| == k
    ensures forall j :: 0 <= j < k ==> Events(orders, shop, k)[j] == Event(orders[j])
    decreases k
  {
    if k > 0 {
      EventsBefore(orders, shop, k - 1);
    }
  }

  /** One pass of the loop body: split the name, create the draft order,
      post the points event. Returns the requests attempted and the error
      that stopped the pass, if any. */
  method ProcessOrder(order: Order, i: nat, shop: nat -> Option<string>, loyalty: nat -> Option<string>)
    returns (draft: Option<DraftOrder>, event: Option<PointsEvent>, error: Option<string>)
    ensures error == OrderError(order, i, shop, loyalty)
    ensures draft == if order.customerName.Some? then Some(Draft(order)) else None
    ensures event == if order.customerName.Some? && shop(i).None? then Some(Event(order)) else None
  {
    draft, event, error := None, None, None;
    if order.customerName.None? {
      error := Some(ReadError(Undefined, "split"));
      return;
    }
    draft := Some(Draft(order));
    if shop(i).Some? {
      error := shop(i);
      return;
    }
    event := Some(Event(order));
    error := loyalty(i);
  }

  /** The main loop over the parsed orders. It returns the results
      collected, the draft orders and points events attempted, what was
      written to `import_results.json` (None when nothing was), and the
      error that stopped the run. */
  method ProcessOrders(orders: seq<Order>, shop: nat -> Option<string>, loyalty: nat -> Option<string>)
    returns (results: seq<ImportResult>, drafts: seq<DraftOrder>, events: seq<PointsEvent>,
             saved: Option<seq<ImportResult>>, error: Option<string>)
    ensures var n := FirstFailure(orders, 0, shop, loyalty);
      && results == Results(orders, n)
      && (error.None? <==> n == |orders|)
      && (error.Some? ==> error == OrderError(orders[n], n, shop, loyalty))
      && saved == (if error.None? then Some(results) else None)
    ensures drafts == Drafts(orders, Attempted(orders, shop, loyalty))
    ensures events == Events(orders, shop, Attempted(orders, shop, loyalty))
  {
    ghost var n := FirstFailure(orders, 0, shop, loyalty);
    FirstFailureExact(orders, 0, shop, loyalty);
    results, drafts, events, saved, error := [], [], [], None, None;
    var i := 0;
    while i < |orders| && error.None?
      invariant 0 <= i <= n
      invariant error.Some? ==> i == n < |orders| && error == OrderError(orders[i], i, shop, loyalty)
      invariant results == Results(orders, i)
      invariant drafts == Drafts(orders, if error.Some? then i + 1 else i)
      invariant events == Events(orders, shop, if error.Some? then i + 1 else i)
      decreases |orders| - i, if error.None? then 1 else 0
    {
      var draft, event, failure := ProcessOrder(orders[i], i, shop, loyalty);
      if draft.Some? {
        drafts := drafts + [draft.value];
      }
      if event.Some? {
        events := events + [event.value];
      }
      if failure.Some? {
        error := failure;
      } else {
        results := results + [ResultOf(orders[i])];
        i := i + 1;
      }
    }
    if error.None? {
      saved := Some(results);
    }
  }

  /** The orders of the file, as the loop reads them. */
  function Orders(text: string): (orders: seq<Order>)
    ensures |orders| == |ParseCsv(text)|
    ensures forall k :: 0 <= k < |orders| ==> orders[k] == Columns(ParseCsv(text)[k])
  {
    var records := ParseCsv(text);
    seq(|records|, k requires 0 <= k < |records| => Columns(records[k]))
  }

  /** The cells of the header line. */
  function HeaderCells(text: string): seq<string> {
    Split(Lines(text)[0], ',')
  }

  /** The cells of the line of the k-th record. */
  function RowCells(text: string, k: nat): seq<string>
    requires k < |Lines(text)| - 1
  {
    Split(Lines(text)[k + 1], ',')
  }

  /** Header cell `q` names a column no later header cell renames, so it
      is the one `Object.fromEntries` keeps. */
  predicate LastColumn(header: seq<string>, q: nat) {
    q < |header| && forall j :: q < j < |header| ==> Trim(header[j]) != Trim(header[q])
  }

  /** A record reads, under the name of a kept column, the trimmed cell of
      that column, or undefined when the row is shorter. */
  lemma RecordCell(header: seq<string>, row: seq<string>, q: nat)
    requires LastColumn(header, q)
    ensures Value(RowRecord(header, row), Trim(header[q])) == Cell(row, q)
  {
    var keys := Keys(header);
    var cells := seq(|header|, i requires 0 <= i < |header| => Cell(row, i));
    EntriesExact(keys, cells);
    assert keys[q] == Trim(header[q]) && cells[q] == Cell(row, q);
    assert forall j :: q < j < |keys| ==> keys[j] != keys[q];
  }

  /** A record reads undefined under a name no header cell has. */
  lemma RecordMissing(header: seq<string>, row: seq<string>, key: string)
    requires forall q :: 0 <= q < |header| ==> Trim(header[q]) != key
    ensures Value(RowRecord(header, row), key) == None
  {
    var keys := Keys(header);
    var cells := seq(|header|, i requires 0 <= i < |header| => Cell(row, i));
    EntriesExact(keys, cells);
    assert key !in keys by {
      forall i | 0 <= i < |keys| ensures keys[i] != key {
        assert keys[i] == Trim(header[i]);
      }
    }
  }

  /** Each field of the k-th order is the trimmed cell of line k + 1 under
      the header column of that name; the quantity and the points are that
      cell through `parseInt`. */
  lemma OrderColumn(text: string, k: nat, q: nat)
    requires k < |Lines(text)| - 1
    requires LastColumn(HeaderCells(text), q)
    ensures k < |Orders(text)|
    ensures var name, order, cell := Trim(HeaderCells(text)[q]), Orders(text)[k], Cell(RowCells(text, k), q);
      && (name == "order_id" ==> order.orderId == cell)
      && (name == "customer_email" ==> order.customerEmail == cell)
      && (name == "customer_name" ==> order.customerName == cell)
      && (name == "product" ==> order.product == cell)
      && (name == "quantity" ==> order.quantity == ParseInt(cell))
      && (name == "price" ==> order.price == cell)
      && (name == "points_earned" ==> order.pointsEarned == cell && order.points == ParseInt(cell))
  {
    RecordCount(text);
    RecordCell(HeaderCells(text), RowCells(text, k), q);
  }

  /** A file whose header has no `customer_name` column fails on its
      first order, at `split`, before any call is made. */
  lemma MissingNameColumn(text: string, shop: nat -> Option<string>, loyalty: nat -> Option<string>)
    requires forall q :: 0 <= q < |HeaderCells(text)| ==> Trim(HeaderCells(text)[q]) != "customer_name"
    requires 0 < |Lines(text)| - 1
    ensures Orders(text) != []
    ensures FirstFailure(Orders(text), 0, shop, loyalty) == 0
    ensures OrderError(Orders(text)[0], 0, shop, loyalty) == Some(ReadError(Undefined, "split"))
  {
    RecordCount(text);
    RecordMissing(HeaderCells(text), RowCells(text, 0), "customer_name");
  }

  /** The script: parse the file's text, then run the loop over its orders. */
  method ImportOrders(text: string, shop: nat -> Option<string>, loyalty: nat -> Option<string>)
    returns (results: seq<ImportResult>, saved: Option<seq<ImportResult>>, error: Option<string>)
    ensures var orders := Orders(text);
      var n := FirstFailure(orders, 0, shop, loyalty);
      && |results| == n
      && (forall j :: 0 <= j < n ==> results[j] == ResultOf(orders[j]))
      && (error.None? <==> n == |orders|)
      && saved == (if error.None? then Some(results) else None)
  {
    var orders := Orders(text);
    var drafts, events;
    results, drafts, events, saved, error := ProcessOrders(orders, shop, loyalty);
    ResultsInOrder(orders, |results|);
  }
}
