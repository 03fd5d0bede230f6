/** The points export script (export.js): read the customer list from the
    loyalty provider's reply and write it as a CSV text, one header line and
    then one line per customer, with the name and the balance defaulted and
    every field written as it is, without quoting. */
module PointsExport {

  import opened Wrappers
  import opened JsText
  import opened JsValues

  /** The column names, in the order the fields of a line follow. */
  const Columns: seq<string> := ["customer_email", "customer_name", "points_balance", "last_updated"]

  /** `customer_email,customer_name,points_balance,last_updated` */
  const Header: string := Join(Columns, ',')
  const NotMappable: string := "customers.map is not a function"

  /** `response.customers || response.data || []`; reading a property of a
      null reply throws. */
  function CustomerList(response: JsValue): (r: Result<JsValue>)
    ensures r.Fail? <==> Nullish(response)
    ensures r.Fail? ==> r.msg == ReadError(response, "customers")
    ensures r.Ok? ==>
      var customers, data := Get(response, "customers"), Get(response, "data");
      && (Truthy(customers) ==> r.value == customers)
      && (!Truthy(customers) && Truthy(data) ==> r.value == data)
      && (!Truthy(customers) && !Truthy(data) ==> r.value == Arr([]))
  {
    if Nullish(response) then Fail(ReadError(response, "customers"))
    else Ok(Or(Or(Get(response, "customers"), Get(response, "data")), Arr([])))
  }

  /** `${c.first_name || ''} ${c.last_name || ''}` */
  function CustomerName(c: JsValue): string {
    ToStr(Or(Get(c, "first_name"), Str(""))) + " " + ToStr(Or(Get(c, "last_name"), Str("")))
  }

  /** `${c.points_balance || 0}` */
  function Points(c: JsValue): string {
    ToStr(Or(Get(c, "points_balance"), Num(0)))
  }

  /** The four fields of a customer's line, the timestamp last. */
  function Fields(c: JsValue, timestamp: string): seq<string> {
    [ToStr(Get(c, "email")), CustomerName(c), Points(c), timestamp]
  }

  /** The line of one customer. */
  function Line(c: JsValue, timestamp: string): string {
    ToStr(Get(c, "email")) + "," + CustomerName(c) + "," + Points(c) + "," + timestamp
  }

  /** A line is its fields joined by commas. */
  lemma LineIsJoin(c: JsValue, timestamp: string)
    ensures Line(c, timestamp) == Join(Fields(c, timestamp), ',')
  {
    var f := Fields(c, timestamp);
    assert f[1..][1..][1..] == [timestamp];
    assert Join(f[1..][1..], ',') == Points(c) + "," + timestamp;
    assert Join(f[1..], ',') == CustomerName(c) + "," + Points(c) + "," + timestamp;
  }

  /** `customers.map(c => ...)`: the k-th customer gets the k-th timestamp
      `now(k)`, and the first null or undefined customer throws on
      `c.email`. */
  function CustomerLines(customers: seq<JsValue>, now: nat -> string): Result<seq<string>>
    decreases |customers|
  {
    if customers == [] then Ok([])
    else
      var k := |customers| - 1;
      match CustomerLines(customers[..k], now)
      case Fail(m) => Fail(m)
      case Ok(lines) =>
        if Nullish(customers[k]) then Fail(ReadError(customers[k], "email"))
        else Ok(lines + [Line(customers[k], now(k))])
  }

  /** The lines, when they are made, are one per customer in order. */
  lemma {:induction false} CustomerLinesInOrder(customers: seq<JsValue>, now: nat -> string)
    ensures var r := CustomerLines(customers, now);
      r.Ok? ==> |r.value| == |customers| && forall k :: 0 <= k < |customers| ==> r.value[k] == Line(customers[k], now(k))
    decreases |customers|
  {
    if customers != [] {
      var init := customers[..|customers| - 1];
      CustomerLinesInOrder(init, now);
    }
  }

  /** The lines fail exactly when some customer is null or undefined, and
      then with the read error of the first one. */
  lemma {:induction false} LinesFailOnNullishCustomer(customers: seq<JsValue>, now: nat -> string)
    ensures CustomerLines(customers, now).Fail? <==> exists k :: 0 <= k < |customers| && Nullish(customers[k])
    ensures forall k :: 0 <= k < |customers| && Nullish(customers[k]) && (forall j :: 0 <= j < k ==> !Nullish(customers[j]))
                        ==> CustomerLines(customers, now) == Fail(ReadError(customers[k], "email"))
    decreases |customers|
  {
    if customers != [] {
      var init := customers[..|customers| - 1];
      LinesFailOnNullishCustomer(init, now);
      assert forall k :: 0 <= k < |init| ==> init[k] == customers[k];
      if exists k :: 0 <= k < |customers| && Nullish(customers[k]) {
        var k :| 0 <= k < |customers| && Nullish(customers[k]);
        if k < |init| {
          assert Nullish(init[k]);
        }
      }
    }
  }

  /** The export: `response` is the parsed reply of the customers call, or
      the error that call throws. The result is the text written to
      `pos_export.csv`, or the message of the error that stops the script
      before anything is written. */
  function ExportCsv(response: Result<JsValue>, now: nat -> string): (r: Result<string>)
    ensures response.Fail? ==> r == Fail(response.msg)
    ensures response.Ok? && Nullish(response.value) ==> r == Fail(ReadError(response.value, "customers"))
    ensures response.Ok? && !Nullish(response.value) && !CustomerList(response.value).value.Arr? ==> r == Fail(NotMappable)
    ensures response.Ok? && !Nullish(response.value) && CustomerList(response.value).value.Arr? ==>
      var lines := CustomerLines(CustomerList(response.value).value.items, now);
      && (lines.Fail? ==> r == Fail(lines.msg))
      && (lines.Ok? ==> r == Ok(Join([Header] + lines.value, '\n')))
  {
    if response.Fail? then Fail(response.msg)
    else
      match CustomerList(response.value)
      case Fail(m) => Fail(m)
      case Ok(customers) =>
        if !customers.Arr? then Fail(NotMappable)
        else
          match CustomerLines(customers.items, now)
          case Fail(m) => Fail(m)
          case Ok(lines) => Ok(Join([Header] + lines, '\n'))
  }

  /** No field of the customer's line holds a line break. */
  predicate SingleLine(c: JsValue, timestamp: string) {
    forall i :: 0 <= i < |Fields(c, timestamp)| ==> '\n' !in Fields(c, timestamp)[i]
  }

  /** A line of fields without line breaks has no line break. */
  lemma {:induction false} JoinFree(parts: seq<string>, sep: char, c: char)
    requires forall i :: 0 <= i < |parts| ==> c !in parts[i]
    requires sep != c
    ensures c !in Join(parts, sep)
    decreases |parts|
  {
    if |parts| > 1 {
      JoinFree(parts[1..], sep, c);
    }
  }

  /** The header is one line of the four column names. */
  lemma HeaderColumns()
    ensures '\n' !in Header
    ensures Split(Header, ',') == Columns
  {
    assert forall i :: 0 <= i < |Columns| ==> '\n' !in Columns[i] && ',' !in Columns[i] by {
      assert '\n' !in Columns[0] && ',' !in Columns[0];
      assert '\n' !in Columns[1] && ',' !in Columns[1];
      assert '\n' !in Columns[2] && ',' !in Columns[2];
      assert '\n' !in Columns[3] && ',' !in Columns[3];
    }
    JoinFree(Columns, ',', '\n');
    SplitJoin(Columns, ',');
  }

  /** The line of a customer whose fields hold no line break has none. */
  lemma LineSingle(c: JsValue, timestamp: string)
    requires SingleLine(c, timestamp)
    ensures '\n' !in Line(c, timestamp)
  {
    LineIsJoin(c, timestamp);
    JoinFree(Fields(c, timestamp), ',', '\n');
  }

  /** A first line and further lines, none holding a line break, split
      back into those lines once joined. */
  lemma CsvLines(head: string, lines: seq<string>)
    requires '\n' !in head
    requires forall k :: 0 <= k < |lines| ==> '\n' !in lines[k]
    ensures Split(Join([head] + lines, '\n'), '\n') == [head] + lines
  {
    var all := [head] + lines;
    forall i | 0 <= i < |all| ensures '\n' !in all[i] {
      if i > 0 {
        assert all[i] == lines[i - 1];
      }
    }
    SplitJoin(all, '\n');
  }

  /** An export of customers whose fields hold no line break splits back
      into the header followed by exactly one line per customer, in order. */
  lemma ExportLineCount(response: JsValue, customers: seq<JsValue>, now: nat -> string)
    requires CustomerList(response) == Ok(Arr(customers))
    requires forall k :: 0 <= k < |customers| ==> !Nullish(customers[k]) && SingleLine(customers[k], now(k))
    ensures var r := ExportCsv(Ok(response), now);
      && r.Ok?
      && var parts := Split(r.value, '\n');
      && |parts| == |customers| + 1
      && parts[0] == Header
      && forall k :: 0 <= k < |customers| ==> parts[k + 1] == Line(customers[k], now(k))
  {
    LinesFailOnNullishCustomer(customers, now);
    CustomerLinesInOrder(customers, now);
    var lines := CustomerLines(customers, now).value;
    assert ExportCsv(Ok(response), now) == Ok(Join([Header] + lines, '\n'));
    forall k | 0 <= k < |lines| ensures '\n' !in lines[k] {
      LineSingle(customers[k], now(k));
    }
    HeaderColumns();
    CsvLines(Header, lines);
  }

  /** An empty customer list exports the header alone, with no line break
      after it. */
  lemma EmptyExport(response: JsValue, now: nat -> string)
    requires !Nullish(response) && CustomerList(response).value == Arr([])
    ensures ExportCsv(Ok(response), now) == Ok(Header)
  {
  }

  /** The fields of a line are written verbatim: when none of them holds a
      comma, splitting the line on commas gives them back. */
  lemma LineFields(c: JsValue, timestamp: string)
    requires forall i :: 0 <= i < |Fields(c, timestamp)| ==> ',' !in Fields(c, timestamp)[i]
    ensures Split(Line(c, timestamp), ',') == Fields(c, timestamp)
  {
    LineIsJoin(c, timestamp);
    SplitJoin(Fields(c, timestamp), ',');
  }

  /** The name field always holds a space, between the two defaulted
      parts; a customer without names gets a lone space. */
  lemma NameParts(c: JsValue)
    ensures ' ' in CustomerName(c)
    ensures !Truthy(Get(c, "first_name")) && !Truthy(Get(c, "last_name")) ==> CustomerName(c) == " "
  {
    var first := ToStr(Or(Get(c, "first_name"), Str("")));
    assert CustomerName(c)[|first|] == ' ';
  }

  /** A falsy balance, zero included, is written as 0; a truthy integer
      balance is written as its decimal text. */
  lemma PointsDefault(c: JsValue)
    ensures !Truthy(Get(c, "points_balance")) ==> Points(c) == "0"
    ensures Get(c, "points_balance").Num? && Get(c, "points_balance").n != 0 ==>
              Points(c) == IntToString(Get(c, "points_balance").n)
  {
  }
}
