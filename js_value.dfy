/** The loosely shaped JSON values that travel between the browser, the
    gateway and the upstream providers, with the parts of JavaScript's
    semantics the code applies to them: truthiness, `||`, property reads
    with and without optional chaining, conversion to string and to number,
    the `+` operator and JSON.stringify.

    Numbers are integers: fractional JSON numbers are not represented. */
module JsValues {

  import opened Wrappers
  import opened JsText

  datatype JsValue =
    | Undefined
    | Null
    | Bool(b: bool)
    | Num(n: int)
    | NaN
    | Str(s: string)
    | Arr(items: seq<JsValue>)
    | Obj(fields: seq<Field>)

  /** One own property of an object, in the object's own-key order. */
  datatype Field = Field(key: string, value: JsValue)

  const EmptyObject: JsValue := Obj([])

  /** JavaScript truthiness: `undefined`, `null`, `false`, `0`, `NaN` and
      `""` are falsy; every object and array is truthy, even an empty one. */
  predicate Truthy(v: JsValue) {
    match v
    case Undefined => false
    case Null => false
    case NaN => false
    case Bool(b) => b
    case Num(n) => n != 0
    case Str(s) => s != ""
    case Arr(_) => true
    case Obj(_) => true
  }

  predicate Nullish(v: JsValue) {
    v.Undefined? || v.Null?
  }

  /** What an express body parser hands to a route handler: an object or an array. */
  predicate RequestBody(v: JsValue) {
    v.Obj? || v.Arr?
  }

  /** `a || b` */
  function Or(a: JsValue, b: JsValue): JsValue {
    if Truthy(a) then a else b
  }

  /** `vs[0] || vs[1] || ... || last` */
  function OrChain(vs: seq<JsValue>, last: JsValue): JsValue {
    if vs == [] then last else Or(vs[0], OrChain(vs[1..], last))
  }

  /** An `||` chain yields its first truthy operand, and its last operand
      when every earlier one is falsy. */
  lemma {:induction false} OrChainFirstTruthy(vs: seq<JsValue>, last: JsValue)
    ensures forall i :: 0 <= i < |vs| && Truthy(vs[i]) && (forall j :: 0 <= j < i ==> !Truthy(vs[j]))
                        ==> OrChain(vs, last) == vs[i]
    ensures (forall i :: 0 <= i < |vs| ==> !Truthy(vs[i])) ==> OrChain(vs, last) == last
  {
    if vs != [] {
      OrChainFirstTruthy(vs[1..], last);
      forall i | 0 <= i < |vs| && Truthy(vs[i]) && (forall j :: 0 <= j < i ==> !Truthy(vs[j]))
        ensures OrChain(vs, last) == vs[i]
      {
        if i > 0 {
          assert !Truthy(vs[0]);
          assert vs[1..][i - 1] == vs[i];
          assert forall j :: 0 <= j < i - 1 ==> vs[1..][j] == vs[j + 1];
        }
      }
      if forall i :: 0 <= i < |vs| ==> !Truthy(vs[i]) {
        assert forall i :: 0 <= i < |vs| - 1 ==> vs[1..][i] == vs[i + 1];
      }
    }
  }

  /** The value of the last property named `key`, as JSON.parse keeps the
      last of repeated keys. */
  function Lookup(fields: seq<Field>, key: string): Option<JsValue> {
    if fields == [] then None
    else if fields[|fields| - 1].key == key then Some(fields[|fields| - 1].value)
    else Lookup(fields[..|fields| - 1], key)
  }

  /** `v?.key` for an own data property: `undefined` when `v` is null or
      undefined, when `v` is not an object, or when the object lacks the
      key. The built-in properties of strings and arrays are read with
      LengthOf instead. */
  function Get(v: JsValue, key: string): JsValue {
    match v
    case Obj(fields) => (match Lookup(fields, key) case Some(x) => x case None => Undefined)
    case _ => Undefined
  }

  /** `v?.k1?.k2 ...?.kn` */
  function Path(v: JsValue, keys: seq<string>): JsValue
    decreases |keys|
  {
    if keys == [] then v else Path(Get(v, keys[0]), keys[1..])
  }

  /** The message of the TypeError V8 throws on reading `key` of null or undefined. */
  function ReadError(v: JsValue, key: string): string {
    "Cannot read properties of " + (if v.Null? then "null" else "undefined") + " (reading '" + key + "')"
  }

  /** `(x || {}).key` reads the same as `x?.key`. */
  lemma OrEmptyGet(x: JsValue, key: string)
    ensures Get(Or(x, EmptyObject), key) == Get(x, key)
  {
  }

  /** The lengths the code reads: a string's or an array's length, an
      object's own `length` property, and nothing for other values. */
  function LengthOf(v: JsValue): JsValue {
    match v
    case Str(s) => Num(|s|)
    case Arr(items) => Num(|items|)
    case Obj(_) => Get(v, "length")
    case _ => Undefined
  }

  /** ToString, as template literals, String() and `new Error(x)` apply it. */
  function ToStr(v: JsValue): string
    decreases v, 1
  {
    match v
    case Undefined => "undefined"
    case Null => "null"
    case Bool(b) => if b then "true" else "false"
    case Num(n) => IntToString(n)
    case NaN => "NaN"
    case Str(s) => s
    case Arr(_) => JoinItems(v, 0)
    case Obj(_) => "[object Object]"
  }

  /** Array.prototype.join(",") from index `i`, null and undefined elements
      written as empty text. */
  function JoinItems(v: JsValue, i: nat): string
    requires v.Arr? && i <= |v.items|
    decreases v, 0, |v.items| - i
  {
    if i == |v.items| then ""
    else
      var e := v.items[i];
      var t := if Nullish(e) then "" else ToStr(e);
      if i + 1 == |v.items| then t else t + "," + JoinItems(v, i + 1)
  }

  /** ToNumber on a string, once the white space around it is trimmed:
      nothing reads as 0, an optionally signed decimal integer and an
      unsigned `0x`, `0o` or `0b` literal as their values, anything else as
      NaN. Every form with a `.` or an exponent, integer-valued or not (such
      as `"1e3"`), and `Infinity` read as NaN here. */
  function StringToNumber(s: string): (r: JsValue)
    ensures r.Num? || r.NaN?
  {
    var t := Trim(s);
    if t == "" then Num(0)
    else match ParseInteger(t)
      case Some(n) => Num(n)
      case None =>
        match ParsePrefixed(t)
        case Some(n) => Num(n)
        case None => NaN
  }

  /** ToNumber after ToPrimitive, as the relational and arithmetic operators apply them. */
  function ToNumber(v: JsValue): (r: JsValue)
    ensures r.Num? || r.NaN?
  {
    match v
    case Undefined => NaN
    case Null => Num(0)
    case Bool(b) => Num(if b then 1 else 0)
    case Num(_) => v
    case NaN => NaN
    case Str(s) => StringToNumber(s)
    case Arr(_) => StringToNumber(ToStr(v))
    case Obj(_) => NaN
  }

  /** Converting an integer to text and back to a number is the identity. */
  lemma NumberTextRoundTrip(n: int)
    ensures ToNumber(Str(ToStr(Num(n)))) == Num(n)
  {
    IntegerRoundTrip(n);
  }

  /** A `0x`, `0o` or `0b` literal reads as its value in that radix. */
  lemma PrefixedNumber(s: string)
    requires ParsePrefixed(Trim(s)).Some?
    ensures ToNumber(Str(s)) == Num(ParsePrefixed(Trim(s)).value)
  {
    var t := Trim(s);
    assert !IsDigit(t[1]);
  }

  /** `"0x10"` reads as sixteen. */
  lemma HexLiteral()
    ensures ToNumber(Str("0x10")) == Num(16)
  {
    assert Trim("0x10") == "0x10" by { assert Trimmed("0x10"); }
    assert RunValue("10", 16) == 16 by { assert "10"[..1] == "1"; }
    PrefixedNumber("0x10");
  }

  /** `" 0B101\n"` reads as five: the white space around it is dropped and
      the prefix letter may be upper case. */
  lemma BinaryLiteral()
    ensures ToNumber(Str(" 0B101\n")) == Num(5)
  {
    assert Trim(" 0B101\n") == "0B101" by {
      assert TrimStart(" 0B101\n") == "0B101\n";
      assert TrimEnd("0B101\n") == "0B101";
    }
    assert RunValue("101", 2) == 5 by { assert "101"[..2] == "10"; assert "10"[..1] == "1"; }
    PrefixedNumber(" 0B101\n");
  }

  /** `"0o17"` reads as fifteen. */
  lemma OctalLiteral()
    ensures ToNumber(Str("0o17")) == Num(15)
  {
    assert Trim("0o17") == "0o17" by { assert Trimmed("0o17"); }
    assert RunValue("17", 8) == 15 by { assert "17"[..1] == "1"; }
    PrefixedNumber("0o17");
  }

  /** A prefixed literal takes no sign: `"-0x10"` is NaN. */
  lemma SignedHexIsNaN()
    ensures ToNumber(Str("-0x10")) == NaN
  {
    assert Trim("-0x10") == "-0x10" by { assert Trimmed("-0x10"); }
    assert !IsDigit("-0x10"[2]);
  }

  /** ToPrimitive: arrays and objects become their string form. */
  function ToPrimitive(v: JsValue): JsValue {
    if v.Arr? || v.Obj? then Str(ToStr(v)) else v
  }

  /** The `+` operator: concatenation when either primitive operand is a
      string, numeric addition otherwise. */
  function Plus(a: JsValue, b: JsValue): JsValue {
    var pa := ToPrimitive(a);
    var pb := ToPrimitive(b);
    if pa.Str? || pb.Str? then Str(ToStr(pa) + ToStr(pb))
    else
      var na := ToNumber(pa);
      var nb := ToNumber(pb);
      if na.Num? && nb.Num? then Num(na.n + nb.n) else NaN
  }

  /** `v > 0` */
  predicate IsPositive(v: JsValue) {
    var x := ToNumber(v);
    x.Num? && x.n > 0
  }

  function HexDigit(d: nat): char
    requires d < 16
  {
    if d < 10 then DigitChar(d) else ('a' as int + d - 10) as char
  }

  /** How JSON.stringify writes one character inside a string literal. */
  function EscapeChar(c: char): string {
    if c == '"' then "\\\""
    else if c == '\\' then "\\\\"
    else if c == '\U{0008}' then "\\b"
    else if c == '\U{000C}' then "\\f"
    else if c == '\n' then "\\n"
    else if c == '\r' then "\\r"
    else if c == '\t' then "\\t"
    else if c < ' ' then "\\u00" + [HexDigit(c as int / 16), HexDigit(c as int % 16)]
    else [c]
  }

  function JsonEscape(s: string): string {
    if s == [] then "" else EscapeChar(s[0]) + JsonEscape(s[1..])
  }

  function JsonQuote(s: string): string {
    "\"" + JsonEscape(s) + "\""
  }

  /** JSON.stringify without indentation; None where it returns `undefined`. */
  function Stringify(v: JsValue): Option<string>
    decreases v, 1
  {
    match v
    case Undefined => None
    case Null => Some("null")
    case NaN => Some("null")
    case Bool(b) => Some(if b then "true" else "false")
    case Num(n) => Some(IntToString(n))
    case Str(s) => Some(JsonQuote(s))
    case Arr(_) => Some("[" + StringifyItems(v, 0) + "]")
    case Obj(_) => Some("{" + StringifyFields(v, 0) + "}")
  }

  /** Array elements from index `i`; an undefined element is written `null`. */
  function StringifyItems(v: JsValue, i: nat): string
    requires v.Arr? && i <= |v.items|
    decreases v, 0, |v.items| - i
  {
    if i == |v.items| then ""
    else
      var t := match Stringify(v.items[i]) case Some(x) => x case None => "null";
      if i + 1 == |v.items| then t else t + "," + StringifyItems(v, i + 1)
  }

  /** Object members from index `i`; a member whose value is undefined is omitted. */
  function StringifyFields(v: JsValue, i: nat): string
    requires v.Obj? && i <= |v.fields|
    decreases v, 0, |v.fields| - i
  {
    if i == |v.fields| then ""
    else
      var rest := StringifyFields(v, i + 1);
      match Stringify(v.fields[i].value)
      case None => rest
      case Some(t) =>
        var member := JsonQuote(v.fields[i].key) + ":" + t;
        if rest == "" then member else member + "," + rest
  }

  /** `${JSON.stringify(v)}` inside a template literal. */
  function StringifyText(v: JsValue): string {
    match Stringify(v)
    case Some(t) => t
    case None => "undefined"
  }
}
