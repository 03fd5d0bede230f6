/** The three upstream adapters of the gateway (index.js): the loyalty
    provider's JSON API (`rivoAPI`), its form-encoded variant
    (`rivoAPIForm`) and the transactional-email sender
    (`sendEmailViaResend`). Each turns the outcome of one HTTP call into
    either the parsed body or an error message. The request itself (URL,
    headers, body encoding) is transport and is not modelled; the call's
    outcome is an input. */
module Adapters {

  import opened Wrappers
  import opened JsText
  import opened JsValues

  /** What `response.json()` made of a response body. */
  datatype Parsed = Parsed(value: JsValue) | Malformed(reason: string)

  /** The outcome of one `fetch`: a rejection with its error message, or a
      response with its status, its Content-Type header (None when absent),
      its body text and the result of parsing that text as JSON. */
  datatype Fetched =
    | Rejected(reason: string)
    | Response(status: int, contentType: Option<string>, text: string, json: Parsed)

  /** The configuration values the handlers consult (each from the
      environment or the .env file; None when neither sets it). */
  datatype Config = Config(resendApiKey: Option<string>, resendFrom: Option<string>, emailFromName: Option<string>)

  /** A configuration value that is set and non-empty, i.e. truthy. */
  predicate Present(o: Option<string>) {
    o.Some? && o.value != ""
  }

  /** `config.X || fallback` */
  function OrDefault(o: Option<string>, fallback: string): string {
    if Present(o) then o.value else fallback
  }

  /** `response.ok` */
  predicate IsOk(status: int) {
    200 <= status <= 299
  }

  /** `contentType && contentType.includes('application/json')` */
  predicate IsJsonType(contentType: Option<string>) {
    contentType.Some? && Contains(contentType.value, "application/json")
  }

  const RivoPrefix: string := "Rivo API Error: "

  /** The body excerpt quoted in a non-JSON error: the first 200
      characters, followed by "..." only when the body is longer. */
  function Snippet(text: string): (r: string)
    ensures |r| <= 203
    ensures |text| <= 200 ==> r == text
    ensures |text| > 200 ==> |r| == 203 && r[..200] == text[..200] && r[200..] == "..."
  {
    if |text| > 200 then text[..200] + "..." else text
  }

  function NonJsonMessage(status: int, text: string): string {
    "API returned non-JSON response (HTTP " + IntToString(status) + "): " + Snippet(text)
  }

  /** `rivoAPI`: the content type is checked before the status, so a
      non-JSON response fails whatever its status; a JSON response that is
      not 2xx fails with its status and its body; every error is prefixed. */
  function RivoApi(f: Fetched): (r: Result<JsValue>)
    ensures r.Fail? ==> RivoPrefix <= r.msg
    ensures r.Ok? <==> f.Response? && IsJsonType(f.contentType) && IsOk(f.status) && f.json.Parsed?
    ensures r.Ok? ==> r.value == f.json.value
    ensures f.Response? && !IsJsonType(f.contentType) ==> r.msg == RivoPrefix + NonJsonMessage(f.status, f.text)
    ensures f.Response? && IsJsonType(f.contentType) && !IsOk(f.status) && f.json.Parsed? ==>
              r.msg == RivoPrefix + "HTTP " + IntToString(f.status) + ": " + StringifyText(f.json.value)
  {
    match f
    case Rejected(reason) => Fail(RivoPrefix + reason)
    case Response(status, contentType, text, json) =>
      if !IsJsonType(contentType) then Fail(RivoPrefix + NonJsonMessage(status, text))
      else match json
        case Malformed(reason) => Fail(RivoPrefix + reason)
        case Parsed(v) =>
          if IsOk(status) then Ok(v)
          else Fail(RivoPrefix + "HTTP " + IntToString(status) + ": " + StringifyText(v))
  }

  /** `responseData` in `rivoAPIForm`: the parsed body of a JSON response,
      or `{message: text}` for any other response. */
  function FormBody(contentType: Option<string>, text: string, json: Parsed): Result<JsValue> {
    if !IsJsonType(contentType) then Ok(Obj([Field("message", Str(text))]))
    else match json
      case Malformed(reason) => Fail(reason)
      case Parsed(v) => Ok(v)
  }

  /** `responseData.error || responseData.message || 'HTTP <status>'`, as
      `new Error` turns it into a message. */
  function FormErrorText(data: JsValue, status: int): string {
    ToStr(OrChain([Get(data, "error"), Get(data, "message")], Str("HTTP " + IntToString(status))))
  }

  /** `rivoAPIForm`: a non-JSON body is wrapped as `{message: text}`; a
      non-2xx response fails with the body's `error`, else its `message`,
      else the status; every error is prefixed. */
  function RivoApiForm(f: Fetched): (r: Result<JsValue>)
    ensures r.Fail? ==> RivoPrefix <= r.msg
    ensures r.Ok? <==> f.Response? && IsOk(f.status) && (IsJsonType(f.contentType) ==> f.json.Parsed?)
    ensures r.Ok? ==> r.value == if IsJsonType(f.contentType) then f.json.value else Obj([Field("message", Str(f.text))])
  {
    match f
    case Rejected(reason) => Fail(RivoPrefix + reason)
    case Response(status, contentType, text, json) =>
      var data := FormBody(contentType, text, json);
      if data.Fail? then Fail(RivoPrefix + data.msg)
      else if IsOk(status) then data
      else if Nullish(data.value) then Fail(RivoPrefix + ReadError(data.value, "error"))
      else Fail(RivoPrefix + FormErrorText(data.value, status))
  }

  /** The precedence of the error text of a failed form call: a truthy
      `error` wins, then a truthy `message`, then `HTTP <status>`. */
  lemma FormErrorPrecedence(status: int, contentType: Option<string>, text: string, json: Parsed)
    requires !IsOk(status)
    requires FormBody(contentType, text, json).Ok? && !Nullish(FormBody(contentType, text, json).value)
    ensures var data := FormBody(contentType, text, json).value;
            var r := RivoApiForm(Response(status, contentType, text, json));
            && (Truthy(Get(data, "error")) ==> r == Fail(RivoPrefix + ToStr(Get(data, "error"))))
            && (!Truthy(Get(data, "error")) && Truthy(Get(data, "message")) ==> r == Fail(RivoPrefix + ToStr(Get(data, "message"))))
            && (!Truthy(Get(data, "error")) && !Truthy(Get(data, "message")) ==> r == Fail(RivoPrefix + "HTTP " + IntToString(status)))
  {
    var data := FormBody(contentType, text, json).value;
    OrChainFirstTruthy([Get(data, "error"), Get(data, "message")], Str("HTTP " + IntToString(status)));
  }

  /** A failed form call whose body is not JSON reports that body, or the
      status when the body is empty. */
  lemma FormNonJsonError(status: int, contentType: Option<string>, text: string, json: Parsed)
    requires !IsOk(status) && !IsJsonType(contentType)
    ensures RivoApiForm(Response(status, contentType, text, json))
            == Fail(RivoPrefix + if text != "" then text else "HTTP " + IntToString(status))
  {
    var fields := [Field("message", Str(text))];
    var data := Obj(fields);
    assert fields[|fields| - 1].key != "error";
    assert Lookup(fields, "error") == Lookup(fields[..0], "error") == None;
    assert Get(data, "error") == Undefined;
    assert Get(data, "message") == Str(text);
    assert FormBody(contentType, text, json) == Ok(data);
    var fallback := Str("HTTP " + IntToString(status));
    var chain := [Get(data, "error"), Get(data, "message")];
    assert chain[1..] == [Str(text)] && chain[1..][1..] == [];
    assert OrChain(chain[1..][1..], fallback) == fallback;
    assert OrChain(chain[1..], fallback) == Or(Str(text), fallback);
    assert OrChain(chain, fallback) == Or(Undefined, Or(Str(text), fallback));
  }

  const ResendKeyMissing: string := "RESEND_API_KEY not configured"

  /** `sendEmailViaResend`: refuses without an API key and otherwise
      reports a non-2xx response with its status and body text. It has no
      content-type check and no prefix; a rejected fetch or an unparsable
      2xx body propagates its own message. */
  function SendViaResend(apiKey: Option<string>, f: Fetched): (r: Result<JsValue>)
    ensures !Present(apiKey) ==> r == Fail(ResendKeyMissing)
    ensures r.Ok? <==> Present(apiKey) && f.Response? && IsOk(f.status) && f.json.Parsed?
    ensures r.Ok? ==> r.value == f.json.value
    ensures Present(apiKey) && f.Response? && !IsOk(f.status) ==>
              r == Fail("Resend API Error " + IntToString(f.status) + ": " + f.text)
  {
    if !Present(apiKey) then Fail(ResendKeyMissing)
    else match f
      case Rejected(reason) => Fail(reason)
      case Response(status, _, text, json) =>
        if !IsOk(status) then Fail("Resend API Error " + IntToString(status) + ": " + text)
        else match json
          case Malformed(reason) => Fail(reason)
          case Parsed(v) => Ok(v)
  }
}
