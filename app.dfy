/**
 * The request rules of the Flask backend (Backend/app.py): the validation and
 * URL normalisation of `/api/scan` and the required-field check of
 * `/api/contact`. Flask is replaced by a function from the parsed JSON body to
 * a status code and a response record; the scanner is `Scanner.ScanReport`,
 * whose network outcomes are inputs.
 */
module App {
  import opened Wrappers
  import opened Text
  import Scanner

  /** A parsed JSON value, as `request.get_json()` hands it to a handler. */
  datatype Json =
    | JNull
    | JBool(b: bool)
    | JNumber(n: real)
    | JString(s: string)
    | JArray(items: seq<Json>)
    | JObject(fields: map<string, Json>)

  /** Python truthiness of the value `get_json()` returns. */
  predicate Truthy(v: Json)
  {
    match v
    case JNull => false
    case JBool(b) => b
    case JNumber(n) => n != 0.0
    case JString(s) => s != ""
    case JArray(items) => items != []
    case JObject(fields) => fields != map[]
  }

  /**
   * Python's `key in v`: key membership for a dict, element equality for a
   * list, substring for a string; `None` stands for the TypeError any other
   * value raises.
   */
  function PyIn(key: string, v: Json): (r: Option<bool>)
    ensures r.None? <==> v.JNull? || v.JBool? || v.JNumber?
    ensures v.JObject? ==> r == Some(key in v.fields)
  {
    match v
    case JObject(fields) => Some(key in fields)
    case JArray(items) => Some(JString(key) in items)
    case JString(s) => Some(Contains(s, key))
    case _ => None
  }

  /** The JSON body of a response; `status` is 'error' or 'success'. */
  datatype Payload =
    | ErrorPayload(error: string)
    | ScanPayload(url: string, results: seq<Scanner.CheckResult>)
    | ContactPayload(message: string)
  {
    function Status(): string
    {
      if ErrorPayload? then "error" else "success"
    }
  }

  datatype Response = Response(code: int, payload: Payload)

  const UrlRequired := "URL is required"
  /** The start of the 500 message; the text of the caught exception follows it. */
  const ScanFailedPrefix := "Scan failed: "
  const ContactFailedPrefix := "Failed to process contact form: "
  const ContactReceived := "Contact form submitted successfully"
  const HttpScheme := "http://"

  /**
   * The URL `/api/scan` scans: the input stripped, with `https://` put in
   * front unless it already starts with `http://` or `https://`. The test is
   * case-sensitive, so an existing `http://` is kept and `HTTP://` is not
   * recognised.
   */
  function NormalizeUrl(raw: string): (url: string)
    ensures var t := Trim(raw, PySpace);
      && (url == t <==> StartsWith(t, HttpScheme) || StartsWith(t, HttpsScheme))
      && (url != t ==> url == HttpsScheme + t)
    ensures StartsWith(url, HttpScheme) || StartsWith(url, HttpsScheme)
  {
    var t := Trim(raw, PySpace);
    if StartsWith(t, HttpScheme) || StartsWith(t, HttpsScheme) then t else HttpsScheme + t
  }

  /** A string that starts with `p` still does when more is appended. */
  lemma StartsWithConcat(p: string, s: string)
    ensures StartsWith(p + s, p)
  {
    assert (p + s)[..|p|] == p;
  }

  /** Normalising a normalised URL changes nothing. */
  lemma NormalizeIdempotent(raw: string)
    ensures NormalizeUrl(NormalizeUrl(raw)) == NormalizeUrl(raw)
  {
    var t := Trim(raw, PySpace);
    var url := NormalizeUrl(raw);
    if url != t {
      StartsWithConcat(HttpsScheme, t);
      assert url[0] == 'h';
      if t == [] {
        assert url == HttpsScheme;
      } else {
        assert url[|url| - 1] == t[|t| - 1];
      }
    }
    TrimFixed(url, PySpace);
  }

  /** A blank URL is not rejected: it becomes the bare scheme. */
  lemma BlankUrlBecomesScheme(raw: string)
    requires forall k :: 0 <= k < |raw| ==> PySpace(raw[k])
    ensures NormalizeUrl(raw) == HttpsScheme
  {
    assert Trim(raw, PySpace) == [];
    assert HttpsScheme + [] == HttpsScheme;
  }

  /** The scheme test keeps an existing `http://` rather than upgrading it. */
  lemma HttpSchemeKept(rest: string)
    requires rest == [] || !PySpace(rest[|rest| - 1])
    ensures NormalizeUrl(HttpScheme + rest) == HttpScheme + rest
  {
    var url := HttpScheme + rest;
    assert url[|url| - 1] == if rest == [] then '/' else rest[|rest| - 1];
    TrimFixed(url, PySpace);
    StartsWithConcat(HttpScheme, rest);
  }

  /** The scheme test is case-sensitive: `HTTP://` gets `https://` in front of it. */
  lemma UpperCaseSchemePrefixed(rest: string)
    requires rest == [] || !PySpace(rest[|rest| - 1])
    ensures NormalizeUrl("HTTP://" + rest) == HttpsScheme + "HTTP://" + rest
  {
    var url := "HTTP://" + rest;
    assert url[|url| - 1] == if rest == [] then '/' else rest[|rest| - 1];
    TrimFixed(url, PySpace);
    assert url[0] == 'H';
  }

  /**
   * How the call to the scanner ends: it returns the records built from the
   * request's outcome and the handshake's, or it raises an exception other
   * than the `RequestException` it catches itself.
   */
  datatype ScanRun =
    | Completed(fetch: Scanner.Fetch, tls: Scanner.Handshake)
    | Raised(message: string)

  /**
   * `/api/scan`. A falsy body, or one without a `url` key, gives 400. A
   * present `url` is normalised and scanned; a body Python cannot index that
   * way, a `url` that is not a string, or a scanner that raises gives 500.
   */
  function HandleScan(body: Json, run: ScanRun): (r: Response)
    ensures r.code == 400 <==> !Truthy(body) || PyIn("url", body) == Some(false)
    ensures r.code == 400 ==> r.payload == ErrorPayload(UrlRequired)
    ensures r.code == 200 <==>
      body.JObject? && "url" in body.fields && body.fields["url"].JString? && run.Completed?
    ensures r.code == 200 ==>
      var url := NormalizeUrl(body.fields["url"].s);
      r.payload == ScanPayload(url, Scanner.ScanReport(url, run.fetch, run.tls))
    ensures body.JObject? && "url" in body.fields && body.fields["url"].JString? && run.Raised? ==>
      r == Response(500, ErrorPayload(ScanFailedPrefix + run.message))
    ensures r.code in {200, 400, 500}
    ensures r.code == 500 ==> r.payload.ErrorPayload? && StartsWith(r.payload.error, ScanFailedPrefix)
  {
    if !Truthy(body) then Response(400, ErrorPayload(UrlRequired))
    else match PyIn("url", body)
      case None => Response(500, ErrorPayload(ScanFailedPrefix))
      case Some(false) => Response(400, ErrorPayload(UrlRequired))
      case Some(true) =>
        if body.JObject? && body.fields["url"].JString? then
          var url := NormalizeUrl(body.fields["url"].s);
          match run
          case Completed(fetch, tls) => Response(200, ScanPayload(url, Scanner.ScanReport(url, fetch, tls)))
          case Raised(message) =>
            StartsWithConcat(ScanFailedPrefix, message);
            Response(500, ErrorPayload(ScanFailedPrefix + message))
        else Response(500, ErrorPayload(ScanFailedPrefix))
  }

  /** The fields `/api/contact` requires, in the order it checks them. */
  const RequiredFields: seq<string> := ["name", "email", "subject", "message"]

  /** `data.get(field)` is truthy. */
  predicate Present(data: map<string, Json>, field: string)
  {
    field in data && Truthy(data[field])
  }

  /** The index of the first of `fields` from `from` on that is missing or falsy in `data`. */
  function FirstMissing(data: map<string, Json>, fields: seq<string>, from: nat): (r: Option<nat>)
    requires from <= |fields|
    ensures r.Some? ==> from <= r.value < |fields| && !Present(data, fields[r.value])
                        && forall j :: from <= j < r.value ==> Present(data, fields[j])
    ensures r.None? ==> forall j :: from <= j < |fields| ==> Present(data, fields[j])
    decreases |fields| - from
  {
    if from == |fields| then None
    else if !Present(data, fields[from]) then Some(from)
    else FirstMissing(data, fields, from + 1)
  }

  /**
   * `/api/contact`. The first required field that is missing or falsy gives
   * 400 with its title-cased name; when all are present the form is accepted.
   * A body that is not a JSON object has no `get` and gives 500.
   */
  function HandleContact(body: Json): (r: Response)
    ensures r.code == 200 <==> body.JObject? && forall f :: f in RequiredFields ==> Present(body.fields, f)
    ensures r.code == 200 ==> r.payload == ContactPayload(ContactReceived)
    ensures r.code == 400 ==>
      && body.JObject?
      && (exists i :: 0 <= i < |RequiredFields|
           && !Present(body.fields, RequiredFields[i])
           && (forall j :: 0 <= j < i ==> Present(body.fields, RequiredFields[j]))
           && r.payload == ErrorPayload(Title(RequiredFields[i]) + " is required"))
    ensures r.code == 400 <==> body.JObject? && !(forall f :: f in RequiredFields ==> Present(body.fields, f))
    ensures r.code in {200, 400, 500}
    ensures r.code == 500 <==> !body.JObject?
    ensures !body.JObject? ==> r.code == 500 && r.payload.ErrorPayload? && StartsWith(r.payload.error, ContactFailedPrefix)
  {
    match body
    case JObject(data) =>
      (match FirstMissing(data, RequiredFields, 0)
       case Some(i) => Response(400, ErrorPayload(Title(RequiredFields[i]) + " is required"))
       case None => Response(200, ContactPayload(ContactReceived)))
    case _ => Response(500, ErrorPayload(ContactFailedPrefix))
  }

  /** The titles of the required fields: each has its first letter capitalised. */
  const FieldTitles: seq<string> := ["Name", "Email", "Subject", "Message"]

  /** The 400 message for the `i`-th required field names it with a capital letter. */
  lemma RequiredFieldMessage(i: nat)
    requires i < |RequiredFields|
    ensures Title(RequiredFields[i]) == FieldTitles[i]
  {
    var f := RequiredFields[i];
    assert UpperChar(f[0]) == FieldTitles[i][0] && f[1..] == FieldTitles[i][1..];
    assert forall k :: 0 <= k < |f| ==> 'a' <= f[k] <= 'z';
    TitleOfLowerWord(f);
  }
}
