/** The PDF download route (app/api/download/route.ts): request validation,
    the attachment file name and the response. Reading the body is a
    parameter `body` (its error is the parse error's message) and
    `renderToBuffer` is a parameter `render` that answers the thrown
    message on failure. */
module DownloadRoute {
  import opened Wrappers
  import opened Strings
  import opened Json

  const InvalidData: string := "Invalid result data"
  const Suffix: string := "-personas.pdf"
  /** The TypeError messages of `productName.replace` on a missing
      property and on a value that is not a string. */
  const ReadUndefined: string := "Cannot read properties of undefined (reading 'replace')"
  const NotAFunction: string := "result.productName.replace is not a function"

  /** The value of `value.length`, None standing for `undefined`: an
      array's item count, a string's UTF-16 length, an object's own
      "length" member; a boolean or a number has none. */
  function Length(j: Json): (r: Option<Json>)
    ensures j.JArray? ==> r == Some(JNumber(|j.items| as real))
    ensures j.JString? ==> r == Some(JNumber(JsLength(j.s) as real))
    ensures j.JObject? ==> r == Member(j, "length")
    ensures j.JNull? || j.JBool? || j.JNumber? ==> r.None?
  {
    match j
    case JArray(items) => Some(JNumber(|items| as real))
    case JString(s) => Some(JNumber(JsLength(s) as real))
    case JObject(_) => Member(j, "length")
    case _ => None
  }

  /** `!result || !result.personas || result.personas.length === 0`; the
      strict comparison holds only for the number 0. */
  predicate Invalid(result: Json) {
    || !Truthy(result)
    || Member(result, "personas").None?
    || !Truthy(Member(result, "personas").value)
    || Length(Member(result, "personas").value) == Some(JNumber(0.0))
  }

  /** The body is refused exactly when `personas` is missing or falsy, or
      its length is 0: an empty array, an empty string, or an object whose
      "length" member is the number 0. */
  lemma InvalidCases(result: Json)
    ensures result.JObject? && "personas" in result.fields && result.fields["personas"] == JArray([]) ==> Invalid(result)
    ensures result.JObject? && "personas" in result.fields && result.fields["personas"].JArray?
            ==> (Invalid(result) <==> result.fields["personas"].items == [])
    ensures result.JObject? && "personas" in result.fields && result.fields["personas"].JString?
            ==> (Invalid(result) <==> result.fields["personas"].s == "")
    ensures result.JObject? && "personas" in result.fields && result.fields["personas"].JObject?
            ==> (Invalid(result) <==> Member(result.fields["personas"], "length") == Some(JNumber(0.0)))
    ensures result.JObject? && "personas" in result.fields && result.fields["personas"].JNumber?
            ==> (Invalid(result) <==> result.fields["personas"].n == 0.0)
    ensures result.JObject? && "personas" !in result.fields ==> Invalid(result)
    ensures !result.JObject? ==> Invalid(result)
  {
    if result.JObject? && "personas" in result.fields && result.fields["personas"].JString? {
      var t := result.fields["personas"].s;
      if t != "" {
        JsLengthPositive(t);
      }
    }
  }

  /** A body whose `personas` is an object with a zero "length" is refused,
      like an empty list. */
  lemma ZeroLengthObjectRefused()
    ensures Invalid(JObject(map["personas" := JObject(map["length" := JNumber(0.0)])]))
    ensures !Invalid(JObject(map["personas" := JObject(map["length" := JNumber(2.0)])]))
    ensures !Invalid(JObject(map["personas" := JObject(map[])]))
  {
  }

  lemma JsLengthPositive(s: string)
    requires s != ""
    ensures JsLength(s) > 0
  {
  }

  /** How many UTF-16 code units a character takes. */
  function CodeUnits(c: char): nat {
    if c as int >= 0x1_0000 then 2 else 1
  }

  /** `s.length` in JavaScript: the UTF-16 length. */
  function JsLength(s: string): nat
    decreases |s|
  {
    if |s| == 0 then 0 else JsLength(s[..|s| - 1]) + CodeUnits(s[|s| - 1])
  }

  predicate IsFilenameChar(c: char) {
    IsAsciiAlnum(c) || c == '-' || c == '.'
  }

  /** `s.replace(/[^a-zA-Z0-9]/g, "-")`: the pattern has no `u` flag, so a
      character outside the Basic Multilingual Plane is two code units and
      becomes two dashes. */
  function Sanitize(s: string): (r: string)
    ensures |r| == JsLength(s)
    ensures forall i :: 0 <= i < |r| ==> IsAsciiAlnum(r[i]) || r[i] == '-'
    decreases |s|
  {
    if |s| == 0 then ""
    else
      var c := s[|s| - 1];
      Sanitize(s[..|s| - 1]) + (if IsAsciiAlnum(c) then [c] else if CodeUnits(c) == 2 then "--" else "-")
  }

  /** Each character is replaced on its own: a letter or digit stays, any
      other character of the Basic Multilingual Plane becomes one dash and
      a character beyond it two. */
  lemma SanitizeChar(c: char)
    ensures IsAsciiAlnum(c) ==> Sanitize([c]) == [c]
    ensures !IsAsciiAlnum(c) && c as int < 0x1_0000 ==> Sanitize([c]) == "-"
    ensures !IsAsciiAlnum(c) && c as int >= 0x1_0000 ==> Sanitize([c]) == "--"
  {
    assert [c][..0] == [];
  }

  /** The replacement works piece by piece. */
  lemma {:induction false} SanitizeAppend(a: string, b: string)
    ensures Sanitize(a + b) == Sanitize(a) + Sanitize(b)
    decreases |b|
  {
    if |b| == 0 {
      assert a + b == a;
    } else {
      var b' := b[..|b| - 1];
      var ab := a + b;
      assert ab[..|ab| - 1] == a + b';
      assert ab[|ab| - 1] == b[|b| - 1];
      SanitizeAppend(a, b');
    }
  }

  /** Sanitizing twice changes nothing more. */
  lemma SanitizeIdempotent(s: string)
    ensures Sanitize(Sanitize(s)) == Sanitize(s)
  {
    var r := Sanitize(s);
    assert forall i :: 0 <= i < |r| ==> IsAsciiAlnum(r[i]) || r[i] == '-';
    SanitizeDashes(r);
  }

  /** Text already made of letters, digits and dashes is left as it is. */
  lemma {:induction false} SanitizeDashes(s: string)
    requires forall i :: 0 <= i < |s| ==> IsAsciiAlnum(s[i]) || s[i] == '-'
    ensures Sanitize(s) == s
    decreases |s|
  {
    if |s| > 0 {
      SanitizeDashes(s[..|s| - 1]);
    }
  }

  /** The attachment name, shared with the page's download link. */
  function PdfFilename(productName: string): (r: string)
    ensures |r| == JsLength(productName) + 13
    ensures EndsWith(r, Suffix)
    ensures forall i :: 0 <= i < |r| ==> IsFilenameChar(r[i])
    ensures r == Sanitize(productName) + Suffix
  {
    var r := Sanitize(productName) + Suffix;
    assert r[|r| - |Suffix|..] == Suffix;
    r
  }

  datatype Response =
    | JsonError(status: nat, error: string)
    | Pdf(status: nat, headers: seq<(string, string)>, body: seq<bv8>)

  /** The headers of a successful download. */
  function PdfHeaders(filename: string, size: nat): seq<(string, string)> {
    [("Content-Type", "application/pdf"),
     ("Content-Disposition", "attachment; filename=\"" + filename + "\""),
     ("Content-Length", NatToString(size))]
  }

  /** `POST`: invalid data is refused with 400; a thrown error (unreadable
      body, failed rendering, a product name without `replace`) gives 500
      with its message; otherwise the rendered bytes as an attachment. */
  function Post(body: Result<Json, string>, render: Json -> Result<seq<bv8>, string>): (r: Response)
    ensures body.Err? ==> r == JsonError(500, body.error)
    ensures body.Ok? && Invalid(body.value) ==> r == JsonError(400, InvalidData)
    ensures body.Ok? && !Invalid(body.value) && render(body.value).Err? ==> r == JsonError(500, render(body.value).error)
    ensures r.Pdf? <==>
      && body.Ok? && !Invalid(body.value) && render(body.value).Ok?
      && Member(body.value, "productName").Some? && Member(body.value, "productName").value.JString?
    ensures r.Pdf? ==>
      var name := Member(body.value, "productName").value.s;
      && r.status == 200
      && r.body == render(body.value).value
      && r.headers == PdfHeaders(PdfFilename(name), |render(body.value).value|)
    ensures r.JsonError? ==> r.status == 400 || r.status == 500
  {
    match body
    case Err(m) => JsonError(500, m)
    case Ok(result) =>
      if Invalid(result) then JsonError(400, InvalidData)
      else match render(result)
        case Err(m) => JsonError(500, m)
        case Ok(bytes) =>
          match Member(result, "productName")
          case None => JsonError(500, ReadUndefined)
          case Some(JString(name)) => Pdf(200, PdfHeaders(PdfFilename(name), |bytes|), bytes)
          case Some(_) => JsonError(500, NotAFunction)
  }

  /** The Content-Length header reads back as the number of bytes sent. */
  lemma ContentLengthMatches(body: Result<Json, string>, render: Json -> Result<seq<bv8>, string>)
    requires Post(body, render).Pdf?
    ensures var r := Post(body, render);
      |r.headers| == 3 && r.headers[2].0 == "Content-Length" && DigitsValue(r.headers[2].1) == |r.body|
  {
    var r := Post(body, render);
    NatToStringValue(|r.body|);
  }
}
