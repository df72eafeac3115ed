/**
 * The builtin HTTP client tool (ezagent/tools/builtins/http/main.py):
 * `http_request` checks the method against an allow-list, decodes the
 * caller's JSON headers, parameters and body, sends the request and
 * reports status, headers and a (truncated) body; `http_read` fetches a
 * page and returns its text. Failures are answered with an
 * `{"error": ...}` object.
 *
 * JSON decoding and the HTTP exchange are parameters: `decode` gives the
 * value or the decoder's error text, `send` the response or the
 * exception's text.
 */
module HttpTool {
  import opened Wrappers
  import opened Strings
  import opened Json
  import HtmlText

  const AllowedMethods: set<string> := {"GET", "POST", "PUT", "PATCH", "DELETE", "HEAD"}

  /** `", ".join(sorted(ALLOWED_METHODS))`. */
  const AllowedList := "DELETE, GET, HEAD, PATCH, POST, PUT"

  const MaxBodyChars := 50000
  const MaxReadChars := 20000

  /** The allowed methods in code-point order. */
  const SortedMethods: seq<string> := ["DELETE", "GET", "HEAD", "PATCH", "POST", "PUT"]

  /** The allow-list text joins every allowed method, in code-point order, as `sorted` leaves them. */
  lemma AllowedListSorted()
    ensures SortedStrings(SortedMethods)
    ensures forall m :: m in SortedMethods <==> m in AllowedMethods
    ensures AllowedList == Join(SortedMethods, ", ")
  {
    SortedMethodsAdjacent();
    forall i, j | 0 <= i < j < |SortedMethods| ensures LexLe(SortedMethods[i], SortedMethods[j]) {
      LexLeChain(SortedMethods, i, j);
    }
    AllowedListJoin();
  }

  lemma SortedMethodsAdjacent()
    ensures forall k :: 0 <= k < |SortedMethods| - 1 ==> LexLe(SortedMethods[k], SortedMethods[k + 1])
  {
    assert LexLe("DELETE", "GET");
    assert LexLe("GET", "HEAD");
    assert LexLe("HEAD", "PATCH");
    assert LexLe("PATCH", "POST") by { assert "PATCH"[1..] == "ATCH"; assert "POST"[1..] == "OST"; }
    assert LexLe("POST", "PUT");
  }

  lemma AllowedListJoin()
    ensures AllowedList == Join(SortedMethods, ", ")
  {
    var m := SortedMethods;
    JoinCons(m[4..], ", ");
    JoinCons(m[3..], ", ");
    JoinCons(m[2..], ", ");
    JoinCons(m[1..], ", ");
    JoinCons(m, ", ");
    var j5 := "PUT";
    assert m[5..] == [j5];
    var j4 := "POST" + ", " + j5;
    var j3 := "PATCH" + ", " + j4;
    var j2 := "HEAD" + ", " + j3;
    var j1 := "GET" + ", " + j2;
    var j0 := "DELETE" + ", " + j1;
    assert j0 == AllowedList;
  }

  lemma JoinCons(parts: seq<string>, sep: string)
    requires |parts| >= 2
    ensures Join(parts, sep) == parts[0] + sep + Join(parts[1..], sep)
  {
  }

  lemma {:induction false} LexLeChain(names: seq<string>, i: nat, j: nat)
    requires i <= j < |names|
    requires forall k :: 0 <= k < |names| - 1 ==> LexLe(names[k], names[k + 1])
    ensures LexLe(names[i], names[j])
    decreases j - i
  {
    if i == j {
      LexLeTotal(names[i], names[i]);
    } else {
      LexLeChain(names, i + 1, j);
      LexLeTransitive(names[i], names[i + 1], names[j]);
    }
  }

  /** The error for a method outside the allow-list; it quotes the method as given. */
  function UnsupportedMethod(verb: string): string {
    "Unsupported method '" + verb + "'. Allowed: " + AllowedList
  }

  /** How the body goes out: not at all, as JSON, or as the raw string. */
  datatype Body = NoBody | JsonBody(value: Json) | RawBody(text: string)

  /** The request `requests.request` is called with. */
  datatype Request = Request(verb: string, url: string, headers: Json, params: Option<Json>, body: Body)

  /** The response: status code, headers in order, and the decoded text. */
  datatype Response = Response(status: int, headers: seq<(string, string)>, text: string)

  /**
   * The body sent: an empty or missing body sends nothing; a body that
   * decodes as JSON is sent as JSON (a decoded `null` sends nothing, since
   * `json=None` is no body); any other body is sent as it is.
   */
  function RequestBody(body: Option<string>, decode: string -> Result<Json, string>): (r: Body)
    ensures body.None? || body == Some("") ==> r == NoBody
    ensures body.Some? && body.value != "" && decode(body.value).Failure? ==> r == RawBody(body.value)
    ensures body.Some? && body.value != "" && decode(body.value).Success? ==>
      r == (if decode(body.value).value.JNull? then NoBody else JsonBody(decode(body.value).value))
  {
    if body.None? || body.value == "" then NoBody
    else match decode(body.value)
      case Failure(_) => RawBody(body.value)
      case Success(j) => if j.JNull? then NoBody else JsonBody(j)
  }

  /**
   * The request `http_request` prepares, or the error that stops it: an
   * unsupported method, then undecodable headers, then undecodable
   * parameters.
   */
  function Prepare(verb: string, url: string, headers: Option<string>, body: Option<string>, params: Option<string>,
                   decode: string -> Result<Json, string>): (r: Result<Request, string>)
    ensures AsciiUpper(verb) !in AllowedMethods ==> r == Failure(UnsupportedMethod(verb))
    ensures r.Success? ==> r.value.verb == AsciiUpper(verb) && r.value.verb in AllowedMethods && r.value.url == url
    ensures r.Success? ==> r.value.body == RequestBody(body, decode)
    ensures r.Success? && (headers.None? || headers == Some("")) ==> r.value.headers == JObj([])
    ensures r.Success? && (params.None? || params == Some("")) ==> r.value.params.None?
    ensures AsciiUpper(verb) in AllowedMethods ==>
      (r.Failure? <==> (headers.Some? && headers.value != "" && decode(headers.value).Failure?)
                       || (params.Some? && params.value != "" && decode(params.value).Failure?))
  {
    var upper := AsciiUpper(verb);
    if upper !in AllowedMethods then Failure(UnsupportedMethod(verb))
    else
      var hs :- if headers.Some? && headers.value != "" then decode(headers.value) else Success(JObj([]));
      var ps :- if params.Some? && params.value != "" then (match decode(params.value)
                                                             case Success(j) => Success(Some(j))
                                                             case Failure(e) => Failure(e))
                else Success(None);
      Success(Request(upper, url, hs, ps, RequestBody(body, decode)))
  }

  /** The value of a header, compared case-insensitively, or "". */
  function HeaderValue(headers: seq<(string, string)>, name: string): string {
    if |headers| == 0 then ""
    else if AsciiLower(headers[0].0) == AsciiLower(name) then headers[0].1
    else HeaderValue(headers[1..], name)
  }

  /**
   * The body reported: the decoded JSON when the content type mentions
   * `application/json` and the text decodes, else the text; a string body
   * longer than 50,000 characters is truncated with the marker.
   */
  function ResponseBody(resp: Response, decode: string -> Result<Json, string>): (r: Json)
    ensures r.JStr? ==> |r.s| <= MaxBodyChars + |HtmlText.TruncatedNote|
    ensures !Contains(HeaderValue(resp.headers, "Content-Type"), "application/json") ==>
      r == JStr(HtmlText.Truncate(resp.text, MaxBodyChars))
    ensures Contains(HeaderValue(resp.headers, "Content-Type"), "application/json") ==>
      r == (if decode(resp.text).Success? then Capped(decode(resp.text).value) else JStr(HtmlText.Truncate(resp.text, MaxBodyChars)))
  {
    var decoded := if Contains(HeaderValue(resp.headers, "Content-Type"), "application/json") then decode(resp.text)
                   else Failure("");
    var b := if decoded.Success? then decoded.value else JStr(resp.text);
    Capped(b)
  }

  /** A string body is truncated to the limit; any other decoded value is reported whole. */
  function Capped(j: Json): (r: Json)
    ensures j.JStr? ==> r.JStr? && r.s == HtmlText.Truncate(j.s, MaxBodyChars)
    ensures !j.JStr? ==> r == j
  {
    if j.JStr? then JStr(HtmlText.Truncate(j.s, MaxBodyChars)) else j
  }

  /**
   * What a body within the limit reports: the decoded value for a JSON
   * response that decodes, the text itself for any other response.
   */
  lemma ShortBodyReportedWhole(resp: Response, decode: string -> Result<Json, string>)
    requires |resp.text| <= MaxBodyChars
    requires forall j :: decode(resp.text) == Success(j) && j.JStr? ==> |j.s| <= MaxBodyChars
    ensures var json := Contains(HeaderValue(resp.headers, "Content-Type"), "application/json");
      ResponseBody(resp, decode) == (if json && decode(resp.text).Success? then decode(resp.text).value else JStr(resp.text))
  {
  }

  function HeaderFields(headers: seq<(string, string)>): (r: seq<Field>)
    ensures |r| == |headers| && forall k :: 0 <= k < |r| ==> r[k] == Field(headers[k].0, JStr(headers[k].1))
  {
    seq(|headers|, k requires 0 <= k < |headers| => Field(headers[k].0, JStr(headers[k].1)))
  }

  /** `{"status_code": ..., "headers": ..., "body": ...}`. */
  function ResponseReply(resp: Response, decode: string -> Result<Json, string>): Json {
    JObj([Field("status_code", JInt(resp.status)), Field("headers", JObj(HeaderFields(resp.headers))),
          Field("body", ResponseBody(resp, decode))])
  }

  /** `http_request`. */
  function HttpRequest(verb: string, url: string, headers: Option<string>, body: Option<string>, params: Option<string>,
                       decode: string -> Result<Json, string>, send: Request -> Result<Response, string>): (r: Json)
    ensures Prepare(verb, url, headers, body, params, decode).Failure? ==>
      r == ErrorObject(Prepare(verb, url, headers, body, params, decode).error)
    ensures Prepare(verb, url, headers, body, params, decode).Success? ==>
      var req := Prepare(verb, url, headers, body, params, decode).value;
      r == (if send(req).Failure? then ErrorObject(send(req).error) else ResponseReply(send(req).value, decode))
  {
    match Prepare(verb, url, headers, body, params, decode)
    case Failure(e) => ErrorObject(e)
    case Success(req) =>
      match send(req)
      case Failure(e) => ErrorObject(e)
      case Success(resp) => ResponseReply(resp, decode)
  }

  /** The method check ignores ASCII case: methods that agree in upper case make the same request. */
  lemma MethodCaseInsensitive(m1: string, m2: string, url: string, headers: Option<string>, body: Option<string>,
                              params: Option<string>, decode: string -> Result<Json, string>,
                              send: Request -> Result<Response, string>)
    requires AsciiUpper(m1) == AsciiUpper(m2) && AsciiUpper(m1) in AllowedMethods
    ensures HttpRequest(m1, url, headers, body, params, decode, send) == HttpRequest(m2, url, headers, body, params, decode, send)
  {
  }

  /** A method outside the list is refused before anything is decoded or sent. */
  lemma UnsupportedNeverSends(verb: string, url: string, headers: Option<string>, body: Option<string>,
                              params: Option<string>, decode: string -> Result<Json, string>,
                              send: Request -> Result<Response, string>)
    requires AsciiUpper(verb) !in AllowedMethods
    ensures HttpRequest(verb, url, headers, body, params, decode, send) == ErrorObject(UnsupportedMethod(verb))
    ensures UnsupportedMethod(verb) == "Unsupported method '" + verb + "'. Allowed: DELETE, GET, HEAD, PATCH, POST, PUT"
  {
    UnsupportedMethodText(verb);
  }

  lemma UnsupportedMethodText(verb: string)
    ensures UnsupportedMethod(verb) == "Unsupported method '" + verb + "'. Allowed: DELETE, GET, HEAD, PATCH, POST, PUT"
  {
    var front := "Unsupported method '" + verb;
    var tail := "'. Allowed: " + AllowedList;
    assert tail == "'. Allowed: DELETE, GET, HEAD, PATCH, POST, PUT";
    assert UnsupportedMethod(verb) == front + tail;
  }

  /** The default header set of `http_read`. */
  function BrowserHeaders(): Json {
    JObj([Field("User-Agent", JStr(HtmlText.BrowserAgent))])
  }

  /** `http_read`: the caller's decoded headers, or the browser User-Agent when none are given. */
  function HttpRead(url: string, headers: Option<string>, decode: string -> Result<Json, string>,
                    fetch: (string, Json) -> Result<string, string>): (r: Json)
    ensures (headers.None? || headers == Some("")) ==> r == HtmlText.ReadReply(url, fetch(url, BrowserHeaders()), MaxReadChars)
    ensures headers.Some? && headers.value != "" && decode(headers.value).Failure? ==>
      r == HtmlText.ReadReply(url, Failure(decode(headers.value).error), MaxReadChars)
    ensures headers.Some? && headers.value != "" && decode(headers.value).Success? ==>
      r == HtmlText.ReadReply(url, fetch(url, decode(headers.value).value), MaxReadChars)
  {
    var hs := if headers.Some? && headers.value != "" then decode(headers.value) else Success(BrowserHeaders());
    match hs
    case Failure(e) => HtmlText.ReadReply(url, Failure(e), MaxReadChars)
    case Success(h) => HtmlText.ReadReply(url, fetch(url, h), MaxReadChars)
  }

  /** An empty header string is falsy, so it reads the page exactly as no header string does. */
  lemma EmptyHeadersAreAbsent(url: string, decode: string -> Result<Json, string>, fetch: (string, Json) -> Result<string, string>)
    ensures HttpRead(url, Some(""), decode, fetch) == HttpRead(url, None, decode, fetch)
    ensures HttpRead(url, None, decode, fetch) == HtmlText.ReadReply(url, fetch(url, BrowserHeaders()), MaxReadChars)
  {
  }
}
