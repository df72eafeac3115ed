/**
 * The builtin web-search tool (ezagent/tools/builtins/web_search/main.py):
 * a search provider chosen by name from a registry holding only Brave, a
 * search that asks for at most 20 results and returns at most the number
 * requested, and page reading through the shared HTML-to-text conversion.
 * Both tools answer failures with an `{"error": ...}` object instead of
 * raising.
 *
 * The HTTP exchange with the search API and with pages is a parameter:
 * it yields the decoded response, or the text of the exception raised.
 */
module WebSearchTool {
  import opened Wrappers
  import opened Strings
  import opened Json
  import HtmlText

  const ProviderVar := "WEB_SEARCH_PROVIDER"
  const DefaultProvider := "brave"
  const ApiKeyVar := "BRAVE_SEARCH_API_KEY"
  const MaxRequested := 20
  const MaxPageChars := 20000

  /** The registered provider names. */
  const Registered: seq<string> := ["brave"]

  /** A constructed provider. */
  datatype SearchProvider = Brave(apiKey: string)

  const MissingApiKey := "BRAVE_SEARCH_API_KEY environment variable is not set. Get a free API key at https://brave.com/search/api/"

  function UnknownProvider(name: string): string {
    "Unknown web search provider '" + name + "'. Available: " + Join(SortStrings(Registered), ", ")
  }

  /** The error names the one registered provider. */
  lemma UnknownProviderNamesBrave(name: string)
    ensures UnknownProvider(name) == "Unknown web search provider '" + name + "'. Available: brave"
  {
    assert SortStrings(Registered) == ["brave"];
  }

  /** `os.environ.get("WEB_SEARCH_PROVIDER", "brave").lower()`. */
  function ProviderName(env: map<string, string>): string {
    AsciiLower(if ProviderVar in env then env[ProviderVar] else DefaultProvider)
  }

  /**
   * `_get_provider`: the cached instance if there is one; otherwise the
   * provider named in the environment, which for Brave needs a non-empty
   * API key. A failure leaves the cache empty.
   */
  function GetProvider(cached: Option<SearchProvider>, env: map<string, string>): (r: Result<SearchProvider, string>)
    ensures cached.Some? ==> r == Success(cached.value)
    ensures cached.None? && ProviderName(env) !in Registered ==> r == Failure(UnknownProvider(ProviderName(env)))
    ensures cached.None? && ProviderName(env) in Registered ==>
      (r.Success? <==> ApiKeyVar in env && env[ApiKeyVar] != "")
    ensures cached.None? && r.Success? ==> r.value == Brave(env[ApiKeyVar])
  {
    if cached.Some? then Success(cached.value)
    else
      var name := ProviderName(env);
      if name != "brave" then Failure(UnknownProvider(name))
      else if ApiKeyVar !in env || env[ApiKeyVar] == "" then Failure(MissingApiKey)
      else Success(Brave(env[ApiKeyVar]))
  }

  /** The search request sent: the query, the count capped at 20, and the subscription token. */
  datatype SearchRequest = SearchRequest(query: string, count: int, token: string)

  function Min(a: int, b: int): int {
    if a <= b then a else b
  }

  /** Python's `xs[:n]`, where a negative `n` counts from the end. */
  function SliceTo<T>(xs: seq<T>, n: int): (r: seq<T>)
    ensures r <= xs
    ensures n >= 0 ==> |r| == Min(n, |xs|)
    ensures n < 0 ==> |r| == (if |xs| + n > 0 then |xs| + n else 0)
  {
    if n >= 0 then (if n < |xs| then xs[..n] else xs)
    else if |xs| + n > 0 then xs[..|xs| + n] else []
  }

  /** `d.get(key, "")`. */
  function FieldOr(item: Json, key: string): Json
    requires item.JObj?
  {
    GetOr(item, key, JStr(""))
  }

  /** One result as the tool reports it: title, url, and the description as the snippet. */
  function ResultItem(item: Json): Json
    requires item.JObj?
  {
    JObj([Field("title", FieldOr(item, "title")), Field("url", FieldOr(item, "url")),
          Field("snippet", FieldOr(item, "description"))])
  }

  /** Python's `for x in v`: a list's items, a dict's keys, a string's characters; anything else raises. */
  function Iterate(v: Json): (r: Result<seq<Json>, string>)
    ensures r.Failure? <==> v.JNull? || v.JBool? || v.JInt?
    ensures v.JArr? ==> r == Success(v.items)
  {
    match v
    case JArr(items) => Success(items)
    case JObj(fields) => Success(seq(|fields|, k requires 0 <= k < |fields| => JStr(fields[k].key)))
    case JStr(s) => Success(seq(|s|, k requires 0 <= k < |s| => JStr([s[k]])))
    case _ => Failure("'" + TypeName(v) + "' object is not iterable")
  }

  function NoGet(v: Json): string {
    "'" + TypeName(v) + "' object has no attribute 'get'"
  }

  /** The items mapped in order, or the error of the first one that is not a mapping. */
  function ResultItems(items: seq<Json>): (r: Result<seq<Json>, string>)
    ensures r.Success? <==> forall k :: 0 <= k < |items| ==> items[k].JObj?
    ensures r.Success? ==> |r.value| == |items| && forall k :: 0 <= k < |items| ==> r.value[k] == ResultItem(items[k])
  {
    if |items| == 0 then Success([])
    else if !items[0].JObj? then Failure(NoGet(items[0]))
    else
      match ResultItems(items[1..])
      case Failure(e) => Failure(e)
      case Success(rest) =>
        assert forall k :: 1 <= k < |items| ==> items[k] == items[1..][k - 1];
        Success([ResultItem(items[0])] + rest)
  }

  /** `data.get("web", {}).get("results", [])` mapped to result items, then cut to `count`. */
  function ParseResults(data: Json, count: int): (r: Result<seq<Json>, string>)
    ensures r.Success? ==> count >= 0 ==> |r.value| <= count
    ensures data.JObj? && Get(data, "web").None? ==> r == Success([])
  {
    if !data.JObj? then Failure(NoGet(data))
    else
      var web := GetOr(data, "web", JObj([]));
      if !web.JObj? then Failure(NoGet(web))
      else
        var items :- Iterate(GetOr(web, "results", JArr([])));
        var results :- ResultItems(items);
        Success(SliceTo(results, count))
  }

  /** The Brave response's result list, when well formed, comes back item for item up to `count`. */
  lemma ParseWellFormed(data: Json, items: seq<Json>, count: int)
    requires data.JObj? && Get(data, "web").Some? && Get(data, "web").value.JObj?
    requires Get(Get(data, "web").value, "results") == Some(JArr(items))
    requires forall k :: 0 <= k < |items| ==> items[k].JObj?
    requires 0 <= count
    ensures ParseResults(data, count).Success?
    ensures var rs := ParseResults(data, count).value;
      |rs| == Min(count, |items|) && forall k :: 0 <= k < |rs| ==> rs[k] == ResultItem(items[k])
  {
  }

  /** `{"results": results, "count": len(results)}`. */
  function ResultsReply(results: seq<Json>): Json {
    JObj([Field("results", JArr(results)), Field("count", JInt(|results|))])
  }

  /**
   * `web_search`, returning the provider cache afterwards and the reply;
   * `api` answers a search request with the decoded response or the
   * exception's text.
   */
  function WebSearch(cached: Option<SearchProvider>, env: map<string, string>, query: string, count: int,
                     api: SearchRequest -> Result<Json, string>): (r: (Option<SearchProvider>, Json))
    ensures GetProvider(cached, env).Failure? ==> r == (cached, ErrorObject(GetProvider(cached, env).error))
    ensures GetProvider(cached, env).Success? ==> r.0 == Some(GetProvider(cached, env).value)
    ensures GetProvider(cached, env).Success? ==>
      var req := SearchRequest(query, Min(count, MaxRequested), GetProvider(cached, env).value.apiKey);
      (api(req).Failure? ==> r.1 == ErrorObject(api(req).error))
      && (api(req).Success? && ParseResults(api(req).value, count).Failure? ==>
            r.1 == ErrorObject(ParseResults(api(req).value, count).error))
      && (api(req).Success? && ParseResults(api(req).value, count).Success? ==>
            r.1 == ResultsReply(ParseResults(api(req).value, count).value))
  {
    match GetProvider(cached, env)
    case Failure(e) => (cached, ErrorObject(e))
    case Success(p) =>
      var req := SearchRequest(query, Min(count, MaxRequested), p.apiKey);
      var reply :=
        match api(req)
        case Failure(e) => ErrorObject(e)
        case Success(data) =>
          match ParseResults(data, count)
          case Failure(e) => ErrorObject(e)
          case Success(results) => ResultsReply(results);
      (Some(p), reply)
  }

  /** A successful search reports at most the requested number of results, and its count is their number. */
  lemma WebSearchCount(cached: Option<SearchProvider>, env: map<string, string>, query: string, count: int,
                       api: SearchRequest -> Result<Json, string>)
    requires count >= 0
    ensures var reply := WebSearch(cached, env, query, count, api).1;
      reply.JObj? && (Lookup(reply.fields, "error").None? ==>
        exists results :: reply == ResultsReply(results) && |results| <= count)
  {
    var reply := WebSearch(cached, env, query, count, api).1;
    match GetProvider(cached, env)
    case Failure(e) =>
    case Success(p) =>
      var req := SearchRequest(query, Min(count, MaxRequested), p.apiKey);
      if api(req).Success? && ParseResults(api(req).value, count).Success? {
        var results := ParseResults(api(req).value, count).value;
        assert reply == ResultsReply(results);
      } else {
        assert reply.fields == [Field("error", JStr(reply.fields[0].value.s))];
      }
  }

  /** `web_search_read`, given the page fetch's outcome for the url with the browser User-Agent. */
  function WebSearchRead(url: string, fetch: (string, Json) -> Result<string, string>): (r: Json)
    ensures var page := fetch(url, JObj([Field("User-Agent", JStr(HtmlText.BrowserAgent))]));
      r == HtmlText.ReadReply(url, page, MaxPageChars)
  {
    HtmlText.ReadReply(url, fetch(url, JObj([Field("User-Agent", JStr(HtmlText.BrowserAgent))])), MaxPageChars)
  }
}
