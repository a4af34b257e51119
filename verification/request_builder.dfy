/**
 * The request builder: a record of four fields (optional URL, scheme,
 * HTTP method, header map), chained setters that each return an updated
 * record, and `Build`, which turns the record into a request or into
 * `None` when no URL was set.
 */
module Builder {
  import opened Wrappers
  import opened Urls
  import C = HttpConstants

  /** The builder's working state. */
  datatype RequestBuilder = RequestBuilder(
    url: Option<URL>,
    scheme: string,
    httpMethod: string,
    httpHeaders: map<string, string>)

  /** The finished request: its URL, method and header fields. */
  datatype Request = Request(
    url: URL,
    httpMethod: string,
    allHTTPHeaderFields: map<string, string>)

  /** A fresh builder: no URL, scheme `http`, method `GET`, no headers. */
  function New(): (b: RequestBuilder)
    ensures b.url.None?
    ensures b.scheme == C.SchemeRawValue(C.Http)
    ensures b.httpMethod == C.MethodRawValue(C.GET)
    ensures |b.httpHeaders| == 0
  {
    RequestBuilder(None, "http", "GET", map[])
  }

  // URL

  /** `url(_:)`: stores `u` as the URL; nothing else changes. */
  function SetUrl(b: RequestBuilder, u: URL): (r: RequestBuilder)
    ensures r.url == Some(u)
    ensures r.(url := b.url) == b
  {
    b.(url := Some(u))
  }

  // HTTP method

  /** The private `method(_:)` helper: stores the method's raw value; nothing else changes. */
  function Method(b: RequestBuilder, m: C.HttpMethod): (r: RequestBuilder)
    ensures C.MethodFromRawValue(r.httpMethod) == Some(m)
    ensures r.(httpMethod := b.httpMethod) == b
  {
    C.MethodRawValueRoundTrip(m);
    b.(httpMethod := C.MethodRawValue(m))
  }

  function Get(b: RequestBuilder): (r: RequestBuilder)
    ensures r.httpMethod == "GET"
    ensures r.(httpMethod := b.httpMethod) == b
  {
    Method(b, C.GET)
  }

  function Post(b: RequestBuilder): (r: RequestBuilder)
    ensures r.httpMethod == "POST"
    ensures r.(httpMethod := b.httpMethod) == b
  {
    Method(b, C.POST)
  }

  function Put(b: RequestBuilder): (r: RequestBuilder)
    ensures r.httpMethod == "PUT"
    ensures r.(httpMethod := b.httpMethod) == b
  {
    Method(b, C.PUT)
  }

  function Delete(b: RequestBuilder): (r: RequestBuilder)
    ensures r.httpMethod == "DELETE"
    ensures r.(httpMethod := b.httpMethod) == b
  {
    Method(b, C.DELETE)
  }

  // URL scheme

  /** `scheme(_:)`: stores any string as the scheme, unchecked; nothing else changes. */
  function SetScheme(b: RequestBuilder, s: string): (r: RequestBuilder)
    ensures r.scheme == s
    ensures r.(scheme := b.scheme) == b
  {
    b.(scheme := s)
  }

  function Http(b: RequestBuilder): (r: RequestBuilder)
    ensures C.SchemeFromRawValue(r.scheme) == Some(C.Http)
    ensures r.(scheme := b.scheme) == b
  {
    SetScheme(b, C.SchemeRawValue(C.Http))
  }

  function Https(b: RequestBuilder): (r: RequestBuilder)
    ensures C.SchemeFromRawValue(r.scheme) == Some(C.Https)
    ensures r.(scheme := b.scheme) == b
  {
    SetScheme(b, C.SchemeRawValue(C.Https))
  }

  // HTTP headers

  /**
   * `setValue(_:for:)`: dictionary subscript assignment. A value replaces
   * whatever the field held (no joining); `None` removes the field. Every
   * other field, and every other part of the builder, is left alone.
   */
  function SetValue(b: RequestBuilder, value: Option<string>, field: string): (r: RequestBuilder)
    ensures value.Some? ==> field in r.httpHeaders && r.httpHeaders[field] == value.value
    ensures value.None? ==> field !in r.httpHeaders
    ensures forall k :: k != field ==> (k in r.httpHeaders <==> k in b.httpHeaders)
    ensures forall k :: k != field && k in b.httpHeaders ==> r.httpHeaders[k] == b.httpHeaders[k]
    ensures r.(httpHeaders := b.httpHeaders) == b
  {
    match value
    case Some(v) => b.(httpHeaders := b.httpHeaders[field := v])
    case None => b.(httpHeaders := b.httpHeaders - {field})
  }

  // Build

  /** The trap in `build` (assigning an unusable scheme) cannot happen for this builder. */
  predicate CanBuild(b: RequestBuilder) {
    b.url.Some? ==> ValidScheme(b.scheme)
  }

  /**
   * `build()`: `None` exactly when no URL was set; otherwise the stored URL
   * with its scheme replaced by the builder's scheme, and the builder's
   * method and headers copied over. The builder itself is not consumed.
   */
  function Build(b: RequestBuilder): (r: Option<Request>)
    requires CanBuild(b)
    ensures r.None? <==> b.url.None?
    ensures r.Some? ==> r.value.url.scheme == Some(b.scheme)
    ensures r.Some? ==> r.value.url.rest == b.url.value.rest
    ensures r.Some? ==> r.value.httpMethod == b.httpMethod
    ensures r.Some? ==> r.value.allHTTPHeaderFields == b.httpHeaders
  {
    match b.url
    case None => None
    case Some(u) => Some(Request(ReplacingScheme(u, b.scheme), b.httpMethod, b.httpHeaders))
  }

  // Properties of the setters and of Build

  /** Building a fresh builder given only a URL yields a GET over `http` with no headers. */
  lemma FreshBuild(u: URL)
    ensures CanBuild(SetUrl(New(), u))
    ensures Build(SetUrl(New(), u)) == Some(Request(URL(Some("http"), u.rest), "GET", map[]))
  {
  }

  /** Only the non-scheme part of the supplied URL reaches the request. */
  lemma BuildIgnoresSuppliedScheme(b: RequestBuilder, u1: URL, u2: URL)
    requires ValidScheme(b.scheme)
    requires u1.rest == u2.rest
    ensures Build(SetUrl(b, u1)) == Build(SetUrl(b, u2))
  {
  }

  /** Feeding the built request's URL back into the builder rebuilds the same request. */
  lemma RebuildIsFixedPoint(b: RequestBuilder)
    requires CanBuild(b) && b.url.Some?
    ensures CanBuild(SetUrl(b, Build(b).value.url))
    ensures Build(SetUrl(b, Build(b).value.url)) == Build(b)
  {
  }

  /** Last call wins for the URL. */
  lemma SetUrlLastWins(b: RequestBuilder, u1: URL, u2: URL)
    ensures SetUrl(SetUrl(b, u1), u2) == SetUrl(b, u2)
  {
  }

  /** Last call wins for the method: `POST().GET()` is `GET()`, and so on. */
  lemma MethodLastWins(b: RequestBuilder, m1: C.HttpMethod, m2: C.HttpMethod)
    ensures Method(Method(b, m1), m2) == Method(b, m2)
  {
  }

  /** Last call wins for the scheme: `https().http()` is `http()`, and so on. */
  lemma SchemeLastWins(b: RequestBuilder, s1: string, s2: string)
    ensures SetScheme(SetScheme(b, s1), s2) == SetScheme(b, s2)
  {
  }

  /** Last call wins per header field: a second value replaces the first rather than joining it. */
  lemma SetValueLastWins(b: RequestBuilder, v1: Option<string>, v2: Option<string>, f: string)
    ensures SetValue(SetValue(b, v1, f), v2, f) == SetValue(b, v2, f)
  {
    var once := SetValue(b, v2, f).httpHeaders;
    var twice := SetValue(SetValue(b, v1, f), v2, f).httpHeaders;
    assert once.Keys == twice.Keys;
  }

  /** Header assignments to different fields commute. */
  lemma SetValueCommutes(b: RequestBuilder, v1: Option<string>, f1: string, v2: Option<string>, f2: string)
    requires f1 != f2
    ensures SetValue(SetValue(b, v1, f1), v2, f2) == SetValue(SetValue(b, v2, f2), v1, f1)
  {
    var left := SetValue(SetValue(b, v1, f1), v2, f2).httpHeaders;
    var right := SetValue(SetValue(b, v2, f2), v1, f1).httpHeaders;
    assert left.Keys == right.Keys;
  }

  /** Removing a field that is not there changes nothing. */
  lemma RemoveAbsentHeader(b: RequestBuilder, f: string)
    requires f !in b.httpHeaders
    ensures SetValue(b, None, f) == b
  {
  }

  // The scenarios of Tests/RequestBuilderTests/RequestBuilderTests.swift, with "http://apple.com" as URL("http", "//apple.com")

  /** `url(u).build()` equals `URLRequest(url: u)`: method GET, no header fields. */
  lemma ScenarioGet()
    ensures Build(SetUrl(New(), URL(Some("http"), "//apple.com")))
         == Some(Request(URL(Some("http"), "//apple.com"), "GET", map[]))
  {
  }

  /** `POST().url(u).build()`: the same request with method POST. */
  lemma ScenarioPost()
    ensures Build(SetUrl(Post(New()), URL(Some("http"), "//apple.com")))
         == Some(Request(URL(Some("http"), "//apple.com"), "POST", map[]))
  {
  }

  /** `PUT().url(u).setValue("Some token", for: "Authorization").build()`. */
  lemma ScenarioPutAndHeaders()
    ensures Build(SetValue(SetUrl(Put(New()), URL(Some("http"), "//apple.com")), Some("Some token"), "Authorization"))
         == Some(Request(URL(Some("http"), "//apple.com"), "PUT", map["Authorization" := "Some token"]))
  {
  }
}
