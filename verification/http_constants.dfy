/**
 * The two string-backed enumerations the builder uses for its defaults and
 * convenience setters: `HttpMethod` and `Scheme`. In the source both are
 * `enum …: String`, so each case has a raw value equal to its own name and
 * the enumeration has a failable initialiser from a raw value.
 */
module HttpConstants {
  import opened Wrappers

  /** The four HTTP methods the builder offers. */
  datatype HttpMethod = GET | POST | PUT | DELETE

  /** The two URL schemes the builder offers. */
  datatype Scheme = Http | Https

  /** `HttpMethod.rawValue`: the method's name, a non-empty upper-case token. */
  function MethodRawValue(m: HttpMethod): (r: string)
    ensures |r| > 0
    ensures forall i :: 0 <= i < |r| ==> 'A' <= r[i] <= 'Z'
  {
    match m
    case GET => "GET"
    case POST => "POST"
    case PUT => "PUT"
    case DELETE => "DELETE"
  }

  /** `HttpMethod(rawValue:)`: the case whose raw value is `s`, if any. */
  function MethodFromRawValue(s: string): (r: Option<HttpMethod>)
    ensures r.Some? ==> MethodRawValue(r.value) == s
    ensures r.None? ==> forall m: HttpMethod :: MethodRawValue(m) != s
  {
    if s == "GET" then Some(GET)
    else if s == "POST" then Some(POST)
    else if s == "PUT" then Some(PUT)
    else if s == "DELETE" then Some(DELETE)
    else None
  }

  /** Distinct methods have distinct raw values, and the initialiser inverts `rawValue`. */
  lemma MethodRawValueRoundTrip(m: HttpMethod)
    ensures MethodFromRawValue(MethodRawValue(m)) == Some(m)
    ensures forall m': HttpMethod :: MethodRawValue(m') == MethodRawValue(m) ==> m' == m
  {
  }

  /** `Scheme.rawValue`: the scheme name, a non-empty lower-case word. */
  function SchemeRawValue(s: Scheme): (r: string)
    ensures |r| > 0
    ensures forall i :: 0 <= i < |r| ==> 'a' <= r[i] <= 'z'
  {
    match s
    case Http => "http"
    case Https => "https"
  }

  /** `Scheme(rawValue:)`: the case whose raw value is `s`, if any. */
  function SchemeFromRawValue(s: string): (r: Option<Scheme>)
    ensures r.Some? ==> SchemeRawValue(r.value) == s
    ensures r.None? ==> forall sc: Scheme :: SchemeRawValue(sc) != s
  {
    if s == "http" then Some(Http)
    else if s == "https" then Some(Https)
    else None
  }

  /** Distinct schemes have distinct raw values, and the initialiser inverts `rawValue`. */
  lemma SchemeRawValueRoundTrip(sc: Scheme)
    ensures SchemeFromRawValue(SchemeRawValue(sc)) == Some(sc)
    ensures forall sc': Scheme :: SchemeRawValue(sc') == SchemeRawValue(sc) ==> sc' == sc
  {
  }
}
