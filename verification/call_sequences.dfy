/**
 * Chains of builder calls. A chain is a sequence of `Call`s applied left
 * to right, as in `builder.POST().url(u).setValue(v, for: f)`. The module
 * gives an independent reference definition of a chain's effect — each
 * field holds the value of the last call that touched it — proves the
 * chain equals it, and concludes that only the last write per field
 * matters: any two chains that agree on those build the same request.
 */
module CallSequences {
  import opened Wrappers
  import opened Urls
  import opened Builder
  import C = HttpConstants

  /** One setter call. `GET()`…`DELETE()` are `CallMethod`; `http()`/`https()` are `CallScheme`. */
  datatype Call =
    | CallUrl(u: URL)
    | CallMethod(m: C.HttpMethod)
    | CallScheme(s: string)
    | CallSetValue(value: Option<string>, field: string)

  /** The piece of builder state a call writes. */
  datatype Field = UrlField | MethodField | SchemeField | HeaderField(name: string)

  function FieldOf(c: Call): Field {
    match c
    case CallUrl(_) => UrlField
    case CallMethod(_) => MethodField
    case CallScheme(_) => SchemeField
    case CallSetValue(_, f) => HeaderField(f)
  }

  /** One chained setter call; it writes the field `FieldOf(c)` and leaves every other field alone. */
  function Apply(b: RequestBuilder, c: Call): (r: RequestBuilder)
    ensures FieldOf(c) != UrlField ==> r.url == b.url
    ensures FieldOf(c) != MethodField ==> r.httpMethod == b.httpMethod
    ensures FieldOf(c) != SchemeField ==> r.scheme == b.scheme
    ensures forall k :: FieldOf(c) != HeaderField(k) ==> (k in r.httpHeaders <==> k in b.httpHeaders)
    ensures forall k :: FieldOf(c) != HeaderField(k) && k in b.httpHeaders ==> r.httpHeaders[k] == b.httpHeaders[k]
  {
    match c
    case CallUrl(u) => SetUrl(b, u)
    case CallMethod(m) => Method(b, m)
    case CallScheme(s) => SetScheme(b, s)
    case CallSetValue(v, f) => SetValue(b, v, f)
  }

  /** The builder after the calls of `cs`, in order. */
  function Replay(b: RequestBuilder, cs: seq<Call>): (r: RequestBuilder)
    ensures r.url == (if LastUrl(cs).Some? then LastUrl(cs) else b.url)
    ensures r.scheme == LastScheme(cs).GetOr(b.scheme)
    ensures LastMethod(cs).Some? ==> r.httpMethod == C.MethodRawValue(LastMethod(cs).value)
    ensures LastMethod(cs).None? ==> r.httpMethod == b.httpMethod
    decreases |cs|
  {
    if |cs| == 0 then b else Apply(Replay(b, cs[..|cs| - 1]), cs[|cs| - 1])
  }

  // The last write to each field

  function LastUrl(cs: seq<Call>): Option<URL>
    decreases |cs|
  {
    if |cs| == 0 then None
    else if cs[|cs| - 1].CallUrl? then Some(cs[|cs| - 1].u)
    else LastUrl(cs[..|cs| - 1])
  }

  function LastMethod(cs: seq<Call>): Option<C.HttpMethod>
    decreases |cs|
  {
    if |cs| == 0 then None
    else if cs[|cs| - 1].CallMethod? then Some(cs[|cs| - 1].m)
    else LastMethod(cs[..|cs| - 1])
  }

  function LastScheme(cs: seq<Call>): Option<string>
    decreases |cs|
  {
    if |cs| == 0 then None
    else if cs[|cs| - 1].CallScheme? then Some(cs[|cs| - 1].s)
    else LastScheme(cs[..|cs| - 1])
  }

  /** `Some(v)` when the last write to header `f` assigned `v` (`None` meaning removal); `None` when nothing wrote `f`. */
  function LastHeader(cs: seq<Call>, f: string): Option<Option<string>>
    decreases |cs|
  {
    if |cs| == 0 then None
    else if cs[|cs| - 1].CallSetValue? && cs[|cs| - 1].field == f then Some(cs[|cs| - 1].value)
    else LastHeader(cs[..|cs| - 1], f)
  }

  /** Every header field some call in `cs` writes. */
  function HeaderFieldsWritten(cs: seq<Call>): set<string> {
    set i | 0 <= i < |cs| && cs[i].CallSetValue? :: cs[i].field
  }

  /** The value of header `f` once `cs` has run on headers `h`. */
  function HeaderAfter(h: map<string, string>, cs: seq<Call>, f: string): Option<string> {
    match LastHeader(cs, f)
    case Some(v) => v
    case None => if f in h then Some(h[f]) else None
  }

  /** Reference definition: every field holds its last written value, or its starting value if never written. */
  function Settle(b: RequestBuilder, cs: seq<Call>): RequestBuilder {
    RequestBuilder(
      if LastUrl(cs).Some? then LastUrl(cs) else b.url,
      LastScheme(cs).GetOr(b.scheme),
      match LastMethod(cs) case Some(m) => C.MethodRawValue(m) case None => b.httpMethod,
      map f | f in b.httpHeaders.Keys + HeaderFieldsWritten(cs) && HeaderAfter(b.httpHeaders, cs, f).Some?
        :: HeaderAfter(b.httpHeaders, cs, f).value)
  }

  /** A header field that some call writes is in the written set (and only those). */
  lemma {:induction false} LastHeaderWritten(cs: seq<Call>, f: string)
    ensures LastHeader(cs, f).Some? ==> f in HeaderFieldsWritten(cs)
    decreases |cs|
  {
    if |cs| > 0 && !(cs[|cs| - 1].CallSetValue? && cs[|cs| - 1].field == f) {
      LastHeaderWritten(cs[..|cs| - 1], f);
      if LastHeader(cs, f).Some? {
        var i :| 0 <= i < |cs| - 1 && cs[..|cs| - 1][i].CallSetValue? && cs[..|cs| - 1][i].field == f;
        assert cs[i] == cs[..|cs| - 1][i];
      }
    }
  }

  /** The header map of the reference definition, read field by field. */
  lemma SettleHeaders(b: RequestBuilder, cs: seq<Call>, f: string)
    ensures f in Settle(b, cs).httpHeaders <==> HeaderAfter(b.httpHeaders, cs, f).Some?
    ensures f in Settle(b, cs).httpHeaders ==> Settle(b, cs).httpHeaders[f] == HeaderAfter(b.httpHeaders, cs, f).value
  {
    LastHeaderWritten(cs, f);
  }

  /** Running a chain is the reference definition: the last write to each field wins. */
  lemma {:induction false} ReplayIsSettle(b: RequestBuilder, cs: seq<Call>)
    ensures Replay(b, cs) == Settle(b, cs)
    decreases |cs|
  {
    if |cs| == 0 {
      var s := Settle(b, cs);
      forall f | true
        ensures f in s.httpHeaders <==> f in b.httpHeaders
        ensures f in s.httpHeaders ==> s.httpHeaders[f] == b.httpHeaders[f]
      {
        SettleHeaders(b, cs, f);
      }
      assert s.httpHeaders == b.httpHeaders;
    } else {
      var p := cs[..|cs| - 1];
      var c := cs[|cs| - 1];
      ReplayIsSettle(b, p);
      var before := Settle(b, p);
      var after := Settle(b, cs);
      var got := Apply(before, c);
      forall f | true
        ensures f in got.httpHeaders <==> f in after.httpHeaders
        ensures f in got.httpHeaders ==> got.httpHeaders[f] == after.httpHeaders[f]
      {
        SettleHeaders(b, p, f);
        SettleHeaders(b, cs, f);
      }
      assert got.httpHeaders == after.httpHeaders;
    }
  }

  /** Two chains that end with the same write to every field. */
  ghost predicate SameLastWrites(cs1: seq<Call>, cs2: seq<Call>) {
    && LastUrl(cs1) == LastUrl(cs2)
    && LastMethod(cs1) == LastMethod(cs2)
    && LastScheme(cs1) == LastScheme(cs2)
    && forall f :: LastHeader(cs1, f) == LastHeader(cs2, f)
  }

  /** Any interleaving with the same last write per field leaves the builder in the same state. */
  lemma SameLastWritesSameState(b: RequestBuilder, cs1: seq<Call>, cs2: seq<Call>)
    requires SameLastWrites(cs1, cs2)
    ensures Replay(b, cs1) == Replay(b, cs2)
  {
    ReplayIsSettle(b, cs1);
    ReplayIsSettle(b, cs2);
    var h1 := Settle(b, cs1).httpHeaders;
    var h2 := Settle(b, cs2).httpHeaders;
    forall f | true
      ensures f in h1 <==> f in h2
      ensures f in h1 ==> h1[f] == h2[f]
    {
      SettleHeaders(b, cs1, f);
      SettleHeaders(b, cs2, f);
    }
    assert h1 == h2;
  }

  /** … and hence builds the same request. */
  lemma SameLastWritesSameBuild(b: RequestBuilder, cs1: seq<Call>, cs2: seq<Call>)
    requires SameLastWrites(cs1, cs2)
    requires CanBuild(Replay(b, cs1))
    ensures CanBuild(Replay(b, cs2))
    ensures Build(Replay(b, cs1)) == Build(Replay(b, cs2))
  {
    SameLastWritesSameState(b, cs1, cs2);
  }

  /** Adjacent calls that write different fields can be swapped. */
  lemma ApplyCommutes(b: RequestBuilder, c1: Call, c2: Call)
    requires FieldOf(c1) != FieldOf(c2)
    ensures Apply(Apply(b, c1), c2) == Apply(Apply(b, c2), c1)
  {
    if c1.CallSetValue? && c2.CallSetValue? {
      SetValueCommutes(b, c1.value, c1.field, c2.value, c2.field);
    }
  }

  /** Of two adjacent calls that write the same field, only the second matters. */
  lemma ApplyLastWins(b: RequestBuilder, c1: Call, c2: Call)
    requires FieldOf(c1) == FieldOf(c2)
    ensures Apply(Apply(b, c1), c2) == Apply(b, c2)
  {
    if c1.CallSetValue? {
      SetValueLastWins(b, c1.value, c2.value, c1.field);
    }
  }

  /** Every scheme a chain assigns is one `build` can use. */
  ghost predicate SchemesValid(cs: seq<Call>) {
    forall i :: 0 <= i < |cs| && cs[i].CallScheme? ==> ValidScheme(cs[i].s)
  }

  /** The builder's scheme after a chain is the last scheme assigned, or the starting one. */
  lemma {:induction false} ReplayScheme(b: RequestBuilder, cs: seq<Call>)
    requires ValidScheme(b.scheme) && SchemesValid(cs)
    ensures Replay(b, cs).scheme == LastScheme(cs).GetOr(b.scheme)
    ensures ValidScheme(Replay(b, cs).scheme)
    decreases |cs|
  {
    if |cs| > 0 {
      var p := cs[..|cs| - 1];
      assert SchemesValid(p) by {
        forall i | 0 <= i < |p| && p[i].CallScheme?
          ensures ValidScheme(p[i].s)
        {
          assert p[i] == cs[i];
        }
      }
      ReplayScheme(b, p);
    }
  }

  /**
   * From a fresh builder, `build` returns nothing exactly when no call set a URL;
   * otherwise the request's URL is the last URL set, carrying the last scheme set
   * (or `http`), and its method is the last method set (or `GET`).
   */
  lemma ChainBuild(cs: seq<Call>)
    requires LastUrl(cs).Some? ==> ValidScheme(LastScheme(cs).GetOr("http"))
    ensures CanBuild(Replay(New(), cs))
    ensures Build(Replay(New(), cs)).None? <==> LastUrl(cs).None?
    ensures LastUrl(cs).Some? ==>
      Build(Replay(New(), cs)).value.url == URL(Some(LastScheme(cs).GetOr("http")), LastUrl(cs).value.rest)
    ensures LastUrl(cs).Some? ==>
      Build(Replay(New(), cs)).value.httpMethod == C.MethodRawValue(LastMethod(cs).GetOr(C.GET))
    ensures LastUrl(cs).Some? ==> forall f ::
      (f in Build(Replay(New(), cs)).value.allHTTPHeaderFields <==> LastHeader(cs, f).Some? && LastHeader(cs, f).value.Some?)
    ensures LastUrl(cs).Some? ==> forall f :: f in Build(Replay(New(), cs)).value.allHTTPHeaderFields ==>
      Build(Replay(New(), cs)).value.allHTTPHeaderFields[f] == LastHeader(cs, f).value.value
  {
    ReplayIsSettle(New(), cs);
    forall f | true
      ensures f in Settle(New(), cs).httpHeaders <==> HeaderAfter(map[], cs, f).Some?
      ensures f in Settle(New(), cs).httpHeaders ==> Settle(New(), cs).httpHeaders[f] == HeaderAfter(map[], cs, f).value
    {
      SettleHeaders(New(), cs, f);
    }
  }
}
