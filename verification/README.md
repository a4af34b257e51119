# RequestBuilder, modelled in Dafny

A model of the `RequestBuilder` class of BuildIt (`Sources/RequestBuilder.swift`),
a fluent builder for `URLRequest`s. The builder holds four fields — an optional URL,
a scheme string (default `"http"`), an HTTP method string (default `"GET"`) and a
header dictionary — which chained setters overwrite. `build()` returns `nil` when no
URL was set and otherwise a request whose URL is the stored URL with its scheme replaced
by the builder's scheme, carrying the builder's method and headers.

Modules:

- `Wrappers` — `Option`, Swift's optional.
- `HttpConstants` — the `HttpMethod` and `Scheme` string enumerations, their raw values
  and their failable raw-value initialisers.
- `Urls` — an abstract `URL`: a scheme (absent for a relative reference) and an opaque
  remainder. `ReplacingScheme` stands for the `URLComponents` round trip in `build`.
  `ValidScheme` is the scheme grammar of section 3.1 of RFC 3986.
- `Builder` — the builder as an immutable record. Every setter is a pure function that
  returns the updated record. `Build` returns `Option<Request>`. It also holds the
  last-write-wins and commutation lemmas, plus the three usage scenarios of
  Tests/RequestBuilderTests/RequestBuilderTests.swift.
- `CallSequences` — chains of setter calls. `Replay` applies a chain. `Settle` is an
  independent reference definition: every field holds the value of the last call that
  wrote it. `ReplayIsSettle` proves they agree, by induction on the chain. From this,
  any two chains with the same last write per field give the same builder and the same
  built request.

`Build` is a function of the builder value and returns no new builder. So building
twice in a row gives equal results by construction, and the builder can be built
again after a build.

A later version of the library is exercised by Tests/BuilditTests/RequestBuilderTests.swift.
It differs from Sources/RequestBuilder.swift in two places, and this model follows
Sources/RequestBuilder.swift in both:

- That later version defaults to `https` (Tests/BuilditTests/RequestBuilderTests.swift:41-52).
  Here the default scheme is `"http"`.
- That later version comma-joins repeated headers (Tests/BuilditTests/RequestBuilderTests.swift:201-216).
  Here `setValue(_:for:)` overwrites the header, or removes it when given `nil`.

That later version also has host, path, query, body and JSON-configuration operations.
They are not in Sources/RequestBuilder.swift and are not part of this model.

## Model

| member | source | states |
|---|---|---|
| `HttpConstants.MethodRawValue` | Sources/RequestBuilder.swift:7-9 | each method's raw value is its non-empty upper-case name |
| `HttpConstants.SchemeRawValue` | Sources/RequestBuilder.swift:12-14 | each scheme's raw value is its non-empty lower-case name |
| `HttpConstants.MethodFromRawValue` | Sources/RequestBuilder.swift:7-9 | the raw-value initialiser returns a method only when its raw value is the given string, and returns none only when no method has that raw value |
| `HttpConstants.MethodRawValueRoundTrip` | Sources/RequestBuilder.swift:7-9 | raw values of `HttpMethod` are distinct, and the initialiser inverts `rawValue` |
| `HttpConstants.SchemeFromRawValue` | Sources/RequestBuilder.swift:12-14 | the raw-value initialiser returns a scheme only when its raw value is the given string, and returns none only when no scheme has that raw value |
| `HttpConstants.SchemeRawValueRoundTrip` | Sources/RequestBuilder.swift:12-14 | raw values of `Scheme` are distinct, and the initialiser inverts `rawValue` |
| `Urls.BuiltInSchemesValid` | Sources/RequestBuilder.swift:12-14 | both offered schemes, `http` and `https`, are valid schemes, so `http()`/`https()` never make `build` trap |
| `Urls.ReplacingScheme` | Sources/RequestBuilder.swift:131-132 | the recomposed URL carries exactly the assigned scheme and the original non-scheme part; assigning an invalid scheme is excluded, because it traps |
| `Urls.ReplacingSchemeLastWins` | Sources/RequestBuilder.swift:131-132 | replacing the scheme twice equals replacing it once with the second scheme |
| `Urls.ReplacingSchemeFixedPoint` | Sources/RequestBuilder.swift:131-132 | replacing the scheme leaves the URL unchanged exactly when the URL already had that scheme |
| `Builder.New` | Sources/RequestBuilder.swift:27-37 | a fresh builder has no URL, scheme `Scheme.http`'s raw value, method `HttpMethod.GET`'s raw value, and no headers |
| `Builder.SetUrl` | Sources/RequestBuilder.swift:48-51 | `url(_:)` stores the URL and changes no other field |
| `Builder.Method` | Sources/RequestBuilder.swift:150-153 | the method helper stores a string that parses back to the given method, and changes no other field |
| `Builder.Get` | Sources/RequestBuilder.swift:58-60 | `GET()` sets the method to `"GET"` and changes no other field |
| `Builder.Post` | Sources/RequestBuilder.swift:65-67 | `POST()` sets the method to `"POST"` and changes no other field |
| `Builder.Put` | Sources/RequestBuilder.swift:72-74 | `PUT()` sets the method to `"PUT"` and changes no other field |
| `Builder.Delete` | Sources/RequestBuilder.swift:79-81 | `DELETE()` sets the method to `"DELETE"` and changes no other field |
| `Builder.SetScheme` | Sources/RequestBuilder.swift:88-91 | `scheme(_:)` stores any string unchecked and changes no other field |
| `Builder.Http` | Sources/RequestBuilder.swift:96-98 | `http()` sets a scheme that parses as `Scheme.http` and changes no other field |
| `Builder.Https` | Sources/RequestBuilder.swift:103-105 | `https()` sets a scheme that parses as `Scheme.https` and changes no other field |
| `Builder.SetValue` | Sources/RequestBuilder.swift:113-117 | a value makes the field map to exactly that value, replacing any earlier one; `nil` removes the field; every other header and every other builder field is untouched |
| `Builder.Build` | Sources/RequestBuilder.swift:127-140 | the result is absent if and only if no URL was set; otherwise the request's URL has the builder's scheme and the stored URL's non-scheme part, and its method and header map equal the builder's |
| `Builder.FreshBuild` | Sources/RequestBuilder.swift:27-33 | a fresh builder given only a URL builds a GET request over `http` with no headers, whatever scheme the URL had |
| `Builder.BuildIgnoresSuppliedScheme` | Sources/RequestBuilder.swift:131-135 | two URLs that differ only in scheme build the same request |
| `Builder.RebuildIsFixedPoint` | Sources/RequestBuilder.swift:127-140 | setting the built request's URL back on the builder and building again gives the same request |
| `Builder.SetUrlLastWins` | Sources/RequestBuilder.swift:48-51 | of two `url(_:)` calls, only the second matters |
| `Builder.MethodLastWins` | Sources/RequestBuilder.swift:150-153 | of two method calls, only the second matters |
| `Builder.SchemeLastWins` | Sources/RequestBuilder.swift:88-91 | of two `scheme(_:)` calls, only the second matters |
| `Builder.SetValueLastWins` | Sources/RequestBuilder.swift:113-117 | of two `setValue` calls on one field, only the second matters, so values are never joined |
| `Builder.SetValueCommutes` | Sources/RequestBuilder.swift:113-117 | `setValue` calls on different fields can be swapped |
| `Builder.RemoveAbsentHeader` | Sources/RequestBuilder.swift:115 | removing a header that is not present leaves the builder unchanged |
| `Builder.ScenarioGet` | Tests/RequestBuilderTests/RequestBuilderTests.swift:18-29 | `url(u).build()` is the plain request for `u`: method GET, no header fields |
| `Builder.ScenarioPost` | Tests/RequestBuilderTests/RequestBuilderTests.swift:31-44 | `POST().url(u).build()` is the plain request for `u` with method POST |
| `Builder.ScenarioPutAndHeaders` | Tests/RequestBuilderTests/RequestBuilderTests.swift:46-61 | `PUT().url(u).setValue("Some token", for: "Authorization").build()` has method PUT and exactly that one header |
| `CallSequences.Apply` | Sources/RequestBuilder.swift:48-153 | one chained setter call writes only its own field (URL, method, scheme or one header) and leaves every other field and header as it was |
| `CallSequences.Replay` | Sources/RequestBuilder.swift:48-153 | after a chain of calls, the URL, scheme and method are those of the last call that set each, or the starting values when no call did |
| `CallSequences.LastHeaderWritten` | Sources/RequestBuilder.swift:113-117 | a header field that a chain's last write concerns is one of the fields the chain writes |
| `CallSequences.SettleHeaders` | Sources/RequestBuilder.swift:113-117 | the reference header map holds a field exactly when its last write (or the starting map) gives it a value, and holds that value |
| `CallSequences.ReplayIsSettle` | Sources/RequestBuilder.swift:48-153 | running any chain of setters leaves each field with the value of the last call that wrote it, or its starting value if none did |
| `CallSequences.SameLastWritesSameState` | Sources/RequestBuilder.swift:48-153 | two chains with the same last write for URL, method, scheme and every header field leave the builder in the same state |
| `CallSequences.SameLastWritesSameBuild` | Sources/RequestBuilder.swift:127-140 | two such chains build the same request |
| `CallSequences.ApplyCommutes` | Sources/RequestBuilder.swift:48-117 | adjacent calls that write different fields can be swapped |
| `CallSequences.ApplyLastWins` | Sources/RequestBuilder.swift:48-117 | of two adjacent calls that write the same field, the first is overwritten |
| `CallSequences.ReplayScheme` | Sources/RequestBuilder.swift:88-105 | after a chain the scheme is the last one assigned, or the starting one; valid schemes stay valid |
| `CallSequences.ChainBuild` | Sources/RequestBuilder.swift:127-140 | from a fresh builder, any chain (whose final scheme, `http` if none is set, is valid when a URL is set, since otherwise `build` traps) builds nothing exactly when it sets no URL; otherwise the request carries the last URL's non-scheme part, the last scheme (or `http`), the last method (or GET), and exactly the headers whose last write assigned a value, with that value |

## Left out

- `URLComponents` parsing and serialisation, and `URLRequest` construction, are platform types; the model abstracts them. The URL is an abstract (scheme, remainder) pair. The request is a plain record.
- `Builder.Build` requires `CanBuild`: when a URL is set, the scheme must satisfy the scheme grammar of RFC 3986. Assigning any other scheme makes the `URLComponents.scheme` assignment at Sources/RequestBuilder.swift:132 trap, and the trap is modelled as this precondition. The force-unwrap at Sources/RequestBuilder.swift:135 traps when `components?.url` is `nil` for other platform-specific reasons; those are not modelled. Neither is the exact set of scheme strings the platform accepts.
- `Builder.Build` copies the header map as is. `URLRequest` matches header names case-insensitively; that is not modelled.
- Builder.SetValue: header names are compared as sequences of Unicode scalars, not up to canonical equivalence as Swift's `String ==` does, so `"\u{E9}"` and `"e\u{301}"` are one key in Swift and two keys here. This is harmless for real header names, which section 5.1 of RFC 9110 restricts to ASCII tokens, where the two comparisons agree.
- Builder.SetValueCommutes: holds for header names that differ as scalar sequences; two canonically equivalent names are one key in Swift, so there the order of the two calls matters. Real header names are ASCII tokens, for which the distinction does not arise.
- Builder.RemoveAbsentHeader: "absent" means no key equal as a scalar sequence; Swift would also remove a canonically equivalent key. Real header names are ASCII tokens, for which the distinction does not arise.
- Header values are overwritten, never comma-joined, as `setValue` does at Sources/RequestBuilder.swift:115. A later variant of the library joins them; that variant is not part of this model.
- Host, path, query and body setters, path normalisation, and JSON-driven configuration (`request(_:from:)`) appear only in the later test file Tests/BuilditTests/RequestBuilderTests.swift. Their implementation is not part of this model.
- Test harness code, fixture loading and the Linux `allTests` tables are test plumbing.
- Thread safety of the shared mutable builder: the source has none, and the model is a value.
