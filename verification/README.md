# OpenGraphReader in Dafny

A functional model of the core of OpenGraphReader, a Swift package that extracts
Open Graph metadata from HTML pages. It has three parts.

- **`OpenGraphReader`** (`reader.dfy`) covers `OpenGraphReader.parse(url:)` after the
  transport has answered:
  - the response must be an HTTP response with a 2xx status, and the body must decode
    as UTF-8. Otherwise the result is `invalidResponse`;
  - the `<meta property=…>` elements that SwiftSoup selects are folded, in document
    order, into a `[String: [String]]` mapping. Each `content` is appended to the
    array of its `property`. An element whose attribute read fails is skipped;
  - anything SwiftSoup throws becomes `parsingError(cause)`, and no partial response
    is returned.
- **`OpenGraphResponse`** (`response.dfy`) models `OpenGraphResponse`, an immutable
  wrapper over that mapping. It has the private `Dictionary` helpers, the public
  `arrayValue`, `stringValue`, `doubleValue` and `urlValue`, and 17 convenience
  properties. Each property reads one fixed key. `title` falls back from `og:title`
  to `title`.
- **`OpenGraphTag`** (`tag.dfy`) models the closed `OpenGraphTag` enumeration of 48
  vocabulary entries. It has `rawValue`, the failable `init(rawValue:)` and `allCases`.
  The extractor does not use it.

`wrappers.dfy` holds `Option` (Swift's optionals and the `??` operator) and `Result`
(the outcome of a throwing call).

Main results:
- **The fold.** The keys of the mapping are exactly the properties of the elements
  that were not skipped, with keys compared by code points (see "Left out"). Each
  array holds those elements' contents in document order and is never empty. Adding one element appends its content to its own key and
  changes nothing else. The total number of stored values equals the number of
  elements that were not skipped.
- **Error classification.** Each error kind is tied to its exact stage.
- **Accessors.** `stringValue`, `doubleValue` and `urlValue` all go through the first
  value of a key, and `title` gives `og:title` precedence.
- **Tags.** `rawValue` and `init(rawValue:)` form a bijection on the 48 cases.
  `allCases` lists each case once, in declaration order.
  `init(rawValue:)` is modelled by its meaning: it returns the case whose raw value
  equals the string, and nil if there is none. The model first narrows the string to
  one candidate case by its length and a few characters, then compares it in full
  with that case's raw value. Because raw values are unique, this gives the same
  answer as comparing with every raw value in turn.

The model follows the code as written:
- only the `property` attribute is read; there is no fallback to `name`;
- no document `<title>` is injected into the mapping;
- a 404 is reported as `invalidResponse`, because `OpenGraphError` has no fetch-error
  kind;
- a `<meta>` without `content` contributes the empty string, because SwiftSoup's
  `attr` returns `""` for a missing attribute. It is not skipped. Only an attribute
  read that throws makes `try?` skip the element.

## Model

| member | source | states |
|---|---|---|
| `OpenGraphReader.Ok` | Sources/OpenGraphReader/OpenGraphReader.swift:57-59 | `HTTPURLResponse.ok`, defined as the status code lying in 200–299. It has no contract of its own; `ReadResponse` states its role. |
| `OpenGraphReader.Contributes` | Sources/OpenGraphReader/OpenGraphReader.swift:43 | The `guard` of the `forEach` body: both `try?` attribute reads succeeded. It has no contract of its own; `Step` states that an element failing it leaves the mapping unchanged. |
| `OpenGraphReader.Step` | Sources/OpenGraphReader/OpenGraphReader.swift:42-47 | One element appends its content to the end of its own property's array, creating the array if needed. Every other array is unchanged. The keys gain exactly that property. An element with a failed attribute read leaves the mapping as it was. |
| `OpenGraphReader.CollectMeta` | Sources/OpenGraphReader/OpenGraphReader.swift:42-47 | The `forEach` fold of `Step` over the elements in document order. The keys it starts from are never removed. Its full meaning is in `CollectMetaKeys` and `CollectMetaValues`. |
| `OpenGraphReader.Aggregate` | Sources/OpenGraphReader/OpenGraphReader.swift:39-49 | The mapping built from `[:]` has as keys exactly the properties of the elements that were not skipped. Under each key it holds the contents of that key's elements in document order. No array is empty. |
| `OpenGraphReader.CollectMetaKeys` | Sources/OpenGraphReader/OpenGraphReader.swift:42-47 | Starting from any mapping, the `forEach` fold adds exactly the properties of the elements that were not skipped to the keys. |
| `OpenGraphReader.CollectMetaValues` | Sources/OpenGraphReader/OpenGraphReader.swift:42-47 | Starting from any mapping, the fold appends to each key's array the contents its elements contribute, in order. |
| `OpenGraphReader.ValuesForPresentKey` | Sources/OpenGraphReader/OpenGraphReader.swift:43-46 | A key receives at least one value exactly when some element that was not skipped carries that property. |
| `OpenGraphReader.CollectMetaAppend` | Sources/OpenGraphReader/OpenGraphReader.swift:44-46 | Folding a sequence plus one more element is the same as one more `forEach` step on the mapping folded so far. |
| `OpenGraphReader.AggregateAppend` | Sources/OpenGraphReader/OpenGraphReader.swift:42-47 | Adding an element at the end of the document changes the final mapping by exactly one step for that element. |
| `OpenGraphReader.AggregateStoresEveryContent` | Sources/OpenGraphReader/OpenGraphReader.swift:43-46 | The total number of values stored over all keys equals the number of elements that were not skipped. Skipped elements add nothing. |
| `OpenGraphReader.Selection` | Sources/OpenGraphReader/OpenGraphReader.swift:37-39 | `SwiftSoup.parse` then `select("meta[property]")`. A parse that throws stops there with its error, and selection is not attempted. Otherwise the result is exactly what the selection gives, its error included, so it succeeds only when both calls succeed. |
| `OpenGraphReader.ReadResponse` | Sources/OpenGraphReader/OpenGraphReader.swift:25-59 | A response that is not HTTP, or has a status outside 200–299, gives `invalidResponse`. So does a body that is not UTF-8. A throw from parsing or selection gives `parsingError` carrying that cause. `invalidURL` never arises. A response is returned only when every stage succeeds, and it then wraps the full fold of the selected elements. |
| `OpenGraphReader.BadStatusIgnoresTheRest` | Sources/OpenGraphReader/OpenGraphReader.swift:28-30 | For a non-2xx or non-HTTP response, the outcome does not depend on the body or the parser. |
| `OpenGraphReader.NotFoundIsInvalidResponse` | Tests/OpenGraphReaderTests/OpenGraphReaderTests.swift:21-28 | HTTP 404 gives `invalidResponse`, whatever the page holds. |
| `OpenGraphReader.UndecodableBodyIgnoresParser` | Sources/OpenGraphReader/OpenGraphReader.swift:32-34 | When the body does not decode as UTF-8, the outcome does not depend on the parser or the selector. |
| `OpenGraphReader.PageWithoutMetaIsEmpty` | Sources/OpenGraphReader/OpenGraphReader.swift:36-49 | A page in which nothing is selected yields a response over the empty mapping. |
| `OpenGraphResponse.FirstValue` | Sources/OpenGraphReader/OpenGraphResponse.swift:141-143 | The first value stored under a key. It is absent when the key is missing or its array is empty. |
| `OpenGraphResponse.FirstAsDouble` | Sources/OpenGraphReader/OpenGraphResponse.swift:145-150 | Absent when there is no first value. Otherwise it is the numeric conversion of the first value, so a failed conversion gives absent, not an error. |
| `OpenGraphResponse.FirstAsUrl` | Sources/OpenGraphReader/OpenGraphResponse.swift:152-157 | Absent when there is no first value. Otherwise it is the URL conversion of the first value, so a failed conversion gives absent. |
| `OpenGraphResponse.ArrayValue` | Sources/OpenGraphReader/OpenGraphResponse.swift:114-116 | Exactly the stored array of the key, unchanged. It is absent exactly when the key is missing. |
| `OpenGraphResponse.StringValue` | Sources/OpenGraphReader/OpenGraphResponse.swift:121-123 | Absent when `arrayValue` is absent. Otherwise it is the first element of the array `arrayValue` returns. |
| `OpenGraphResponse.DoubleValue` | Sources/OpenGraphReader/OpenGraphResponse.swift:128-130 | Absent when `stringValue` is absent. Otherwise it is the numeric conversion of `stringValue`. |
| `OpenGraphResponse.UrlValue` | Sources/OpenGraphReader/OpenGraphResponse.swift:135-137 | Absent when `stringValue` is absent. Otherwise it is the URL conversion of `stringValue`. |
| `OpenGraphResponse.Title` | Sources/OpenGraphReader/OpenGraphResponse.swift:25-27 | The first `og:title` value when there is one. Otherwise it is the first `title` value, or absent. |
| `OpenGraphResponse.Type` | Sources/OpenGraphReader/OpenGraphResponse.swift:30-32 | The first value of `og:type`. |
| `OpenGraphResponse.Description` | Sources/OpenGraphReader/OpenGraphResponse.swift:35-37 | The first value of `og:description`. |
| `OpenGraphResponse.Url` | Sources/OpenGraphReader/OpenGraphResponse.swift:40-42 | The URL conversion of the first `og:url` value. |
| `OpenGraphResponse.ImageUrl` | Sources/OpenGraphReader/OpenGraphResponse.swift:45-47 | The URL conversion of the first `og:image` value. |
| `OpenGraphResponse.ImageAlt` | Sources/OpenGraphReader/OpenGraphResponse.swift:50-52 | The first value of `og:image:alt`. |
| `OpenGraphResponse.ImageSecureUrl` | Sources/OpenGraphReader/OpenGraphResponse.swift:55-57 | The URL conversion of the first `og:image:secure_url` value. |
| `OpenGraphResponse.ImageType` | Sources/OpenGraphReader/OpenGraphResponse.swift:60-62 | The first value of `og:image:type`. |
| `OpenGraphResponse.ImageWidth` | Sources/OpenGraphReader/OpenGraphResponse.swift:65-67 | The numeric conversion of the first `og:image:width` value. |
| `OpenGraphResponse.ImageHeight` | Sources/OpenGraphReader/OpenGraphResponse.swift:70-72 | The numeric conversion of the first `og:image:height` value. |
| `OpenGraphResponse.SiteName` | Sources/OpenGraphReader/OpenGraphResponse.swift:75-77 | The first value of `og:site_name`. |
| `OpenGraphResponse.RestrictionsCountriesAllowed` | Sources/OpenGraphReader/OpenGraphResponse.swift:80-82 | The whole array of `og:restrictions:country:allowed`. |
| `OpenGraphResponse.AudioUrl` | Sources/OpenGraphReader/OpenGraphResponse.swift:85-87 | The URL conversion of the first `og:audio` value. |
| `OpenGraphResponse.Determiner` | Sources/OpenGraphReader/OpenGraphResponse.swift:90-92 | The first value of `og:determiner`. |
| `OpenGraphResponse.Locale` | Sources/OpenGraphReader/OpenGraphResponse.swift:95-97 | The first value of `og:locale`. |
| `OpenGraphResponse.LocaleAlternate` | Sources/OpenGraphReader/OpenGraphResponse.swift:100-102 | The whole array of `og:locale:alternate`. |
| `OpenGraphResponse.VideoUrl` | Sources/OpenGraphReader/OpenGraphResponse.swift:105-107 | The URL conversion of the first `og:video` value. |
| `OpenGraphResponse.AccessorsReadOnlyTheirKey` | Sources/OpenGraphReader/OpenGraphResponse.swift:110-158 | Two responses that hold the same entry under a key give the same array, string, number and URL for that key. |
| `OpenGraphResponse.ArrayPropertiesKeepEveryValue` | Sources/OpenGraphReader/OpenGraphResponse.swift:80-102 | For a key with several values, `arrayValue`, `localeAlternate` and `restrictionsCountriesAllowed` return all of them, while `stringValue` returns only the first. |
| `OpenGraphResponse.TitlePrecedence` | Sources/OpenGraphReader/OpenGraphResponse.swift:25-27 | When both keys are present, `og:title` wins over `title`. A page with only `title` still has a title. |
| `OpenGraphResponse.EmptyResponseHasNoProperties` | Sources/OpenGraphReader/OpenGraphResponse.swift:23-108 | Over the empty mapping, all 17 convenience properties are absent. |
| `OpenGraphTag.RawValue` | Sources/OpenGraphReader/OpenGraphTag.swift:13-72 | The raw value of each case, verbatim: the case name for the nine cases declared without one. It has no contract of its own; `RawValueInjective`, `RoundTrip`, `ImplicitRawValues` and `IrregularRawValues` state its properties. |
| `OpenGraphTag.FromRawValue` | Sources/OpenGraphReader/OpenGraphTag.swift:11-73 | When `init(rawValue: s)` returns a case, the raw value of that case is `s`. |
| `OpenGraphTag.ClassifyRawValue` | Sources/OpenGraphReader/OpenGraphTag.swift:13-72 | Every raw value is singled out among the 48 by its length and its characters at positions 0, 6 and 7. None starts with `o`. |
| `OpenGraphTag.RawValueInjective` | Sources/OpenGraphReader/OpenGraphTag.swift:11-73 | No two cases share a raw value. |
| `OpenGraphTag.RoundTrip` | Sources/OpenGraphReader/OpenGraphTag.swift:11 | `init(rawValue: t.rawValue)` returns `t` for every case. |
| `OpenGraphTag.FromRawValueFailsExactly` | Sources/OpenGraphReader/OpenGraphTag.swift:11-73 | `init(rawValue: s)` returns nil exactly when `s` is no case's raw value. |
| `OpenGraphTag.Ordinal` | Sources/OpenGraphReader/OpenGraphTag.swift:11-73 | The declaration position of a case is below 48, and the case declared at that position is the case itself. |
| `OpenGraphTag.OrdinalOfTagAt` | Sources/OpenGraphReader/OpenGraphTag.swift:11-73 | The case declared at position `i` has declaration position `i`, so declaration positions and cases correspond one to one. |
| `OpenGraphTag.AllCases` | Sources/OpenGraphReader/OpenGraphTag.swift:11 | The synthesised `allCases` of `CaseIterable`: the case at each declaration position, in order. It has no contract of its own; `AllCasesComplete` states its properties. |
| `OpenGraphTag.AllCasesComplete` | Sources/OpenGraphReader/OpenGraphTag.swift:11-73 | `allCases` has 48 entries. Each case is at its declaration position, and no case occurs twice. |
| `OpenGraphTag.NoRawValueIsPrefixed` | Sources/OpenGraphReader/OpenGraphTag.swift:13-72 | No raw value starts with `og:`. |
| `OpenGraphTag.PrefixedKeyDoesNotParse` | Sources/OpenGraphReader/OpenGraphTag.swift:11-73 | A string starting with `og:`, such as `og:title`, does not parse as a case. |
| `OpenGraphTag.ImplicitRawValues` | Sources/OpenGraphReader/OpenGraphTag.swift:13-25 | The nine cases declared without a raw value parse from their own names: `title`, `type`, `image`, `url`, `audio`, `description`, `determiner`, `locale` and `video`. |
| `OpenGraphTag.IrregularRawValues` | Sources/OpenGraphReader/OpenGraphTag.swift:38-52 | `music:album:track` parses as `musicAlbumMusic` and `video:releaseDate` as `videoReleaseDate`, exactly as the irregular raw values are written. |
| `OpenGraphTag.RegularSpellingsDoNotParse` | Sources/OpenGraphReader/OpenGraphTag.swift:38-52 | The regular spellings the other cases suggest, `music:album:music` and `video:release_date`, do not parse. |

## Left out

- The `URLSession` transport, `async`/`await`, request construction and
  `init(sessionConfiguration:)` (`OpenGraphReader.swift:14-26`) are network I/O.
  `ReadResponse` takes their outcome instead: the kind of response with its status,
  and the body decoded as UTF-8 (`Some`) or not (`None`).
- A throw from `urlSession.data(for:)` itself is not modelled. It propagates out of
  `parse(url:)` as thrown, without being wrapped in `OpenGraphError`.
- SwiftSoup's `parse` and `select("meta[property]")` belong to a foreign HTML
  library. They are function parameters that return the selected elements or the
  error thrown. The `property`/`content` attribute reads are `Option`s on each
  element.
- `Double(String)` and `URL(string:)` are floating-point and Foundation URL parsing.
  They are partial-function parameters (`string -> Option<D>`, `string -> Option<U>`),
  so the double and URL types stay abstract.
- `invalidURL` is declared but never thrown by `parse(url:)`. It exists only as a
  constructor, and `ReadResponse` is proved never to return it.
- Keys are compared by code points. Swift's `String` equality and `Dictionary` lookup
  use Unicode canonical equivalence, so the program merges two `property` spellings
  such as `caf\u{E9}` and `cafe\u{301}` into one key, and the model keeps them as two.
  The fixed `og:` keys of the accessors and the 48 raw values use only ASCII letters
  (all lower-case except the `D` of `video:releaseDate`), `:` and `_`. These have no
  other canonically equivalent spelling, so the accessors and `FromRawValue` are
  unaffected.
- The property mapping is a Dafny `map`. Swift's `Dictionary` iteration order is not
  modelled, and no member depends on it.
- Immutability of `source` (`OpenGraphResponse.swift:11-18`) holds by construction,
  so no lemma states it. `Response` is a datatype whose only field is the mapping, and
  every accessor is a function of it.
- The `name`-attribute fallback, document `<title>` injection and a separate
  fetch-error kind are not in the code, so they are not modelled.
- The test mocks (`Tests/OpenGraphReaderTests/Mocks/*`), the XCTest suite and
  `Package.swift` are test and build plumbing.
