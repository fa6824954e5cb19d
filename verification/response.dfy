/** The typed accessor layer of Sources/OpenGraphReader/OpenGraphResponse.swift: an
    immutable wrapper over the property mapping `[String: [String]]`, the private
    `Dictionary` helpers that read the first value of a key, and the convenience
    properties that fix the key of one Open Graph property each.

    `Double(String)` and `URL(string:)` are not modelled: every member that coerces
    takes the coercion as a partial function (`string -> Option<D>`, `string -> Option<U>`),
    so its result is stated for whatever those conversions return. */
module OpenGraphResponse {
  import opened Wrappers

  /** The property mapping: each key to its content values, in document order. */
  type Source = map<string, seq<string>>

  /** `OpenGraphResponse`; its only field is a `let`, so a value never changes and
      every accessor below is a function of `source` alone. */
  datatype Response = Response(source: Source)

  // ---------------------------------------------------------------------------
  // Reference meanings, stated directly on the mapping

  /** `v` is the first value stored under `key`: absent when the key is missing or its
      array is empty. */
  ghost predicate IsFirstOf(source: Source, key: string, v: Option<string>)
  {
    && (v.Some? <==> key in source && |source[key]| > 0)
    && (v.Some? ==> v.value == source[key][0])
  }

  /** `v` is the coercion of the first value stored under `key`, and absent when there
      is no first value. */
  ghost predicate IsCoercedFirstOf<T>(source: Source, key: string, coerce: string -> Option<T>, v: Option<T>)
  {
    && (key !in source || |source[key]| == 0 ==> v.None?)
    && (key in source && |source[key]| > 0 ==> v == coerce(source[key][0]))
  }

  /** `v` is the whole array stored under `key`, untouched. */
  ghost predicate IsEntryOf(source: Source, key: string, v: Option<seq<string>>)
  {
    && (v.Some? <==> key in source)
    && (v.Some? ==> v.value == source[key])
  }

  /** The two mappings hold the same entry (or none) under `key`. */
  ghost predicate AgreeOn(s1: Source, s2: Source, key: string)
  {
    && (key in s1 <==> key in s2)
    && (key in s1 ==> s1[key] == s2[key])
  }

  // ---------------------------------------------------------------------------
  // Swift library behaviour used by the helpers

  /** The dictionary subscript `source[key]`. */
  function Lookup(source: Source, key: string): Option<seq<string>>
  {
    if key in source then Some(source[key]) else None
  }

  /** `Array.first`. */
  function First(values: seq<string>): Option<string>
  {
    if |values| > 0 then Some(values[0]) else None
  }

  // ---------------------------------------------------------------------------
  // The private `Dictionary` helpers

  /** `source.stringValue(key)`, that is `self[key]?.first`. */
  function FirstValue(source: Source, key: string): (v: Option<string>)
    ensures IsFirstOf(source, key, v)
  {
    match Lookup(source, key)
    case None => None
    case Some(values) => First(values)
  }

  /** `source.doubleValue(key)`: the first value through `Double(_:)`; a missing key and
      a failed conversion both give nil, never an error. */
  function FirstAsDouble<D>(source: Source, key: string, toDouble: string -> Option<D>): (v: Option<D>)
    ensures IsCoercedFirstOf(source, key, toDouble, v)
  {
    match FirstValue(source, key)
    case None => None
    case Some(text) => toDouble(text)
  }

  /** `source.urlValue(key)`: the first value through `URL(string:)`, nil when the key is
      missing or the conversion fails. */
  function FirstAsUrl<U>(source: Source, key: string, toUrl: string -> Option<U>): (v: Option<U>)
    ensures IsCoercedFirstOf(source, key, toUrl, v)
  {
    match FirstValue(source, key)
    case None => None
    case Some(text) => toUrl(text)
  }

  // ---------------------------------------------------------------------------
  // Public accessors

  /** `arrayValue(_:)`: every value of `key`, in stored order. */
  function ArrayValue(r: Response, key: string): (v: Option<seq<string>>)
    ensures IsEntryOf(r.source, key, v)
  {
    Lookup(r.source, key)
  }

  /** `stringValue(_:)`: the head of what `arrayValue` returns for the same key. */
  function StringValue(r: Response, key: string): (v: Option<string>)
    ensures ArrayValue(r, key).None? ==> v.None?
    ensures ArrayValue(r, key).Some? ==> v == First(ArrayValue(r, key).value)
  {
    FirstValue(r.source, key)
  }

  /** `doubleValue(_:)`: absent exactly when `stringValue` is, otherwise its conversion. */
  function DoubleValue<D>(r: Response, key: string, toDouble: string -> Option<D>): (v: Option<D>)
    ensures StringValue(r, key).None? ==> v.None?
    ensures StringValue(r, key).Some? ==> v == toDouble(StringValue(r, key).value)
  {
    FirstAsDouble(r.source, key, toDouble)
  }

  /** `urlValue(_:)`: absent exactly when `stringValue` is, otherwise its conversion. */
  function UrlValue<U>(r: Response, key: string, toUrl: string -> Option<U>): (v: Option<U>)
    ensures StringValue(r, key).None? ==> v.None?
    ensures StringValue(r, key).Some? ==> v == toUrl(StringValue(r, key).value)
  {
    FirstAsUrl(r.source, key, toUrl)
  }

  // ---------------------------------------------------------------------------
  // Convenience properties

  /** `title`: the first `og:title` value; only when there is none, the first `title`
      value. */
  function Title(r: Response): (v: Option<string>)
    ensures "og:title" in r.source && |r.source["og:title"]| > 0 ==> v == Some(r.source["og:title"][0])
    ensures !("og:title" in r.source && |r.source["og:title"]| > 0) ==> IsFirstOf(r.source, "title", v)
  {
    FirstValue(r.source, "og:title").OrElse(FirstValue(r.source, "title"))
  }

  function Type(r: Response): (v: Option<string>)
    ensures IsFirstOf(r.source, "og:type", v)
  {
    FirstValue(r.source, "og:type")
  }

  function Description(r: Response): (v: Option<string>)
    ensures IsFirstOf(r.source, "og:description", v)
  {
    FirstValue(r.source, "og:description")
  }

  function Url<U>(r: Response, toUrl: string -> Option<U>): (v: Option<U>)
    ensures IsCoercedFirstOf(r.source, "og:url", toUrl, v)
  {
    FirstAsUrl(r.source, "og:url", toUrl)
  }

  function ImageUrl<U>(r: Response, toUrl: string -> Option<U>): (v: Option<U>)
    ensures IsCoercedFirstOf(r.source, "og:image", toUrl, v)
  {
    FirstAsUrl(r.source, "og:image", toUrl)
  }

  function ImageAlt(r: Response): (v: Option<string>)
    ensures IsFirstOf(r.source, "og:image:alt", v)
  {
    FirstValue(r.source, "og:image:alt")
  }

  function ImageSecureUrl<U>(r: Response, toUrl: string -> Option<U>): (v: Option<U>)
    ensures IsCoercedFirstOf(r.source, "og:image:secure_url", toUrl, v)
  {
    FirstAsUrl(r.source, "og:image:secure_url", toUrl)
  }

  function ImageType(r: Response): (v: Option<string>)
    ensures IsFirstOf(r.source, "og:image:type", v)
  {
    FirstValue(r.source, "og:image:type")
  }

  function ImageWidth<D>(r: Response, toDouble: string -> Option<D>): (v: Option<D>)
    ensures IsCoercedFirstOf(r.source, "og:image:width", toDouble, v)
  {
    FirstAsDouble(r.source, "og:image:width", toDouble)
  }

  function ImageHeight<D>(r: Response, toDouble: string -> Option<D>): (v: Option<D>)
    ensures IsCoercedFirstOf(r.source, "og:image:height", toDouble, v)
  {
    FirstAsDouble(r.source, "og:image:height", toDouble)
  }

  function SiteName(r: Response): (v: Option<string>)
    ensures IsFirstOf(r.source, "og:site_name", v)
  {
    FirstValue(r.source, "og:site_name")
  }

  /** Every allowed country, not only the first. */
  function RestrictionsCountriesAllowed(r: Response): (v: Option<seq<string>>)
    ensures IsEntryOf(r.source, "og:restrictions:country:allowed", v)
  {
    Lookup(r.source, "og:restrictions:country:allowed")
  }

  function AudioUrl<U>(r: Response, toUrl: string -> Option<U>): (v: Option<U>)
    ensures IsCoercedFirstOf(r.source, "og:audio", toUrl, v)
  {
    FirstAsUrl(r.source, "og:audio", toUrl)
  }

  function Determiner(r: Response): (v: Option<string>)
    ensures IsFirstOf(r.source, "og:determiner", v)
  {
    FirstValue(r.source, "og:determiner")
  }

  function Locale(r: Response): (v: Option<string>)
    ensures IsFirstOf(r.source, "og:locale", v)
  {
    FirstValue(r.source, "og:locale")
  }

  /** Every alternate locale, not only the first. */
  function LocaleAlternate(r: Response): (v: Option<seq<string>>)
    ensures IsEntryOf(r.source, "og:locale:alternate", v)
  {
    Lookup(r.source, "og:locale:alternate")
  }

  function VideoUrl<U>(r: Response, toUrl: string -> Option<U>): (v: Option<U>)
    ensures IsCoercedFirstOf(r.source, "og:video", toUrl, v)
  {
    FirstAsUrl(r.source, "og:video", toUrl)
  }

  // ---------------------------------------------------------------------------
  // Properties relating the accessors

  /** Each accessor reads the entry of its own key and nothing else: two responses
      that agree on `key` give the same answers for it. */
  lemma AccessorsReadOnlyTheirKey<D, U>(r1: Response, r2: Response, key: string,
                                        toDouble: string -> Option<D>, toUrl: string -> Option<U>)
    requires AgreeOn(r1.source, r2.source, key)
    ensures ArrayValue(r1, key) == ArrayValue(r2, key)
    ensures StringValue(r1, key) == StringValue(r2, key)
    ensures DoubleValue(r1, key, toDouble) == DoubleValue(r2, key, toDouble)
    ensures UrlValue(r1, key, toUrl) == UrlValue(r2, key, toUrl)
  {
  }

  /** The array-valued properties keep every value: a key stored with several values
      yields all of them, while the matching string accessor yields the first. */
  lemma ArrayPropertiesKeepEveryValue(r: Response, key: string)
    requires key in r.source && |r.source[key]| > 1
    ensures ArrayValue(r, key) == Some(r.source[key])
    ensures StringValue(r, key) == Some(r.source[key][0])
    ensures key == "og:locale:alternate" ==> LocaleAlternate(r) == ArrayValue(r, key)
    ensures key == "og:restrictions:country:allowed" ==> RestrictionsCountriesAllowed(r) == ArrayValue(r, key)
  {
  }

  /** `title` prefers `og:title` over `title`: a present `og:title` hides `title`, and a
      page with only `title` still has one. */
  lemma TitlePrecedence(r: Response, ogTitle: string, plainTitle: string)
    ensures Title(Response(r.source["og:title" := [ogTitle]]["title" := [plainTitle]])) == Some(ogTitle)
    ensures "og:title" !in r.source ==> Title(Response(r.source["title" := [plainTitle]])) == Some(plainTitle)
  {
  }

  /** A response over the empty mapping (an empty page, or text that is not HTML)
      answers nil to every convenience property. */
  lemma EmptyResponseHasNoProperties<D, U>(toDouble: string -> Option<D>, toUrl: string -> Option<U>)
    ensures var r := Response(map[]);
      && Title(r).None? && Type(r).None? && Description(r).None? && Url(r, toUrl).None?
      && ImageUrl(r, toUrl).None? && ImageAlt(r).None? && ImageSecureUrl(r, toUrl).None?
      && ImageType(r).None? && ImageWidth(r, toDouble).None? && ImageHeight(r, toDouble).None?
      && SiteName(r).None? && RestrictionsCountriesAllowed(r).None? && AudioUrl(r, toUrl).None?
      && Determiner(r).None? && Locale(r).None? && LocaleAlternate(r).None? && VideoUrl(r, toUrl).None?
  {
  }
}
