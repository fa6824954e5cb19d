/** `OpenGraphReader.parse(url:)` of Sources/OpenGraphReader/OpenGraphReader.swift, from
    the point where the transport has answered: the status check, the UTF-8 check, the
    fold of the selected `<meta>` elements into a property mapping, and the
    classification of every failure into `OpenGraphError`.

    The transport result enters as its two observable parts (what kind of response
    came back, and the body decoded as UTF-8 or not); SwiftSoup enters as the two
    throwing calls `parseDocument` (`SwiftSoup.parse`) and `selectMeta`
    (`doc.select("meta[property]")`), each a `Result`. */
module OpenGraphReader {
  import opened Wrappers
  import opened OpenGraphResponse

  /** What a parser or selector threw; it is carried, never inspected. */
  datatype Cause = Cause(description: string)

  /** `OpenGraphError`. */
  datatype OpenGraphError = InvalidUrl | InvalidResponse | ParsingError(cause: Cause)

  /** The `URLResponse` of a completed request: an `HTTPURLResponse` with its status
      code, or a response of some other kind. */
  datatype UrlResponse = HttpResponse(statusCode: int) | OtherResponse

  /** A selected `<meta>` element, as seen through `try? meta.attr(_:)`: `None` is an
      attribute read that threw. An absent `content` attribute reads as `Some("")`,
      since SwiftSoup returns the empty string for it. */
  datatype MetaElement = MetaElement(property: Option<string>, content: Option<string>)

  /** `HTTPURLResponse.ok`: the status lies in `200...299`. */
  predicate Ok(statusCode: int)
  {
    200 <= statusCode <= 299
  }

  // ---------------------------------------------------------------------------
  // The fold

  /** The guard of the `forEach` body: both attribute reads succeeded. */
  predicate Contributes(meta: MetaElement)
  {
    meta.property.Some? && meta.content.Some?
  }

  /** `result[key, default: []]`. */
  function Existing(result: Source, key: string): seq<string>
  {
    if key in result then result[key] else []
  }

  /** What one element adds to the array of `key`: its content when it is not skipped
      and its property is `key`, nothing otherwise. */
  function Contribution(meta: MetaElement, key: string): seq<string>
  {
    if Contributes(meta) && meta.property.value == key then [meta.content.value] else []
  }

  /** One pass of the `forEach` body: the element's content goes to the end of its
      property's array (created if needed), no other array changes, and a skipped
      element changes nothing at all. */
  function Step(result: Source, meta: MetaElement): (next: Source)
    ensures !Contributes(meta) ==> next == result
    ensures next.Keys == result.Keys + (if Contributes(meta) then {meta.property.value} else {})
    ensures forall key :: Existing(next, key) == Existing(result, key) + Contribution(meta, key)
  {
    if Contributes(meta) then
      var key := meta.property.value;
      result[key := Existing(result, key) + [meta.content.value]]
    else
      result
  }

  /** `metas.forEach { … }` run on `result`: a left fold of `Step`. */
  function CollectMeta(result: Source, metas: seq<MetaElement>): (folded: Source)
    ensures result.Keys <= folded.Keys
    decreases |metas|
  {
    if metas == [] then result else CollectMeta(Step(result, metas[0]), metas[1..])
  }

  /** The mapping `parse(url:)` builds: the fold started from `[:]`. Its keys are
      exactly the properties of the elements that were not skipped, and each key holds
      the contents of its elements in document order, so never an empty array. */
  function Aggregate(metas: seq<MetaElement>): (result: Source)
    ensures result.Keys == PropertyKeys(metas)
    ensures forall key :: key in result ==> result[key] == ValuesFor(metas, key)
    ensures forall key :: key in result ==> |result[key]| > 0
  {
    var result := CollectMeta(map[], metas);
    CollectMetaKeys(map[], metas);
    forall key | key in result ensures result[key] == ValuesFor(metas, key) && |result[key]| > 0 {
      CollectMetaValues(map[], metas, key);
      assert Existing(result, key) == Existing(map[], key) + ValuesFor(metas, key);
      ValuesForPresentKey(metas, key);
    }
    result
  }

  // ---------------------------------------------------------------------------
  // Reference definitions for the fold

  /** The contents of the contributing elements whose property is `key`, in order. */
  ghost function ValuesFor(metas: seq<MetaElement>, key: string): seq<string>
    decreases |metas|
  {
    if metas == [] then []
    else Contribution(metas[0], key) + ValuesFor(metas[1..], key)
  }

  /** The properties of the contributing elements. */
  ghost function PropertyKeys(metas: seq<MetaElement>): set<string>
  {
    set i | 0 <= i < |metas| && Contributes(metas[i]) :: metas[i].property.value
  }

  /** The number of elements the fold does not skip. */
  ghost function ContributingCount(metas: seq<MetaElement>): nat
    decreases |metas|
  {
    if metas == [] then 0
    else (if Contributes(metas[0]) then 1 else 0) + ContributingCount(metas[1..])
  }

  /** The number of values stored in a mapping, over all keys. */
  ghost function TotalStored(source: Source): nat
    decreases |source|
  {
    if source == map[] then 0
    else
      var key :| key in source;
      assert |source - {key}| < |source| by { assert (source - {key}).Keys < source.Keys; }
      |source[key]| + TotalStored(source - {key})
  }

  lemma PropertyKeysCons(metas: seq<MetaElement>)
    requires metas != []
    ensures PropertyKeys(metas) == (if Contributes(metas[0]) then {metas[0].property.value} else {}) + PropertyKeys(metas[1..])
  {
    var rest := metas[1..];
    forall key | key in PropertyKeys(rest) ensures key in PropertyKeys(metas) {
      var i :| 0 <= i < |rest| && Contributes(rest[i]) && rest[i].property.value == key;
      assert metas[i + 1] == rest[i];
    }
    forall key | key in PropertyKeys(metas) && !(Contributes(metas[0]) && key == metas[0].property.value)
      ensures key in PropertyKeys(rest)
    {
      var i :| 0 <= i < |metas| && Contributes(metas[i]) && metas[i].property.value == key;
      assert i != 0;
      assert rest[i - 1] == metas[i];
    }
  }

  /** A key has values exactly when some contributing element carries it. */
  lemma {:induction false} ValuesForPresentKey(metas: seq<MetaElement>, key: string)
    ensures key in PropertyKeys(metas) <==> |ValuesFor(metas, key)| > 0
    decreases |metas|
  {
    if metas != [] {
      PropertyKeysCons(metas);
      ValuesForPresentKey(metas[1..], key);
    }
  }

  // ---------------------------------------------------------------------------
  // Properties of the fold

  /** The fold adds to the keys it starts from exactly the properties of the elements
      it does not skip. */
  lemma {:induction false} CollectMetaKeys(result: Source, metas: seq<MetaElement>)
    ensures CollectMeta(result, metas).Keys == result.Keys + PropertyKeys(metas)
    decreases |metas|
  {
    if metas != [] {
      PropertyKeysCons(metas);
      CollectMetaKeys(Step(result, metas[0]), metas[1..]);
    }
  }

  /** The fold appends to the array of `key` the contents that the elements contribute
      to it, in document order. */
  lemma {:induction false} CollectMetaValues(result: Source, metas: seq<MetaElement>, key: string)
    ensures Existing(CollectMeta(result, metas), key) == Existing(result, key) + ValuesFor(metas, key)
    decreases |metas|
  {
    if metas != [] {
      var next := Step(result, metas[0]);
      CollectMetaValues(next, metas[1..], key);
      assert Existing(next, key) == Existing(result, key) + Contribution(metas[0], key);
      assert ValuesFor(metas, key) == Contribution(metas[0], key) + ValuesFor(metas[1..], key);
    }
  }

  /** Folding one more element is one more `Step` on the mapping built so far. */
  lemma {:induction false} CollectMetaAppend(result: Source, metas: seq<MetaElement>, meta: MetaElement)
    ensures CollectMeta(result, metas + [meta]) == Step(CollectMeta(result, metas), meta)
    decreases |metas|
  {
    if metas == [] {
      assert [meta][1..] == [];
    } else {
      assert (metas + [meta])[0] == metas[0];
      assert (metas + [meta])[1..] == metas[1..] + [meta];
      CollectMetaAppend(Step(result, metas[0]), metas[1..], meta);
    }
  }

  /** Hence appending an element to the document appends its content to the end of its
      own key's array in the final mapping and leaves every other entry alone. */
  lemma AggregateAppend(metas: seq<MetaElement>, meta: MetaElement)
    ensures Aggregate(metas + [meta]) == Step(Aggregate(metas), meta)
  {
    CollectMetaAppend(map[], metas, meta);
  }

  /** Choosing any key first gives the same total. */
  lemma {:induction false} TotalStoredRemove(source: Source, key: string)
    requires key in source
    ensures TotalStored(source) == |source[key]| + TotalStored(source - {key})
    decreases |source|
  {
    var chosen :| chosen in source && TotalStored(source) == |source[chosen]| + TotalStored(source - {chosen});
    if chosen != key {
      var rest := source - {chosen};
      assert |rest| < |source| by { assert rest.Keys < source.Keys; }
      TotalStoredRemove(rest, key);
      var other := source - {key};
      assert |other| < |source| by { assert other.Keys < source.Keys; }
      TotalStoredRemove(other, chosen);
      assert rest - {key} == other - {chosen};
    }
  }

  lemma StepTotal(result: Source, meta: MetaElement)
    ensures TotalStored(Step(result, meta)) == TotalStored(result) + (if Contributes(meta) then 1 else 0)
  {
    if Contributes(meta) {
      var key := meta.property.value;
      var next := Step(result, meta);
      TotalStoredRemove(next, key);
      if key in result {
        TotalStoredRemove(result, key);
        assert next - {key} == result - {key};
      } else {
        assert next - {key} == result;
      }
    }
  }

  lemma {:induction false} CollectMetaTotal(result: Source, metas: seq<MetaElement>)
    ensures TotalStored(CollectMeta(result, metas)) == TotalStored(result) + ContributingCount(metas)
    decreases |metas|
  {
    if metas != [] {
      StepTotal(result, metas[0]);
      CollectMetaTotal(Step(result, metas[0]), metas[1..]);
    }
  }

  /** Nothing is lost or invented: the mapping stores exactly one value per element
      that was not skipped. */
  lemma AggregateStoresEveryContent(metas: seq<MetaElement>)
    ensures TotalStored(Aggregate(metas)) == ContributingCount(metas)
  {
    CollectMetaTotal(map[], metas);
  }

  // ---------------------------------------------------------------------------
  // parse(url:)

  /** What the `do` block gets from SwiftSoup for `html`: the selected elements, or
      the first error thrown by parsing or by selection. */
  ghost function Selection<D>(html: string, parseDocument: string -> Result<D, Cause>,
                              selectMeta: D -> Result<seq<MetaElement>, Cause>): (r: Result<seq<MetaElement>, Cause>)
    ensures parseDocument(html).Failure? ==> r == Failure(parseDocument(html).error)
    ensures r.Success? <==> parseDocument(html).Success? && selectMeta(parseDocument(html).value).Success?
    ensures parseDocument(html).Success? ==> r == selectMeta(parseDocument(html).value)
  {
    match parseDocument(html)
    case Failure(cause) => Failure(cause)
    case Success(doc) => selectMeta(doc)
  }

  /** `parse(url:)` after the transport has answered with `response` and a body that
      decodes as UTF-8 text (`Some`) or does not (`None`). A response that is not
      HTTP 2xx, and a body that is not text, give `invalidResponse`; a throw from
      SwiftSoup gives `parsingError` with that very cause; only when every stage
      succeeds is a response returned, and it wraps the whole fold. */
  function ReadResponse<D>(response: UrlResponse, body: Option<string>,
                           parseDocument: string -> Result<D, Cause>,
                           selectMeta: D -> Result<seq<MetaElement>, Cause>): (r: Result<Response, OpenGraphError>)
    ensures !(response.HttpResponse? && 200 <= response.statusCode <= 299) ==> r == Failure(InvalidResponse)
    ensures body.None? ==> r == Failure(InvalidResponse)
    ensures r != Failure(InvalidUrl)
    ensures r.Failure? && r.error.ParsingError? ==>
      body.Some? && Selection(body.value, parseDocument, selectMeta) == Failure(r.error.cause)
    ensures r.Success? ==>
      && response.HttpResponse? && 200 <= response.statusCode <= 299
      && body.Some? && Selection(body.value, parseDocument, selectMeta).Success?
      && r.value == Response(Aggregate(Selection(body.value, parseDocument, selectMeta).value))
    ensures response.HttpResponse? && 200 <= response.statusCode <= 299 && body.Some? ==>
      (r.Success? <==> Selection(body.value, parseDocument, selectMeta).Success?)
    ensures response.HttpResponse? && 200 <= response.statusCode <= 299 && body.Some?
              && Selection(body.value, parseDocument, selectMeta).Failure? ==>
      r == Failure(ParsingError(Selection(body.value, parseDocument, selectMeta).error))
  {
    if !(response.HttpResponse? && Ok(response.statusCode)) then
      Failure(InvalidResponse)
    else
      match body
      case None => Failure(InvalidResponse)
      case Some(html) =>
        match parseDocument(html)
        case Failure(cause) => Failure(ParsingError(cause))
        case Success(doc) =>
          match selectMeta(doc)
          case Failure(cause) => Failure(ParsingError(cause))
          case Success(metas) => Success(Response(Aggregate(metas)))
  }

  /** A response that is not HTTP 2xx decides the outcome alone: neither the body nor
      the parser is looked at. */
  lemma BadStatusIgnoresTheRest<D>(response: UrlResponse,
                                   body1: Option<string>, parse1: string -> Result<D, Cause>, select1: D -> Result<seq<MetaElement>, Cause>,
                                   body2: Option<string>, parse2: string -> Result<D, Cause>, select2: D -> Result<seq<MetaElement>, Cause>)
    requires !(response.HttpResponse? && Ok(response.statusCode))
    ensures ReadResponse(response, body1, parse1, select1) == ReadResponse(response, body2, parse2, select2)
  {
  }

  /** The 404 of the tests is reported as `invalidResponse`, whatever the page holds. */
  lemma NotFoundIsInvalidResponse<D>(body: Option<string>, parseDocument: string -> Result<D, Cause>,
                                     selectMeta: D -> Result<seq<MetaElement>, Cause>)
    ensures ReadResponse(HttpResponse(404), body, parseDocument, selectMeta) == Failure(InvalidResponse)
  {
  }

  /** A body that is not UTF-8 is rejected before the parser is consulted. */
  lemma UndecodableBodyIgnoresParser<D>(response: UrlResponse,
                                        parse1: string -> Result<D, Cause>, select1: D -> Result<seq<MetaElement>, Cause>,
                                        parse2: string -> Result<D, Cause>, select2: D -> Result<seq<MetaElement>, Cause>)
    ensures ReadResponse(response, None, parse1, select1) == ReadResponse(response, None, parse2, select2)
  {
  }

  /** A page in which the selection finds no element (an empty page, or text that is
      not HTML) yields a response over the empty mapping, which answers nil to every
      convenience property (`EmptyResponseHasNoProperties`). */
  lemma PageWithoutMetaIsEmpty<D>(html: string, parseDocument: string -> Result<D, Cause>,
                                  selectMeta: D -> Result<seq<MetaElement>, Cause>)
    requires Selection(html, parseDocument, selectMeta) == Success([])
    ensures ReadResponse(HttpResponse(200), Some(html), parseDocument, selectMeta) == Success(Response(map[]))
  {
    assert Aggregate([]) == map[];
  }
}
