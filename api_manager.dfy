/** `APIManager`: the per-museum fetch routines' post-processing, the
    dispatching, filtering and caching `searchArtworks`, the id-based
    detail lookup and `getSimilarArtworks`. Network answers are inputs. */
module ApiManager {
  import opened JsValues
  import opened Strings
  import opened Seqs
  import opened Artworks

  const MetBaseUrl := "https://collectionapi.metmuseum.org/public/collection/v1"
  const ChicagoBaseUrl := "https://api.artic.edu/api/v1"
  const HarvardKeyPlaceholder := "YOUR_HARVARD_API_KEY"
  const RijksKeyPlaceholder := "YOUR_RIJKS_API_KEY"

  /** How many MET search hits get a detail request. */
  const MetCandidateCap: nat := 20

  /** What the museum APIs answer. A search answer is the decoded list
      property of the response (`objectIDs`, `data`, `records` or
      `artObjects`), `None` when that property is missing or null; the MET
      object endpoint answers per object id. */
  datatype Network = Network(
    metSearch: string -> Fetched<Option<seq<ObjectId>>>,
    metObject: ObjectId -> Fetched<MetObject>,
    chicagoSearch: string -> Fetched<Option<seq<ChicagoArtwork>>>,
    harvardSearch: string -> Fetched<Option<seq<HarvardArtwork>>>,
    rijksSearch: string -> Fetched<Option<seq<RijksArtwork>>>)

  // ---------------------------------------------------------------------
  // Fetch routines, given the network's answers

  /** One detail request per id: a failed request or an object without a
      truthy `primaryImage` is dropped, the rest are normalised in id order. */
  function MetKeep(ids: seq<ObjectId>, fetch: ObjectId -> Fetched<MetObject>): (r: seq<ArtworkRecord>)
    ensures |r| <= |ids|
    ensures forall i :: 0 <= i < |r| ==> Truthy(r[i].image) && SourceTag(r[i].id) == MetTag
    decreases |ids|
  {
    if ids == [] then []
    else
      var head := match fetch(ids[0])
        case Failed => []
        case Got(o) => if Truthy(o.primaryImage) then [FormatMet(o)] else [];
      head + MetKeep(ids[1..], fetch)
  }

  /** `r` is the normalised form of a successful response with a truthy
      `primaryImage`. */
  predicate KeptMet(response: Fetched<MetObject>, r: ArtworkRecord) {
    response.Got? && Truthy(response.value.primaryImage) && r == FormatMet(response.value)
  }

  /** Every kept record is the normalised form of the response to one of
      the ids, and that response succeeded with a primary image. */
  lemma {:induction false} MetKeepSound(ids: seq<ObjectId>, fetch: ObjectId -> Fetched<MetObject>, i: nat)
    requires i < |MetKeep(ids, fetch)|
    ensures exists j :: 0 <= j < |ids| && KeptMet(fetch(ids[j]), MetKeep(ids, fetch)[i])
    decreases |ids|
  {
    var r := MetKeep(ids, fetch);
    var rest := MetKeep(ids[1..], fetch);
    var h := |r| - |rest|;
    assert r == r[..h] + rest;
    if i < h {
      assert KeptMet(fetch(ids[0]), r[i]);
    } else {
      MetKeepSound(ids[1..], fetch, i - h);
      var j :| 0 <= j < |ids[1..]| && KeptMet(fetch(ids[1..][j]), rest[i - h]);
      assert ids[1..][j] == ids[j + 1];
      assert r[i] == rest[i - h];
    }
  }

  /** The detail answers of `ids`, in id order, as `Promise.all` collects them. */
  function MetAnswers(ids: seq<ObjectId>, fetch: ObjectId -> Fetched<MetObject>): seq<Fetched<MetObject>> {
    seq(|ids|, k requires 0 <= k < |ids| => fetch(ids[k]))
  }

  /** A successful answer with a truthy `primaryImage`. */
  predicate Imaged(answer: Fetched<MetObject>) {
    answer.Got? && Truthy(answer.value.primaryImage)
  }

  /** Each successful answer normalised, in order. */
  function FormatAnswers(answers: seq<Fetched<MetObject>>): seq<ArtworkRecord>
    requires forall k :: 0 <= k < |answers| ==> answers[k].Got?
    decreases |answers|
  {
    if answers == [] then [] else [FormatMet(answers[0].value)] + FormatAnswers(answers[1..])
  }

  /** `MetKeep` is the imaged answers, filtered in id order and then
      normalised: one record per imaged answer, none reordered, none
      repeated or dropped. */
  lemma {:induction false} MetKeepInOrder(ids: seq<ObjectId>, fetch: ObjectId -> Fetched<MetObject>)
    ensures MetKeep(ids, fetch) == FormatAnswers(Filter(MetAnswers(ids, fetch), Imaged))
    decreases |ids|
  {
    if ids != [] {
      var answers := MetAnswers(ids, fetch);
      MetKeepInOrder(ids[1..], fetch);
      assert answers[1..] == MetAnswers(ids[1..], fetch);
      var rest := Filter(answers[1..], Imaged);
      assert answers[0] == fetch(ids[0]);
      if Imaged(answers[0]) {
        assert MetKeep(ids, fetch) == [FormatMet(answers[0].value)] + MetKeep(ids[1..], fetch);
        assert Filter(answers, Imaged) == [answers[0]] + rest;
        assert ([answers[0]] + rest)[1..] == rest;
      } else {
        assert MetKeep(ids, fetch) == MetKeep(ids[1..], fetch);
        assert Filter(answers, Imaged) == rest;
      }
    }
  }

  /** Every candidate whose detail request succeeded with a primary image
      reaches the result. */
  lemma {:induction false} MetKeepComplete(ids: seq<ObjectId>, fetch: ObjectId -> Fetched<MetObject>, i: nat)
    requires i < |ids| && fetch(ids[i]).Got? && Truthy(fetch(ids[i]).value.primaryImage)
    ensures FormatMet(fetch(ids[i]).value) in MetKeep(ids, fetch)
    decreases i
  {
    if i > 0 {
      assert ids[1..][i - 1] == ids[i];
      MetKeepComplete(ids[1..], fetch, i - 1);
    }
  }

  /** `fetchFromMET`: at most the first 20 search hits are fetched and only
      those with a primary image are kept. */
  function FetchFromMet(net: Network, query: string): (r: seq<ArtworkRecord>)
    ensures |r| <= MetCandidateCap
    ensures forall i :: 0 <= i < |r| ==> Truthy(r[i].image) && SourceTag(r[i].id) == MetTag
    ensures (net.metSearch(query).Failed? || net.metSearch(query).value.None?) ==> r == []
    ensures net.metSearch(query).Got? && net.metSearch(query).value.Some? ==>
      r == MetKeep(Take(net.metSearch(query).value.value, MetCandidateCap), net.metObject)
  {
    match net.metSearch(query)
    case Failed => []
    case Got(None) => []
    case Got(Some(ids)) =>
      if |ids| == 0 then [] else MetKeep(Take(ids, MetCandidateCap), net.metObject)
  }

  /** `fetchFromChicago`: every record of the response, normalised, in order. */
  function FetchFromChicago(net: Network, query: string): (r: seq<ArtworkRecord>)
    ensures forall i :: 0 <= i < |r| ==> SourceTag(r[i].id) == ChicagoTag
    ensures net.chicagoSearch(query).Got? && net.chicagoSearch(query).value.Some? ==>
      var data := net.chicagoSearch(query).value.value;
      |r| == |data| && forall i :: 0 <= i < |data| ==> r[i] == FormatChicago(data[i])
    ensures !(net.chicagoSearch(query).Got? && net.chicagoSearch(query).value.Some?) ==> r == []
  {
    match net.chicagoSearch(query)
    case Failed => []
    case Got(None) => []
    case Got(Some(data)) =>
      if |data| == 0 then [] else seq(|data|, i requires 0 <= i < |data| => FormatChicago(data[i]))
  }

  /** The key test shared by the Harvard and Rijksmuseum routines: a
      missing, empty or placeholder key disables the source. */
  predicate KeyConfigured(apiKey: JsString, placeholder: string) {
    Truthy(apiKey) && apiKey.s != placeholder
  }

  /** `fetchFromHarvard`: nothing is requested without a configured key. */
  function FetchFromHarvard(apiKey: JsString, net: Network, query: string): (r: seq<ArtworkRecord>)
    ensures !KeyConfigured(apiKey, HarvardKeyPlaceholder) ==> r == []
    ensures forall i :: 0 <= i < |r| ==> SourceTag(r[i].id) == HarvardTag
    ensures (KeyConfigured(apiKey, HarvardKeyPlaceholder)
      && net.harvardSearch(query).Got? && net.harvardSearch(query).value.Some?) ==>
      var records := net.harvardSearch(query).value.value;
      |r| == |records| && forall i :: 0 <= i < |records| ==> r[i] == FormatHarvard(records[i])
    ensures !(net.harvardSearch(query).Got? && net.harvardSearch(query).value.Some?) ==> r == []
  {
    if !KeyConfigured(apiKey, HarvardKeyPlaceholder) then []
    else
      match net.harvardSearch(query)
      case Failed => []
      case Got(None) => []
      case Got(Some(records)) =>
        seq(|records|, i requires 0 <= i < |records| => FormatHarvard(records[i]))
  }

  /** `fetchFromRijks`: nothing is requested without a configured key. */
  function FetchFromRijks(apiKey: JsString, net: Network, query: string): (r: seq<ArtworkRecord>)
    ensures !KeyConfigured(apiKey, RijksKeyPlaceholder) ==> r == []
    ensures forall i :: 0 <= i < |r| ==> SourceTag(r[i].id) == RijksTag
    ensures (KeyConfigured(apiKey, RijksKeyPlaceholder)
      && net.rijksSearch(query).Got? && net.rijksSearch(query).value.Some?) ==>
      var objects := net.rijksSearch(query).value.value;
      |r| == |objects| && forall i :: 0 <= i < |objects| ==> r[i] == FormatRijks(objects[i])
    ensures !(net.rijksSearch(query).Got? && net.rijksSearch(query).value.Some?) ==> r == []
  {
    if !KeyConfigured(apiKey, RijksKeyPlaceholder) then []
    else
      match net.rijksSearch(query)
      case Failed => []
      case Got(None) => []
      case Got(Some(objects)) =>
        seq(|objects|, i requires 0 <= i < |objects| => FormatRijks(objects[i]))
  }

  // ---------------------------------------------------------------------
  // searchArtworks without its cache

  /** The `filters` argument; its one recognised option is `category`
      (`Undefined` stands for `{}`). */
  datatype Filters = Filters(category: JsString)

  const NoFilters := Filters(Undefined)

  /** `JSON.stringify(filters)`: an undefined property is omitted. */
  function SerializeFilters(f: Filters): (r: string)
    ensures |r| >= 2 && r[0] == '{' && r[|r| - 1] == '}'
    ensures f.category.Undefined? <==> r == "{}"
  {
    match f.category
    case Undefined => "{}"
    case Null => "{\"category\":null}"
    case Str(c) => "{\"category\":\"" + c + "\"}"
  }

  /** `${museum}_${query}_${JSON.stringify(filters)}`. */
  function CacheKey(museum: string, query: string, f: Filters): (r: string)
    ensures '_' !in museum ==> Split(r, '_')[0] == museum
  {
    var rest := query + "_" + SerializeFilters(f);
    assert museum + "_" + query + "_" + SerializeFilters(f) == museum + ['_'] + rest;
    if '_' !in museum then
      SplitAfterHead(museum, rest, '_');
      museum + ['_'] + rest
    else
      museum + ['_'] + rest
  }

  /** The three shapes `JSON.stringify` gives: `{}`, the 17 characters
      with `null`, or a quoted value that starts at index 12. */
  lemma SerializeShape(f: Filters)
    ensures f.category.Undefined? ==> |SerializeFilters(f)| == 2
    ensures f.category.Null? ==> |SerializeFilters(f)| == 17 && SerializeFilters(f)[12] == 'n'
    ensures f.category.Str? ==> |SerializeFilters(f)| >= 15 && SerializeFilters(f)[12] == '"'
  {
  }

  /** Different filters give different serialisations. */
  lemma SerializeFiltersInjective(f: Filters, g: Filters)
    requires SerializeFilters(f) == SerializeFilters(g)
    ensures f == g
  {
    var s := SerializeFilters(f);
    SerializeShape(f);
    SerializeShape(g);
    if f.category.Str? && g.category.Str? {
      var n := |"{\"category\":\""|;
      assert f.category.s == s[n..|s| - 2];
      assert g.category.s == s[n..|s| - 2];
    }
  }

  /** Two searches of one museum and query share a cache entry only when
      their filters are the same: the key keeps the filters apart. */
  lemma CacheKeySeparatesFilters(museum: string, query: string, f: Filters, g: Filters)
    requires CacheKey(museum, query, f) == CacheKey(museum, query, g)
    ensures f == g
  {
    var prefix := museum + "_" + query + "_";
    assert CacheKey(museum, query, f) == prefix + SerializeFilters(f);
    assert CacheKey(museum, query, g) == prefix + SerializeFilters(g);
    assert SerializeFilters(f) == CacheKey(museum, query, f)[|prefix|..];
    assert SerializeFilters(g) == CacheKey(museum, query, g)[|prefix|..];
    SerializeFiltersInjective(f, g);
  }

  /** The category filter is active only for a truthy category other
      than 'all'. */
  predicate FilterActive(f: Filters) {
    Truthy(f.category) && f.category.s != "all"
  }

  function HasCategory(name: string): ArtworkRecord -> bool {
    (a: ArtworkRecord) => CategoryName(a.category) == name
  }

  /** The post-fetch category filter of `searchArtworks`. */
  function ApplyCategoryFilter(results: seq<ArtworkRecord>, f: Filters): (r: seq<ArtworkRecord>)
    ensures !FilterActive(f) ==> r == results
    ensures FilterActive(f) ==> forall i :: 0 <= i < |r| ==> CategoryName(r[i].category) == f.category.s
    ensures |r| <= |results|
  {
    if FilterActive(f) then Filter(results, HasCategory(f.category.s)) else results
  }

  /** With an active category filter the result is exactly the
      order-preserving part of the fetched records with that category. */
  lemma CategoryFilterExact(results: seq<ArtworkRecord>, f: Filters, a: ArtworkRecord)
    requires FilterActive(f)
    ensures IsSubsequence(ApplyCategoryFilter(results, f), results)
    ensures a in ApplyCategoryFilter(results, f) <==> a in results && CategoryName(a.category) == f.category.s
    ensures multiset(ApplyCategoryFilter(results, f))[a]
      == if CategoryName(a.category) == f.category.s then multiset(results)[a] else 0
  {
    FilterIsSubsequence(results, HasCategory(f.category.s));
    FilterCount(results, HasCategory(f.category.s), a);
    if a in results && CategoryName(a.category) == f.category.s {
      FilterKeepsPassing(results, HasCategory(f.category.s), a);
    }
  }

  /** The `switch (museum)` of `searchArtworks`. */
  function Dispatch(museum: string, query: string, net: Network, harvardKey: JsString, rijksKey: JsString): (r: seq<ArtworkRecord>)
    ensures museum == MetTag ==> forall i :: 0 <= i < |r| ==> SourceTag(r[i].id) == MetTag
    ensures museum == ChicagoTag ==> forall i :: 0 <= i < |r| ==> SourceTag(r[i].id) == ChicagoTag
    ensures museum == HarvardTag ==> forall i :: 0 <= i < |r| ==> SourceTag(r[i].id) == HarvardTag
    ensures museum == RijksTag ==> forall i :: 0 <= i < |r| ==> SourceTag(r[i].id) == RijksTag
    ensures museum !in {MetTag, ChicagoTag, HarvardTag, RijksTag} ==>
      var m := |FetchFromMet(net, query)|;
      && |r| == m + |FetchFromChicago(net, query)|
      && (forall i :: 0 <= i < m ==> SourceTag(r[i].id) == MetTag)
      && (forall i :: m <= i < |r| ==> SourceTag(r[i].id) == ChicagoTag)
  {
    if museum == MetTag then FetchFromMet(net, query)
    else if museum == ChicagoTag then FetchFromChicago(net, query)
    else if museum == HarvardTag then FetchFromHarvard(harvardKey, net, query)
    else if museum == RijksTag then FetchFromRijks(rijksKey, net, query)
    else FetchFromMet(net, query) + FetchFromChicago(net, query)
  }

  /** What a cache miss computes and stores. */
  function SearchResults(museum: string, query: string, f: Filters, net: Network, harvardKey: JsString, rijksKey: JsString): (r: seq<ArtworkRecord>)
    ensures museum == MetTag ==> forall i :: 0 <= i < |r| ==> SourceTag(r[i].id) == MetTag
    ensures museum == ChicagoTag ==> forall i :: 0 <= i < |r| ==> SourceTag(r[i].id) == ChicagoTag
    ensures museum == HarvardTag ==> forall i :: 0 <= i < |r| ==> SourceTag(r[i].id) == HarvardTag
    ensures museum == RijksTag ==> forall i :: 0 <= i < |r| ==> SourceTag(r[i].id) == RijksTag
  {
    ApplyCategoryFilter(Dispatch(museum, query, net, harvardKey, rijksKey), f)
  }

  /** Any other museum value searches MET and Chicago: the result is the
      (filtered) MET records followed by the (filtered) Chicago records,
      never interleaved. */
  lemma AggregateOrder(museum: string, query: string, f: Filters, net: Network, harvardKey: JsString, rijksKey: JsString)
    requires museum != MetTag && museum != ChicagoTag && museum != HarvardTag && museum != RijksTag
    ensures var met := ApplyCategoryFilter(FetchFromMet(net, query), f);
      var chicago := ApplyCategoryFilter(FetchFromChicago(net, query), f);
      && SearchResults(museum, query, f, net, harvardKey, rijksKey) == met + chicago
      && (forall i :: 0 <= i < |met| ==> SourceTag(met[i].id) == MetTag)
      && (forall i :: 0 <= i < |chicago| ==> SourceTag(chicago[i].id) == ChicagoTag)
  {
    var met, chicago := FetchFromMet(net, query), FetchFromChicago(net, query);
    if FilterActive(f) {
      FilterConcat(met, chicago, HasCategory(f.category.s));
    }
  }

  /** With the keys as shipped (the placeholders) Harvard and Rijksmuseum
      searches return nothing, whatever the network would answer. */
  lemma ShippedKeysDisableSources(net: Network, query: string, f: Filters)
    ensures SearchResults(HarvardTag, query, f, net, Str(HarvardKeyPlaceholder), Str(RijksKeyPlaceholder)) == []
    ensures SearchResults(RijksTag, query, f, net, Str(HarvardKeyPlaceholder), Str(RijksKeyPlaceholder)) == []
  {
  }

  // ---------------------------------------------------------------------
  // getArtworkDetails

  /** The request `getArtworkDetails` sends for an id: the source tag and
      native id are the first two pieces of `artworkId.split('_')`; only
      MET and Chicago ids are looked up, any other tag gives null. */
  function ArtworkDetailsUrl(artworkId: string): (r: Option<string>)
    ensures r.Some? <==> SourceTag(artworkId) == MetTag || SourceTag(artworkId) == ChicagoTag
  {
    var parts := Split(artworkId, '_');
    var id := if |parts| > 1 then parts[1] else "undefined";
    if parts[0] == MetTag then Some(MetBaseUrl + "/objects/" + id)
    else if parts[0] == ChicagoTag then Some(ChicagoBaseUrl + "/artworks/" + id)
    else None
  }

  /** The detail lookup recovers the source and the native id of a
      normalised MET or Chicago record (native ids without '_'), and
      finds nothing to fetch for Harvard and Rijksmuseum records. */
  lemma DetailsRecoverSource(m: MetObject, c: ChicagoArtwork, h: HarvardArtwork, k: RijksArtwork)
    ensures '_' !in Render(m.objectID) ==>
      ArtworkDetailsUrl(FormatMet(m).id) == Some(MetBaseUrl + "/objects/" + Render(m.objectID))
    ensures '_' !in Render(c.id) ==>
      ArtworkDetailsUrl(FormatChicago(c).id) == Some(ChicagoBaseUrl + "/artworks/" + Render(c.id))
    ensures ArtworkDetailsUrl(FormatHarvard(h).id) == None
    ensures ArtworkDetailsUrl(FormatRijks(k).id) == None
  {
    TaggedIdSplit(MetTag, m.objectID);
    TaggedIdSplit(ChicagoTag, c.id);
    if '_' !in Render(m.objectID) { SplitNoSeparator(Render(m.objectID), '_'); }
    if '_' !in Render(c.id) { SplitNoSeparator(Render(c.id), '_'); }
  }

  // ---------------------------------------------------------------------
  // getSimilarArtworks

  predicate IsSearchTerm(t: JsString) {
    Truthy(t) && t.s != "Unknown Artist"
  }

  /** The search terms of `getSimilarArtworks`: artist, classification,
      style and period, keeping the truthy ones other than 'Unknown Artist'. */
  function SimilarTerms(a: ArtworkRecord): (terms: seq<string>)
    ensures |terms| <= 4
    ensures forall i :: 0 <= i < |terms| ==> terms[i] != "" && terms[i] != "Unknown Artist"
    ensures IsSearchTerm(Str(a.artist)) ==> |terms| > 0 && terms[0] == a.artist
  {
    var kept := Filter(SimilarFields(a), IsSearchTerm);
    seq(|kept|, i requires 0 <= i < |kept| => kept[i].s)
  }

  /** The terms are exactly the texts of the fields that qualify. */
  lemma SimilarTermsExact(a: ArtworkRecord)
    ensures forall t :: t in SimilarTerms(a) <==> exists f :: f in SimilarFields(a) && IsSearchTerm(f) && f.s == t
  {
    var fields := SimilarFields(a);
    var kept := Filter(fields, IsSearchTerm);
    var terms := SimilarTerms(a);
    assert |terms| == |kept| && forall i :: 0 <= i < |kept| ==> terms[i] == kept[i].s;
    forall t | t in terms ensures exists f :: f in fields && IsSearchTerm(f) && f.s == t {
      var i :| 0 <= i < |terms| && terms[i] == t;
      assert kept[i] in kept;
      FilterKeepsPassing(fields, IsSearchTerm, kept[i]);
    }
    forall f | f in fields && IsSearchTerm(f) ensures f.s in terms {
      FilterKeepsPassing(fields, IsSearchTerm, f);
      var i :| 0 <= i < |kept| && kept[i] == f;
      assert terms[i] == f.s;
    }
  }

  /** The fields `getSimilarArtworks` draws its terms from, in order. */
  function SimilarFields(a: ArtworkRecord): seq<JsString> {
    [Str(a.artist), a.classification, a.style, a.period]
  }

  function OtherThan(id: string): ArtworkRecord -> bool {
    (a: ArtworkRecord) => a.id != id
  }

  // ---------------------------------------------------------------------
  // The manager object and its cache

  class APIManager {
    /** Result sets by cache key. */
    var cache: map<string, seq<ArtworkRecord>>
    /** How many cache misses went to the network. */
    ghost var dispatches: nat
    const harvardApiKey: JsString
    const rijksApiKey: JsString

    constructor ()
      ensures cache == map[] && dispatches == 0
      ensures harvardApiKey == Str(HarvardKeyPlaceholder) && rijksApiKey == Str(RijksKeyPlaceholder)
    {
      cache := map[];
      dispatches := 0;
      harvardApiKey := Str(HarvardKeyPlaceholder);
      rijksApiKey := Str(RijksKeyPlaceholder);
    }

    /** `searchArtworks`: a hit returns the stored sequence and touches
        nothing; a miss dispatches, filters and stores the result, even an
        empty one. */
    method SearchArtworks(museum: string, query: string, filters: Filters, net: Network)
      returns (results: seq<ArtworkRecord>)
      modifies this
      ensures var key := CacheKey(museum, query, filters);
        if key in old(cache) then
          results == old(cache)[key] && cache == old(cache) && dispatches == old(dispatches)
        else
          && results == SearchResults(museum, query, filters, net, harvardApiKey, rijksApiKey)
          && cache == old(cache)[key := results] && dispatches == old(dispatches) + 1
    {
      var key := CacheKey(museum, query, filters);
      if key in cache {
        return cache[key];
      }
      results := Dispatch(museum, query, net, harvardApiKey, rijksApiKey);
      dispatches := dispatches + 1;
      results := ApplyCategoryFilter(results, filters);
      cache := cache[key := results];
    }

    /** The ten-minute expiry callback of one key, as an explicit step. */
    method Expire(key: string)
      modifies this
      ensures cache == old(cache) - {key} && dispatches == old(dispatches)
    {
      cache := cache - {key};
    }

    /** `getSimilarArtworks`: an unfiltered all-museum search (through the
        cache) on the artwork's terms, without the artwork itself, cut to
        `limit` results. */
    method GetSimilarArtworks(artwork: ArtworkRecord, limit: nat, net: Network)
      returns (similar: seq<ArtworkRecord>)
      modifies this
      ensures |similar| <= limit
      ensures forall i :: 0 <= i < |similar| ==> similar[i].id != artwork.id
      ensures var key := CacheKey("all", Join(SimilarTerms(artwork), " "), NoFilters);
        var found := if key in old(cache) then old(cache)[key]
          else SearchResults("all", Join(SimilarTerms(artwork), " "), NoFilters, net, harvardApiKey, rijksApiKey);
        similar == Take(Filter(found, OtherThan(artwork.id)), limit)
      ensures var key := CacheKey("all", Join(SimilarTerms(artwork), " "), NoFilters);
        if key in old(cache) then
          cache == old(cache) && dispatches == old(dispatches)
        else
          && cache == old(cache)[key := SearchResults("all", Join(SimilarTerms(artwork), " "), NoFilters, net, harvardApiKey, rijksApiKey)]
          && dispatches == old(dispatches) + 1
    {
      var terms := Join(SimilarTerms(artwork), " ");
      var results := SearchArtworks("all", terms, NoFilters, net);
      similar := Take(Filter(results, OtherThan(artwork.id)), limit);
    }
  }

  /** Two identical searches fetch once; after the key expires the same
      search fetches again. */
  method CacheScenario(net: Network, later: Network)
    returns (first: seq<ArtworkRecord>, second: seq<ArtworkRecord>, third: seq<ArtworkRecord>)
    ensures first == SearchResults("met", "cats", NoFilters, net, Str(HarvardKeyPlaceholder), Str(RijksKeyPlaceholder))
    ensures second == first
    ensures third == SearchResults("met", "cats", NoFilters, later, Str(HarvardKeyPlaceholder), Str(RijksKeyPlaceholder))
  {
    var manager := new APIManager();
    first := manager.SearchArtworks("met", "cats", NoFilters, net);
    second := manager.SearchArtworks("met", "cats", NoFilters, later);
    assert manager.dispatches == 1;
    manager.Expire(CacheKey("met", "cats", NoFilters));
    third := manager.SearchArtworks("met", "cats", NoFilters, later);
    assert manager.dispatches == 2;
  }
}
