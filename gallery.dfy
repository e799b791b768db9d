/** The search-and-filter gallery (`ArtGallery` in gallery.js) over the
    API manager's `searchArtworks`, and the page script's `fetchArtworks`. */
module Gallery {
  import opened JsValues
  import opened Strings
  import opened Seqs
  import opened Artworks
  import opened ApiManager

  /** How `window.apiManager.searchArtworks(museum, query, filters)`
      settles: with its results, or by rejecting. */
  datatype SearchOutcome = Results(artworks: seq<ArtworkRecord>) | Threw

  const InitialMuseum: string := "met"
  const InitialQuery: string := "painting famous"
  const RecommendationMuseum: string := "chicago"
  const RecommendationQuery: string := "impressionist"
  const RecommendationCount: nat := 4
  /** `fetchArtworks` requests at most this many objects. */
  const FirstIdsCount: nat := 8

  /** The records of `artworks` a filter button shows: all of them for
      "all", otherwise those whose category has that name. */
  function FilterView(artworks: seq<ArtworkRecord>, filter: string): (r: seq<ArtworkRecord>)
    ensures filter == "all" ==> r == artworks
    ensures filter != "all" ==> |r| <= |artworks| && forall k :: 0 <= k < |r| ==> CategoryName(r[k].category) == filter
  {
    if filter == "all" then artworks else Filter(artworks, HasCategory(filter))
  }

  /** A filter view is the order-preserving part of the list with the
      chosen category (the whole list for "all"). */
  lemma FilterViewSpec(artworks: seq<ArtworkRecord>, filter: string)
    ensures IsSubsequence(FilterView(artworks, filter), artworks)
    ensures filter == "all" ==> FilterView(artworks, filter) == artworks
    ensures filter != "all" ==>
      forall a :: a in FilterView(artworks, filter) <==> a in artworks && CategoryName(a.category) == filter
    ensures filter != "all" ==>
      forall a :: multiset(FilterView(artworks, filter))[a] == (if CategoryName(a.category) == filter then multiset(artworks)[a] else 0)
  {
    if filter == "all" {
      IsSubsequenceRefl(artworks);
    } else {
      FilterIsSubsequence(artworks, HasCategory(filter));
      forall a | a in artworks && CategoryName(a.category) == filter
        ensures a in FilterView(artworks, filter)
      {
        FilterKeepsPassing(artworks, HasCategory(filter), a);
      }
      forall a ensures multiset(FilterView(artworks, filter))[a]
        == if CategoryName(a.category) == filter then multiset(artworks)[a] else 0
      {
        FilterCount(artworks, HasCategory(filter), a);
      }
    }
  }

  lemma {:induction false} IsSubsequenceRefl<T>(s: seq<T>)
    ensures IsSubsequence(s, s)
    decreases |s|
  {
    if s != [] {
      IsSubsequenceRefl(s[1..]);
    }
  }

  class ArtGallery {
    var artworks: seq<ArtworkRecord>
    var filteredArtworks: seq<ArtworkRecord>
    var currentFilter: string
    var currentMuseum: string
    var isLoading: bool
    var aiRecommendations: seq<ArtworkRecord>
    /** Whether an error message has been shown. */
    var errorShown: bool

    /** Between handlers nothing is loading and the shown records are an
        order-preserving part of the loaded ones. */
    ghost predicate Valid()
      reads this
    {
      !isLoading && IsSubsequence(filteredArtworks, artworks)
    }

    constructor ()
      ensures Valid()
      ensures artworks == [] && filteredArtworks == [] && aiRecommendations == []
      ensures currentFilter == "all" && currentMuseum == InitialMuseum && !errorShown
    {
      artworks := [];
      filteredArtworks := [];
      currentFilter := "all";
      currentMuseum := InitialMuseum;
      isLoading := false;
      aiRecommendations := [];
      errorShown := false;
    }

    /** `loadInitialArtworks`: a MET search for "painting famous" without
        filters fills both lists; a rejection shows an error. */
    method LoadInitialArtworks(api: (string, string, Filters) -> SearchOutcome)
      requires Valid()
      modifies this`artworks, this`filteredArtworks, this`errorShown
      ensures Valid()
      ensures api(InitialMuseum, InitialQuery, NoFilters).Results? ==>
        artworks == api(InitialMuseum, InitialQuery, NoFilters).artworks
        && filteredArtworks == artworks && errorShown == old(errorShown)
      ensures api(InitialMuseum, InitialQuery, NoFilters).Threw? ==>
        artworks == old(artworks) && filteredArtworks == old(filteredArtworks) && errorShown
    {
      var outcome := api(InitialMuseum, InitialQuery, NoFilters);
      if outcome.Results? {
        artworks := outcome.artworks;
        filteredArtworks := artworks;
        IsSubsequenceRefl(artworks);
      } else {
        errorShown := true;
      }
    }

    /** `loadAIRecommendations`: the first four results of an unfiltered
        Chicago search for "impressionist"; a rejection changes nothing. */
    method LoadAIRecommendations(api: (string, string, Filters) -> SearchOutcome)
      modifies this`aiRecommendations
      ensures api(RecommendationMuseum, RecommendationQuery, NoFilters).Results? ==>
        aiRecommendations == Take(api(RecommendationMuseum, RecommendationQuery, NoFilters).artworks, RecommendationCount)
      ensures api(RecommendationMuseum, RecommendationQuery, NoFilters).Threw? ==>
        aiRecommendations == old(aiRecommendations)
    {
      var outcome := api(RecommendationMuseum, RecommendationQuery, NoFilters);
      if outcome.Results? {
        aiRecommendations := Take(outcome.artworks, RecommendationCount);
      }
    }

    /** `handleSearch(query)`. A whitespace-only query shows every loaded
        record again without searching; any other query searches the
        current museum with the current filter as `category`, and the
        results replace both lists. `isLoading` is reset either way. */
    method HandleSearch(query: string, api: (string, string, Filters) -> SearchOutcome)
      requires Valid()
      modifies this`artworks, this`filteredArtworks, this`isLoading, this`errorShown
      ensures Valid()
      ensures IsBlank(query) ==>
        artworks == old(artworks) && filteredArtworks == artworks && errorShown == old(errorShown)
      ensures !IsBlank(query) && api(currentMuseum, query, Filters(Str(currentFilter))).Results? ==>
        artworks == api(currentMuseum, query, Filters(Str(currentFilter))).artworks
        && filteredArtworks == artworks && errorShown == old(errorShown)
      ensures !IsBlank(query) && api(currentMuseum, query, Filters(Str(currentFilter))).Threw? ==>
        artworks == old(artworks) && filteredArtworks == old(filteredArtworks) && errorShown
    {
      TrimEmptyIffBlank(query);
      if Trim(query) == "" {
        filteredArtworks := artworks;
        IsSubsequenceRefl(artworks);
        return;
      }
      isLoading := true;
      var outcome := api(currentMuseum, query, Filters(Str(currentFilter)));
      if outcome.Results? {
        artworks := outcome.artworks;
        filteredArtworks := outcome.artworks;
        IsSubsequenceRefl(artworks);
      } else {
        errorShown := true;
      }
      isLoading := false;
    }

    /** `handleFilter(filter)` with the search box holding `searchInput`:
        the filter view of the loaded records, then, when the box is not
        empty, the search again. */
    method HandleFilter(filter: string, searchInput: string, api: (string, string, Filters) -> SearchOutcome)
      requires Valid()
      modifies this`currentFilter, this`artworks, this`filteredArtworks, this`isLoading, this`errorShown
      ensures Valid()
      ensures currentFilter == filter
      ensures searchInput == "" ==>
        artworks == old(artworks) && filteredArtworks == FilterView(old(artworks), filter)
        && errorShown == old(errorShown)
      ensures searchInput != "" && IsBlank(searchInput) ==>
        artworks == old(artworks) && filteredArtworks == old(artworks) && errorShown == old(errorShown)
      ensures !IsBlank(searchInput) && api(old(currentMuseum), searchInput, Filters(Str(filter))).Results? ==>
        artworks == api(old(currentMuseum), searchInput, Filters(Str(filter))).artworks
        && filteredArtworks == artworks && errorShown == old(errorShown)
      ensures !IsBlank(searchInput) && api(old(currentMuseum), searchInput, Filters(Str(filter))).Threw? ==>
        artworks == old(artworks) && filteredArtworks == FilterView(old(artworks), filter) && errorShown
    {
      currentFilter := filter;
      filteredArtworks := FilterView(artworks, filter);
      FilterViewSpec(artworks, filter);
      if searchInput != "" {
        HandleSearch(searchInput, api);
      }
    }
  }

  /** A category filter chosen while the search box holds only spaces is
      undone: the records shown are all the loaded ones. */
  method WhitespaceUndoesFilter(api: (string, string, Filters) -> SearchOutcome, loaded: seq<ArtworkRecord>)
    returns (shown: seq<ArtworkRecord>, filter: string)
    requires api(InitialMuseum, InitialQuery, NoFilters) == Results(loaded)
    ensures filter == "paintings" && shown == loaded
  {
    var g := new ArtGallery();
    g.LoadInitialArtworks(api);
    g.HandleFilter("paintings", "  ", api);
    assert IsBlank("  ");
    shown, filter := g.filteredArtworks, g.currentFilter;
  }

  // ---------------------------------------------------------------------
  // fetchArtworks (page script)

  /** `Promise.all` over the detail requests: every object when all of
      them succeed, `None` as soon as one fails. */
  function AllObjects(ids: seq<ObjectId>, fetch: ObjectId -> Fetched<MetObject>): (r: Option<seq<MetObject>>)
    ensures r.Some? <==> forall j :: 0 <= j < |ids| ==> fetch(ids[j]).Got?
    ensures r.Some? ==> |r.value| == |ids| && forall j :: 0 <= j < |ids| ==> fetch(ids[j]) == Got(r.value[j])
    decreases |ids|
  {
    if ids == [] then Some([])
    else
      var rest := AllObjects(ids[1..], fetch);
      assert forall j :: 1 <= j < |ids| ==> ids[j] == ids[1..][j - 1];
      match fetch(ids[0])
      case Failed => None
      case Got(o) =>
        if rest.Some? then
          var r := [o] + rest.value;
          assert forall j :: 1 <= j < |r| ==> r[j] == rest.value[j - 1];
          Some(r)
        else None
  }

  predicate HasSmallImage(o: MetObject) {
    Truthy(o.primaryImageSmall)
  }

  /** `fetchArtworks`: the search's `objectIDs` (none when missing), cut
      to eight, fetched all together; a failed request rejects the whole
      call, and the objects without `primaryImageSmall` are dropped. */
  function FetchArtworks(search: Fetched<Option<seq<ObjectId>>>, fetch: ObjectId -> Fetched<MetObject>)
    : (r: Fetched<seq<MetObject>>)
    ensures search.Failed? ==> r.Failed?
    ensures search.Got? ==>
      var ids := Take(if search.value.Some? then search.value.value else [], FirstIdsCount);
      (r.Failed? <==> exists j :: 0 <= j < |ids| && fetch(ids[j]).Failed?)
      && (r.Got? ==> forall o :: o in r.value <==>
            (exists j :: 0 <= j < |ids| && fetch(ids[j]) == Got(o)) && HasSmallImage(o))
    ensures r.Got? ==> |r.value| <= FirstIdsCount && forall k :: 0 <= k < |r.value| ==> HasSmallImage(r.value[k])
    ensures r.Got? ==>
      var ids := Take(if search.value.Some? then search.value.value else [], FirstIdsCount);
      var objects := AllObjects(ids, fetch);
      && objects.Some? && IsSubsequence(r.value, objects.value)
      && forall o :: multiset(r.value)[o] == if HasSmallImage(o) then multiset(objects.value)[o] else 0
  {
    match search
    case Failed => Failed
    case Got(found) =>
      var ids := Take(if found.Some? then found.value else [], FirstIdsCount);
      var objects := AllObjects(ids, fetch);
      if objects.None? then Failed
      else
        var kept := Filter(objects.value, HasSmallImage);
        FilterIsSubsequence(objects.value, HasSmallImage);
        forall o ensures multiset(kept)[o] == if HasSmallImage(o) then multiset(objects.value)[o] else 0 {
          FilterCount(objects.value, HasSmallImage, o);
        }
        forall o | o in objects.value && HasSmallImage(o) ensures o in kept {
          FilterKeepsPassing(objects.value, HasSmallImage, o);
        }
        assert forall o :: o in objects.value <==> exists j :: 0 <= j < |ids| && fetch(ids[j]) == Got(o) by {
          forall o | o in objects.value ensures exists j :: 0 <= j < |ids| && fetch(ids[j]) == Got(o) {
            var j :| 0 <= j < |objects.value| && objects.value[j] == o;
            assert fetch(ids[j]) == Got(o);
          }
        }
        Got(kept)
  }
}
