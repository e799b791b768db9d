/** The paged MET browser (app.js): a search fills `allObjectIDs`, the
    gallery shows fifty objects per page, "Load More" appends the next
    page, and the 3D viewer steps through `artworks` with wrap-around. */
module App {
  import opened JsValues
  import opened Strings
  import opened Seqs
  import opened Artworks

  const ItemsPerPage: nat := 50
  const SearchEndpoint: string := "https://collectionapi.metmuseum.org/public/collection/v1/search"
  /** The search term used when the query box is empty. */
  const DefaultQuery: string := "painting"

  // ---------------------------------------------------------------------
  // searchArtworks

  /** The URL `searchArtworks(query, departmentId)` requests; `encode`
      stands for `encodeURIComponent`. */
  function SearchUrl(query: string, departmentId: string, encode: string -> string): string {
    SearchEndpoint + "?" + SearchQuery(query, departmentId, encode)
  }

  /** The query string: `hasImages=true`, the `q` parameter, and the
      `departmentIds` parameter when a department is chosen. */
  function SearchQuery(query: string, departmentId: string, encode: string -> string): string {
    "hasImages=true"
    + (if query != "" then "&q=" + encode(query) else "&q=" + DefaultQuery)
    + (if departmentId != "" then "&departmentIds=" + departmentId else "")
  }

  /** The `name=value` pairs of a query string, in order. */
  function QueryParams(query: string): seq<(string, string)> {
    var fields := Split(query, '&');
    seq(|fields|, k requires 0 <= k < |fields| => ParamOf(fields[k]))
  }

  function ParamOf(field: string): (string, string) {
    var kv := Split(field, '=');
    (kv[0], if |kv| > 1 then kv[1] else "")
  }

  /** Characters `encodeURIComponent` never leaves in its output, and
      that `departmentIds` values (department numbers) do not contain. */
  predicate UrlSafe(s: string) {
    '?' !in s && '&' !in s && '=' !in s
  }

  /** A `name=value` field of safe parts reads back as the pair. */
  lemma ParamField(name: string, value: string)
    requires UrlSafe(name) && UrlSafe(value)
    ensures ParamOf(name + "=" + value) == (name, value)
    ensures '&' !in name + "=" + value && '?' !in name + "=" + value
  {
    assert name + "=" + value == name + ['='] + value;
    SplitAfterHead(name, value, '=');
    SplitNoSeparator(value, '=');
  }

  /** Fields without '&' joined by '&' split back into those fields. */
  lemma SplitFields(fields: seq<string>)
    requires |fields| >= 1
    requires forall k :: 0 <= k < |fields| ==> '&' !in fields[k]
    ensures Split(Join(fields, "&"), '&') == fields
    decreases |fields|
  {
    if |fields| == 1 {
      SplitNoSeparator(fields[0], '&');
    } else {
      SplitFields(fields[1..]);
      assert Join(fields, "&") == fields[0] + ['&'] + Join(fields[1..], "&");
      SplitAfterHead(fields[0], Join(fields[1..], "&"), '&');
      assert fields == [fields[0]] + fields[1..];
    }
  }

  lemma JoinTwo(a: string, b: string, sep: string)
    ensures Join([a, b], sep) == a + sep + b
  {
    assert [a, b][1..] == [b];
  }

  lemma JoinThree(a: string, b: string, c: string, sep: string)
    ensures Join([a, b, c], sep) == a + sep + (b + sep + c)
  {
    assert [a, b, c][1..] == [b, c];
    JoinTwo(b, c, sep);
  }

  /** The `q` parameter as the source appends it: '&' then the field. */
  lemma QueryPart(v: string)
    ensures "&q=" + v == "&" + ("q" + "=" + v)
  {
  }

  lemma DepartmentPart(d: string)
    ensures "&departmentIds=" + d == "&" + ("departmentIds" + "=" + d)
  {
  }

  lemma Regroup(a: string, b: string, c: string, sep: string)
    ensures a + (sep + b) + (sep + c) == a + sep + (b + sep + c)
  {
  }

  /** The literal names and values the URL uses are URL-safe. */
  lemma LiteralsSafe()
    ensures UrlSafe("hasImages") && UrlSafe("true") && UrlSafe("q") && UrlSafe(DefaultQuery)
    ensures UrlSafe("departmentIds")
    ensures "hasImages" + "=" + "true" == "hasImages=true"
  {
  }

  /** `v` of the `q` parameter. */
  function QueryValue(query: string, encode: string -> string): string {
    if query != "" then encode(query) else DefaultQuery
  }

  /** The request goes to the search endpoint, and its query string, which
      holds no further '?', carries `hasImages=true`, then `q` (the encoded
      query, or "painting" for an empty one), then `departmentIds` exactly
      when a department was chosen. */
  lemma SearchUrlParams(query: string, departmentId: string, encode: string -> string)
    requires UrlSafe(encode(query)) && UrlSafe(departmentId)
    ensures SearchUrl(query, departmentId, encode)
      == SearchEndpoint + "?" + SearchQuery(query, departmentId, encode)
    ensures '?' !in SearchQuery(query, departmentId, encode)
    ensures QueryParams(SearchQuery(query, departmentId, encode))
      == [("hasImages", "true"), ("q", QueryValue(query, encode))]
         + (if departmentId != "" then [("departmentIds", departmentId)] else [])
  {
    var v := QueryValue(query, encode);
    LiteralsSafe();
    ParamField("hasImages", "true");
    ParamField("q", v);
    var h, q := "hasImages" + "=" + "true", "q" + "=" + v;
    QueryPart(v);
    var text := SearchQuery(query, departmentId, encode);
    if departmentId != "" {
      var d := "departmentIds" + "=" + departmentId;
      ParamField("departmentIds", departmentId);
      DepartmentPart(departmentId);
      assert text == h + ("&" + q) + ("&" + d);
      Regroup(h, q, d, "&");
      JoinThree(h, q, d, "&");
      SplitFields([h, q, d]);
      assert Split(text, '&') == [h, q, d];
    } else {
      assert text == h + ("&" + q);
      JoinTwo(h, q, "&");
      assert text == Join([h, q], "&");
      SplitFields([h, q]);
      assert Split(text, '&') == [h, q];
    }
  }

  /** The status line `searchArtworks` leaves. */
  datatype SearchStatus = NoSearch | NoArtworksFound | Found(count: nat) | SearchError

  /** What `searchArtworks` returns for the decoded response: its
      `objectIDs` (`None` when missing), or `[]` when the request failed
      or found nothing. */
  function SearchIds(response: Fetched<Option<seq<ObjectId>>>): (r: (seq<ObjectId>, SearchStatus))
    ensures response.Failed? ==> r == ([], SearchError)
    ensures response.Got? && response.value.Some? && response.value.value != [] ==>
      r == (response.value.value, Found(|response.value.value|))
    ensures response.Got? && (response.value.None? || response.value.value == []) ==>
      r == ([], NoArtworksFound)
    ensures r.0 == [] <==> r.1 in {NoArtworksFound, SearchError}
  {
    match response
    case Failed => ([], SearchError)
    case Got(None) => ([], NoArtworksFound)
    case Got(Some(ids)) => if ids == [] then ([], NoArtworksFound) else (ids, Found(|ids|))
  }

  // ---------------------------------------------------------------------
  // fetchArtworkDetails

  /** The detail responses of `ids`, `None` for a request that failed. */
  function Responses(ids: seq<ObjectId>, fetch: ObjectId -> Option<MetObject>): seq<Option<MetObject>> {
    seq(|ids|, k requires 0 <= k < |ids| => fetch(ids[k]))
  }

  /** The non-null responses, in order. */
  function Present(results: seq<Option<MetObject>>): (r: seq<MetObject>)
    ensures forall o :: o in r <==> Some(o) in results
    decreases |results|
  {
    if results == [] then []
    else
      var rest := Present(results[1..]);
      assert forall x :: x in results <==> x == results[0] || x in results[1..];
      if results[0].Some? then [results[0].value] + rest else rest
  }

  predicate HasPrimaryImage(o: MetObject) {
    Truthy(o.primaryImage)
  }

  /** `fetchArtworkDetails(objectIDs)`: the responses that are non-null
      and have a `primaryImage`, as an order-preserving subsequence. */
  function FetchArtworkDetails(ids: seq<ObjectId>, fetch: ObjectId -> Option<MetObject>): (r: seq<MetObject>)
    ensures IsSubsequence(r, Present(Responses(ids, fetch)))
    ensures forall o :: o in r <==> Some(o) in Responses(ids, fetch) && HasPrimaryImage(o)
    ensures forall o :: multiset(r)[o] == if HasPrimaryImage(o) then multiset(Present(Responses(ids, fetch)))[o] else 0
    ensures |r| <= |ids|
  {
    var present := Present(Responses(ids, fetch));
    var r := Filter(present, HasPrimaryImage);
    FilterIsSubsequence(present, HasPrimaryImage);
    forall o | o in present && HasPrimaryImage(o) ensures o in r {
      FilterKeepsPassing(present, HasPrimaryImage, o);
    }
    PresentLength(Responses(ids, fetch));
    forall o ensures multiset(r)[o] == if HasPrimaryImage(o) then multiset(present)[o] else 0 {
      FilterCount(present, HasPrimaryImage, o);
    }
    r
  }

  /** `Present` is the filter of the non-null responses: their order is
      kept, and each object appears as often as it was answered. */
  lemma {:induction false} PresentInOrder(results: seq<Option<MetObject>>)
    ensures AsSome(Present(results)) == Filter(results, IsSome)
    ensures forall o :: multiset(Present(results))[o] == multiset(results)[Some(o)]
    decreases |results|
  {
    if results != [] {
      var rest := results[1..];
      PresentInOrder(rest);
      assert results == [results[0]] + rest;
      if results[0].Some? {
        assert Present(results) == [results[0].value] + Present(rest);
        assert AsSome(Present(results)) == [results[0]] + AsSome(Present(rest));
      }
      forall o ensures multiset(Present(results))[o] == multiset(results)[Some(o)] {
        assert multiset(results) == multiset([results[0]]) + multiset(rest);
      }
    }
  }

  lemma {:induction false} PresentLength(results: seq<Option<MetObject>>)
    ensures |Present(results)| <= |results|
    decreases |results|
  {
    if results != [] {
      PresentLength(results[1..]);
    }
  }

  // ---------------------------------------------------------------------
  // Carousel index arithmetic

  /** A JavaScript number as the index handlers see it. */
  datatype JsNumber = Num(n: int) | NaN

  /** JavaScript's `a % b` on integers: the remainder takes the sign of
      the dividend, and a zero divisor gives NaN. */
  function JsRem(a: JsNumber, b: int): (r: JsNumber)
    ensures r.NaN? <==> a.NaN? || b == 0
    ensures r.Num? ==>
      && Abs(r.n) < Abs(b)
      && (a.n >= 0 ==> r.n >= 0) && (a.n < 0 ==> r.n <= 0)
      && exists q :: a.n == Times(q, Abs(b)) + r.n
  {
    if a.NaN? || b == 0 then NaN
    else if a.n >= 0 then
      var m := Abs(b);
      assert a.n == Times(a.n / m, m) + a.n % m;
      Num(a.n % m)
    else
      var m := Abs(b);
      assert -a.n == Times((-a.n) / m, m) + (-a.n) % m;
      assert a.n == Times(-((-a.n) / m), m) + -((-a.n) % m);
      Num(-((-a.n) % m))
  }

  /** `q * m`, named so that a quantifier over `q` has a term to match. */
  function Times(q: int, m: int): int {
    q * m
  }

  function Abs(x: int): nat {
    if x < 0 then -x else x
  }

  function Add(a: JsNumber, d: int): JsNumber {
    if a.NaN? then NaN else Num(a.n + d)
  }

  /** `currentArtworkIndex = (currentArtworkIndex + 1) % artworks.length`. */
  function NextIndex(i: JsNumber, n: nat): (r: JsNumber)
    ensures r.NaN? <==> i.NaN? || n == 0
    ensures r.Num? ==> Abs(r.n) < n
  {
    JsRem(Add(i, 1), n)
  }

  /** `currentArtworkIndex = (currentArtworkIndex - 1 + artworks.length) % artworks.length`. */
  function PrevIndex(i: JsNumber, n: nat): (r: JsNumber)
    ensures r.NaN? <==> i.NaN? || n == 0
    ensures r.Num? ==> Abs(r.n) < n
  {
    JsRem(Add(Add(i, -1), n), n)
  }

  /** A number usable as an index into a list of length `n`. */
  predicate InRange(i: JsNumber, n: nat) {
    i.Num? && 0 <= i.n < n
  }

  /** From any non-negative index, both buttons land inside a non-empty
      list, and with no artworks the index becomes NaN. */
  lemma StepStaysInRange(i: JsNumber, n: nat)
    requires i.Num? && i.n >= 0
    ensures n > 0 ==> InRange(NextIndex(i, n), n) && InRange(PrevIndex(i, n), n)
    ensures n == 0 ==> NextIndex(i, n) == NaN && PrevIndex(i, n) == NaN
  {
  }

  lemma ModSmall(x: int, n: int)
    requires 0 <= x < n
    ensures x % n == x
  {
  }

  lemma ModPlusOnce(x: int, n: int)
    requires 0 <= x < n
    ensures (x + n) % n == x
  {
    assert (x + n) / n == 1;
  }

  /** The next index of `i`: one further, or back to zero from the last. */
  lemma NextIndexValue(i: nat, n: nat)
    requires i < n
    ensures NextIndex(Num(i), n) == Num(if i + 1 < n then i + 1 else 0)
  {
    if i + 1 < n {
      ModSmall(i + 1, n);
    } else {
      ModPlusOnce(0, n);
    }
  }

  /** The previous index of `i`: one back, or the last from zero. */
  lemma PrevIndexValue(i: nat, n: nat)
    requires i < n
    ensures PrevIndex(Num(i), n) == Num(if i > 0 then i - 1 else n - 1)
  {
    if i > 0 {
      ModPlusOnce(i - 1, n);
    } else {
      ModSmall(n - 1, n);
    }
  }

  /** Next then previous, and previous then next, restore the index. */
  lemma NextPrevInverse(i: JsNumber, n: nat)
    requires InRange(i, n)
    ensures PrevIndex(NextIndex(i, n), n) == i
    ensures NextIndex(PrevIndex(i, n), n) == i
  {
    NextIndexValue(i.n, n);
    PrevIndexValue(i.n, n);
    var next := if i.n + 1 < n then i.n + 1 else 0;
    var prev := if i.n > 0 then i.n - 1 else n - 1;
    PrevIndexValue(next, n);
    NextIndexValue(prev, n);
  }

  // ---------------------------------------------------------------------
  // Page state

  /** A gallery element: its `data-index` and the artwork it shows. */
  datatype Tile = Tile(index: int, artwork: MetObject)

  /** The artwork modal's text. */
  datatype DetailModal = DetailModal(
    image: JsString, title: JsString, artist: string, date: string, medium: string, department: string)

  function DetailModalOf(o: MetObject): (m: DetailModal)
    ensures m.image == o.primaryImage && m.title == o.title
    ensures |m.artist| >= 8 && m.artist[..8] == "Artist: " && KeptOr(o.artistDisplayName, "Unknown", m.artist[8..])
    ensures |m.date| >= 6 && m.date[..6] == "Date: " && KeptOr(o.objectDate, "Unknown", m.date[6..])
    ensures |m.medium| >= 8 && m.medium[..8] == "Medium: " && KeptOr(o.medium, "Unknown", m.medium[8..])
    ensures |m.department| >= 12 && m.department[..12] == "Department: "
      && KeptOr(o.department, "Unknown", m.department[12..])
  {
    DetailModal(o.primaryImage, o.title,
      "Artist: " + OrElse(o.artistDisplayName, "Unknown"), "Date: " + OrElse(o.objectDate, "Unknown"),
      "Medium: " + OrElse(o.medium, "Unknown"), "Department: " + OrElse(o.department, "Unknown"))
  }

  /** The elements `renderGallery` inserts for `newArtworks` after `base`
      existing ones. */
  function TilesFrom(base: nat, newArtworks: seq<MetObject>): seq<Tile> {
    seq(|newArtworks|, k requires 0 <= k < |newArtworks| => Tile(base + k, newArtworks[k]))
  }

  /** Element `k` of the gallery shows `artworks[k]` under `data-index` k. */
  predicate TilesMatch(tiles: seq<Tile>, artworks: seq<MetObject>) {
    |tiles| == |artworks| && forall k :: 0 <= k < |tiles| ==> tiles[k] == Tile(k, artworks[k])
  }

  /** How many ids the first `page` pages cover. */
  function Covered(page: nat, total: nat): nat {
    if page * ItemsPerPage < total then page * ItemsPerPage else total
  }

  /** The module-level state of app.js that the handlers change. */
  class AppState {
    var allObjectIDs: seq<ObjectId>
    var currentPage: nat
    var artworks: seq<MetObject>
    /** The gallery's elements, in document order. */
    var tiles: seq<Tile>
    var loadMoreShown: bool
    var currentArtworkIndex: JsNumber
    var status: SearchStatus
    var modal: Option<DetailModal>
    /** The ids whose details have been requested, page by page. */
    ghost var requested: seq<ObjectId>

    /** The gallery shows `artworks` in order (or nothing, after a search
        without results), the ids of the first `currentPage` pages have
        been requested, and "Load More" is visible exactly while ids
        remain. */
    ghost predicate Valid()
      reads this
    {
      (TilesMatch(tiles, artworks) || (tiles == [] && allObjectIDs == []))
      && requested == allObjectIDs[..Covered(currentPage, |allObjectIDs|)]
      && (loadMoreShown <==> currentPage * ItemsPerPage < |allObjectIDs|)
    }

    constructor ()
      ensures Valid()
      ensures allObjectIDs == [] && currentPage == 0 && artworks == [] && tiles == []
      ensures currentArtworkIndex == Num(0) && !loadMoreShown
    {
      allObjectIDs := [];
      currentPage := 0;
      artworks := [];
      tiles := [];
      loadMoreShown := false;
      currentArtworkIndex := Num(0);
      status := NoSearch;
      modal := None;
      requested := [];
    }

    /** `renderGallery(newArtworks, append)`. */
    method RenderGallery(newArtworks: seq<MetObject>, append: bool)
      modifies this`artworks, this`tiles
      ensures artworks == (if append then old(artworks) else []) + newArtworks
      ensures tiles == (if append then old(tiles) else [])
        + TilesFrom(if append then |old(artworks)| else 0, newArtworks)
    {
      if !append {
        tiles := [];
        artworks := [];
      }
      artworks := artworks + newArtworks;
      tiles := tiles + TilesFrom(|artworks| - |newArtworks|, newArtworks);
    }

    /** `loadMore` with `fetch` giving each detail request's outcome. */
    method LoadMore(fetch: ObjectId -> Option<MetObject>)
      requires Valid()
      modifies this`artworks, this`tiles, this`currentPage, this`loadMoreShown, this`requested
      ensures Valid()
      ensures var start := old(currentPage) * ItemsPerPage;
        var pageIDs := Take(Drop(old(allObjectIDs), start), ItemsPerPage);
        (pageIDs != [] ==>
          artworks == old(artworks) + FetchArtworkDetails(pageIDs, fetch)
          && currentPage == old(currentPage) + 1
          && (start + ItemsPerPage >= |allObjectIDs| ==> !loadMoreShown))
        && (pageIDs == [] ==>
          artworks == old(artworks) && tiles == old(tiles) && currentPage == old(currentPage))
    {
      var startIndex := currentPage * ItemsPerPage;
      var endIndex := startIndex + ItemsPerPage;
      var pageIDs := Take(Drop(allObjectIDs, startIndex), ItemsPerPage);
      if pageIDs != [] {
        var newArtworks := FetchArtworkDetails(pageIDs, fetch);
        NextPage(allObjectIDs, currentPage);
        TilesAppend(tiles, artworks, newArtworks);
        RenderGallery(newArtworks, true);
        requested := requested + pageIDs;
        currentPage := currentPage + 1;
        if endIndex >= |allObjectIDs| {
          loadMoreShown := false;
        }
      }
    }

    /** The search button's handler: the response to the search URL is
        `api(url)`, the detail requests' outcomes are `fetch`. */
    method Search(query: string, departmentId: string, encode: string -> string,
                  api: string -> Fetched<Option<seq<ObjectId>>>, fetch: ObjectId -> Option<MetObject>)
      requires Valid()
      modifies this`allObjectIDs, this`currentPage, this`artworks, this`tiles, this`loadMoreShown,
        this`status, this`requested
      ensures Valid()
      ensures (allObjectIDs, status) == SearchIds(api(SearchUrl(query, departmentId, encode)))
      ensures allObjectIDs != [] ==>
        artworks == FetchArtworkDetails(Take(allObjectIDs, ItemsPerPage), fetch)
        && TilesMatch(tiles, artworks)
        && currentPage == 1
        && (loadMoreShown <==> |allObjectIDs| > ItemsPerPage)
      ensures allObjectIDs == [] ==>
        tiles == [] && !loadMoreShown && currentPage == 0 && artworks == old(artworks)
    {
      var found := SearchIds(api(SearchUrl(query, departmentId, encode)));
      allObjectIDs, status := found.0, found.1;
      currentPage := 0;
      if |allObjectIDs| > 0 {
        var initialIDs := Take(allObjectIDs, ItemsPerPage);
        var initialArtworks := FetchArtworkDetails(initialIDs, fetch);
        RenderGallery(initialArtworks, false);
        TilesAppend([], [], initialArtworks);
        assert [] + initialArtworks == initialArtworks;
        requested := initialIDs;
        currentPage := 1;
        loadMoreShown := |allObjectIDs| > ItemsPerPage;
      } else {
        tiles := [];
        requested := [];
        loadMoreShown := false;
      }
    }

    /** A gallery element's `click` handler, for element `t`. */
    method ShowArtworkDetails(t: nat)
      requires Valid() && t < |tiles|
      modifies this`modal, this`currentArtworkIndex
      ensures Valid()
      ensures tiles[t].index == t && modal == Some(DetailModalOf(artworks[t]))
      ensures currentArtworkIndex == Num(t)
    {
      var index := tiles[t].index;
      modal := Some(DetailModalOf(artworks[index]));
      currentArtworkIndex := Num(index);
    }

    /** The 3D viewer's "previous" button. */
    method Prev()
      modifies this`currentArtworkIndex
      ensures currentArtworkIndex == PrevIndex(old(currentArtworkIndex), |artworks|)
    {
      currentArtworkIndex := PrevIndex(currentArtworkIndex, |artworks|);
    }

    /** The 3D viewer's "next" button. */
    method Next()
      modifies this`currentArtworkIndex
      ensures currentArtworkIndex == NextIndex(old(currentArtworkIndex), |artworks|)
    {
      currentArtworkIndex := NextIndex(currentArtworkIndex, |artworks|);
    }
  }

  /** `s.slice(n)`. */
  function Drop<T>(s: seq<T>, n: nat): (r: seq<T>)
    ensures Take(s, n) + r == s
  {
    if n <= |s| then s[n..] else []
  }

  /** `allObjectIDs.slice(start, start + 50)`: the ids of the next page,
      empty exactly when every id has been covered. */
  lemma NextPage(all: seq<ObjectId>, page: nat)
    ensures var pageIDs := Take(Drop(all, page * ItemsPerPage), ItemsPerPage);
      (pageIDs == [] <==> page * ItemsPerPage >= |all|)
      && all[..Covered(page, |all|)] + pageIDs == all[..Covered(page + 1, |all|)]
  {
    var start := page * ItemsPerPage;
    assert (page + 1) * ItemsPerPage == start + ItemsPerPage;
    if start < |all| {
      var stop := if start + ItemsPerPage <= |all| then start + ItemsPerPage else |all|;
      assert Take(Drop(all, start), ItemsPerPage) == all[start..stop];
      assert all[..start] + all[start..stop] == all[..stop];
    } else {
      assert Covered(page + 1, |all|) == |all|;
    }
  }

  /** Appending rendered elements for appended artworks keeps the two in step. */
  lemma TilesAppend(tiles: seq<Tile>, artworks: seq<MetObject>, newArtworks: seq<MetObject>)
    requires TilesMatch(tiles, artworks)
    ensures TilesMatch(tiles + TilesFrom(|artworks|, newArtworks), artworks + newArtworks)
  {
    var t, a := tiles + TilesFrom(|artworks|, newArtworks), artworks + newArtworks;
    forall k | 0 <= k < |t| ensures t[k] == Tile(k, a[k]) {
      if k >= |tiles| {
        assert t[k] == TilesFrom(|artworks|, newArtworks)[k - |tiles|];
      }
    }
  }
}
