/** The timeline gallery (`PinterestGallery`): it loads an evenly spaced
    sample of the MET collection in batches, keeps the objects that have a
    small image and a begin date, sorts them by date, and shows those whose
    begin date lies within fifty years of the slider's year, optionally
    narrowed to one kind of object. */
module Timeline {
  import opened JsValues
  import opened Strings
  import opened Seqs
  import opened Artworks

  /** Most ids sampled from the catalogue. */
  const SampleLimit: nat := 500
  /** Ids fetched per round of parallel requests. */
  const BatchSize: nat := 20
  /** Half-width of the year window. */
  const YearRange: int := 50
  const InitialYear: int := 1900
  const InitialFilter: string := "all"
  /** `truncateTitle`'s default `maxLength`. */
  const TitleLength: nat := 50

  // ---------------------------------------------------------------------
  // sampleArtworks

  /** `Math.floor(objectIDs.length / sampleSize)`; for a zero sample size
      the loop never runs, so the step is irrelevant there. */
  function SampleStep(len: nat, sampleSize: nat): nat {
    if sampleSize == 0 then 0 else len / sampleSize
  }

  /** The index the loop reads after `k` steps of `step` from `i`. */
  function Pos(i: nat, k: nat, step: nat): int {
    i + k * step
  }

  /** What the sampling loop pushes from index `i` on, with `remaining`
      places left in the sample. */
  function SampleFrom<T>(ids: seq<T>, step: nat, i: nat, remaining: nat): seq<T>
    decreases remaining
  {
    if i < |ids| && remaining > 0 then [ids[i]] + SampleFrom(ids, step, i + step, remaining - 1) else []
  }

  /** `sampleArtworks(objectIDs, sampleSize)` as a value. */
  function Sample<T>(ids: seq<T>, sampleSize: nat): seq<T> {
    SampleFrom(ids, SampleStep(|ids|, sampleSize), 0, sampleSize)
  }

  /** The loop of `sampleArtworks`. */
  method SampleArtworks<T>(objectIDs: seq<T>, sampleSize: nat) returns (sampled: seq<T>)
    ensures sampled == Sample(objectIDs, sampleSize)
  {
    var step := SampleStep(|objectIDs|, sampleSize);
    sampled := [];
    var i: nat := 0;
    while i < |objectIDs| && |sampled| < sampleSize
      invariant |sampled| <= sampleSize
      invariant sampled + SampleFrom(objectIDs, step, i, sampleSize - |sampled|) == Sample(objectIDs, sampleSize)
      decreases sampleSize - |sampled|
    {
      assert SampleFrom(objectIDs, step, i, sampleSize - |sampled|)
        == [objectIDs[i]] + SampleFrom(objectIDs, step, i + step, sampleSize - |sampled| - 1);
      sampled := sampled + [objectIDs[i]];
      i := i + step;
    }
  }

  /** The `k`-th sampled element is the one `k` steps from the start, and
      the loop only stops early when the next index runs off the end. */
  lemma {:induction false} SampleFromIndices<T>(ids: seq<T>, step: nat, i: nat, remaining: nat)
    ensures |SampleFrom(ids, step, i, remaining)| <= remaining
    ensures forall k :: 0 <= k < |SampleFrom(ids, step, i, remaining)| ==>
      Pos(i, k, step) < |ids| && SampleFrom(ids, step, i, remaining)[k] == ids[Pos(i, k, step)]
    ensures forall k :: 0 <= k < remaining && Pos(i, k, step) < |ids| ==>
      k < |SampleFrom(ids, step, i, remaining)|
    decreases remaining
  {
    var r := SampleFrom(ids, step, i, remaining);
    if i < |ids| && remaining > 0 {
      var rest := SampleFrom(ids, step, i + step, remaining - 1);
      SampleFromIndices(ids, step, i + step, remaining - 1);
      assert r == [ids[i]] + rest;
      forall k | 0 < k < |r|
        ensures Pos(i, k, step) < |ids| && r[k] == ids[Pos(i, k, step)]
      {
        assert Pos(i, k, step) == Pos(i + step, k - 1, step);
        assert r[k] == rest[k - 1];
      }
      assert Pos(i, 0, step) == i;
      forall k | 0 < k < remaining && Pos(i, k, step) < |ids|
        ensures k < |r|
      {
        assert Pos(i, k, step) == Pos(i + step, k - 1, step);
      }
    } else {
      forall k | 0 <= k < remaining
        ensures Pos(i, k, step) >= |ids|
      {
        assert k * step >= 0;
      }
    }
  }

  /** With `1 <= n <= len` the step is at least one and the last of the
      `n` evenly spaced indices is still inside the list. */
  lemma StepFits(k: nat, n: nat, len: nat)
    requires k < n <= len
    ensures Pos(0, k, SampleStep(len, n)) < len
  {
    var q := len / n;
    QuotientBounds(len, n);
    MulMonotone(k, n - 1, q);
    assert (n - 1) * q == n * q - q;
    assert Pos(0, k, SampleStep(len, n)) == k * q;
  }

  lemma QuotientBounds(len: nat, n: nat)
    requires 0 < n <= len
    ensures 1 <= len / n && n * (len / n) <= len
  {
    var q := len / n;
    var r := len % n;
    assert len == n * q + r && 0 <= r < n;
    if q == 0 {
      assert false;
    }
  }

  lemma MulMonotone(a: nat, b: nat, q: nat)
    requires a <= b
    ensures a * q <= b * q
  {
    assert b * q - a * q == (b - a) * q;
  }

  /** What `sampleArtworks` returns: at most `sampleSize` ids, the `k`-th
      being `objectIDs[k * step]`, and exactly `sampleSize` of them, at
      strictly increasing indices, whenever the catalogue has that many. */
  lemma SampleSpec<T>(ids: seq<T>, n: nat)
    ensures |Sample(ids, n)| <= n
    ensures forall k :: 0 <= k < |Sample(ids, n)| ==>
      Pos(0, k, SampleStep(|ids|, n)) < |ids| && Sample(ids, n)[k] == ids[Pos(0, k, SampleStep(|ids|, n))]
    ensures n <= |ids| ==> |Sample(ids, n)| == n
    ensures n <= |ids| ==> forall k :: 0 <= k < n - 1 ==>
      Pos(0, k, SampleStep(|ids|, n)) < Pos(0, k + 1, SampleStep(|ids|, n))
  {
    var step := SampleStep(|ids|, n);
    SampleFromIndices(ids, step, 0, n);
    if 0 < n <= |ids| {
      StepFits(n - 1, n, |ids|);
      assert n - 1 < |Sample(ids, n)|;
      assert step >= 1 by {
        assert |ids| / n >= 1;
      }
      forall k | 0 <= k < n - 1 ensures Pos(0, k, step) < Pos(0, k + 1, step) {
        assert (k + 1) * step == k * step + step;
      }
    }
  }

  /** Sampling the whole catalogue keeps it as it is. */
  lemma SampleAll<T>(ids: seq<T>)
    ensures Sample(ids, |ids|) == ids
  {
    SampleSpec(ids, |ids|);
    var r := Sample(ids, |ids|);
    if ids != [] {
      assert SampleStep(|ids|, |ids|) == 1;
      forall k | 0 <= k < |r| ensures r[k] == ids[k] {
        assert Pos(0, k, 1) == k;
      }
    }
  }

  // ---------------------------------------------------------------------
  // Batches of requests

  /** The slices `ids.slice(i, i + 20)` for `i = 0, 20, 40, ...`. */
  function Batches<T>(ids: seq<T>): seq<seq<T>>
    decreases |ids|
  {
    if ids == [] then []
    else
      var k := if |ids| < BatchSize then |ids| else BatchSize;
      [ids[..k]] + Batches(ids[k..])
  }

  /** The loop that builds `batches`. */
  method MakeBatches<T>(ids: seq<T>) returns (batches: seq<seq<T>>)
    ensures batches == Batches(ids)
  {
    batches := [];
    var i: nat := 0;
    while i < |ids|
      invariant batches + Batches(ids[Min(i, |ids|)..]) == Batches(ids)
      decreases |ids| - i
    {
      var hi := Min(i + BatchSize, |ids|);
      BatchesStep(ids, i);
      batches := batches + [ids[i..hi]];
      i := i + BatchSize;
    }
    assert ids[|ids|..] == [];
  }

  function Min(a: int, b: int): int {
    if a <= b then a else b
  }

  /** The batches from index `i` on: the slice at `i`, then the rest. */
  lemma BatchesStep<T>(ids: seq<T>, i: nat)
    requires i < |ids|
    ensures Batches(ids[i..]) == [ids[i..Min(i + BatchSize, |ids|)]] + Batches(ids[Min(i + BatchSize, |ids|)..])
  {
    var hi := Min(i + BatchSize, |ids|);
    var tail := ids[i..];
    assert tail[..hi - i] == ids[i..hi];
    assert tail[hi - i..] == ids[hi..];
  }

  /** Pushing the batches one after the other gives back the sampled ids,
      and every batch holds between one and twenty ids, twenty in all but
      the last. */
  lemma {:induction false} BatchesSpec<T>(ids: seq<T>)
    ensures Concat(Batches(ids)) == ids
    ensures forall j :: 0 <= j < |Batches(ids)| ==> 1 <= |Batches(ids)[j]| <= BatchSize
    ensures forall j :: 0 <= j < |Batches(ids)| - 1 ==> |Batches(ids)[j]| == BatchSize
    decreases |ids|
  {
    if ids != [] {
      var k := if |ids| < BatchSize then |ids| else BatchSize;
      var b := Batches(ids);
      BatchesSpec(ids[k..]);
      assert b == [ids[..k]] + Batches(ids[k..]);
      assert b[1..] == Batches(ids[k..]);
      assert ids[..k] + ids[k..] == ids;
      forall j | 1 <= j < |b| ensures b[j] == Batches(ids[k..])[j - 1] { }
      if k < BatchSize {
        assert ids[k..] == [];
      }
    }
  }

  // ---------------------------------------------------------------------
  // Keeping the usable objects

  /** `artwork && artwork.primaryImageSmall && artwork.objectBeginDate`. */
  predicate Usable(o: MetObject) {
    Truthy(o.primaryImageSmall) && o.objectBeginDate != 0
  }

  /** The batch's responses, `null` (`None`) for a request that failed,
      filtered to the usable objects. */
  function KeepValid(ids: seq<ObjectId>, fetch: ObjectId -> Option<MetObject>): (r: seq<MetObject>)
    ensures |r| <= |ids|
    ensures forall k :: 0 <= k < |r| ==> Usable(r[k])
    ensures forall k :: 0 <= k < |r| ==> exists j :: 0 <= j < |ids| && fetch(ids[j]) == Some(r[k])
    decreases |ids|
  {
    if ids == [] then []
    else
      var rest := KeepValid(ids[1..], fetch);
      var head := fetch(ids[0]);
      if head.Some? && Usable(head.value) then
        var r := [head.value] + rest;
        assert forall k :: 1 <= k < |r| ==> r[k] == rest[k - 1];
        assert forall j :: 0 <= j < |ids| - 1 ==> ids[1..][j] == ids[j + 1];
        r
      else
        assert forall j :: 0 <= j < |ids| - 1 ==> ids[1..][j] == ids[j + 1];
        rest
  }

  /** The batch's responses, in id order, as `Promise.all` collects them. */
  function BatchResponses(ids: seq<ObjectId>, fetch: ObjectId -> Option<MetObject>): seq<Option<MetObject>> {
    seq(|ids|, k requires 0 <= k < |ids| => fetch(ids[k]))
  }

  predicate UsableResponse(v: Option<MetObject>) {
    v.Some? && Usable(v.value)
  }

  /** `KeepValid` is the filter of the batch's usable responses, in id
      order. */
  lemma {:induction false} KeepValidInOrder(ids: seq<ObjectId>, fetch: ObjectId -> Option<MetObject>)
    ensures AsSome(KeepValid(ids, fetch)) == Filter(BatchResponses(ids, fetch), UsableResponse)
    decreases |ids|
  {
    if ids != [] {
      var responses := BatchResponses(ids, fetch);
      KeepValidInOrder(ids[1..], fetch);
      assert responses[1..] == BatchResponses(ids[1..], fetch);
      var rest := KeepValid(ids[1..], fetch);
      var kept := Filter(responses[1..], UsableResponse);
      assert AsSome(rest) == kept;
      if UsableResponse(responses[0]) {
        assert KeepValid(ids, fetch) == [responses[0].value] + rest;
        AsSomeCons(responses[0].value, rest);
        assert Filter(responses, UsableResponse) == [responses[0]] + kept;
      } else {
        assert KeepValid(ids, fetch) == rest;
        assert Filter(responses, UsableResponse) == kept;
      }
    }
  }

  /** Each usable object is kept as often as it was answered, any other
      object never. */
  lemma {:induction false} KeepValidCount(ids: seq<ObjectId>, fetch: ObjectId -> Option<MetObject>, o: MetObject)
    ensures multiset(KeepValid(ids, fetch))[o] == if Usable(o) then multiset(BatchResponses(ids, fetch))[Some(o)] else 0
    decreases |ids|
  {
    if ids != [] {
      var responses := BatchResponses(ids, fetch);
      KeepValidCount(ids[1..], fetch, o);
      assert responses[1..] == BatchResponses(ids[1..], fetch);
      assert responses == [responses[0]] + responses[1..];
      var rest := KeepValid(ids[1..], fetch);
      if UsableResponse(responses[0]) {
        assert KeepValid(ids, fetch) == [responses[0].value] + rest;
      } else {
        assert KeepValid(ids, fetch) == rest;
      }
    }
  }

  /** Every usable response is kept. */
  lemma {:induction false} KeepValidComplete(ids: seq<ObjectId>, fetch: ObjectId -> Option<MetObject>, j: nat)
    requires j < |ids| && fetch(ids[j]).Some? && Usable(fetch(ids[j]).value)
    ensures fetch(ids[j]).value in KeepValid(ids, fetch)
    decreases |ids|
  {
    if j > 0 {
      assert ids[1..][j - 1] == ids[j];
      KeepValidComplete(ids[1..], fetch, j - 1);
    }
  }

  /** Filtering batch by batch keeps what filtering all at once keeps,
      in the same order. */
  lemma {:induction false} KeepValidConcat(a: seq<ObjectId>, b: seq<ObjectId>, fetch: ObjectId -> Option<MetObject>)
    ensures KeepValid(a + b, fetch) == KeepValid(a, fetch) + KeepValid(b, fetch)
    decreases |a|
  {
    if a == [] {
      assert a + b == b;
    } else {
      assert (a + b)[0] == a[0];
      assert (a + b)[1..] == a[1..] + b;
      KeepValidConcat(a[1..], b, fetch);
    }
  }

  /** Pushing the next batch's usable responses is filtering one more batch. */
  /** One more turn of the batch loop keeps the pushed objects equal to
      the usable responses of the batches so far. */
  lemma PushBatch(start: seq<MetObject>, current: seq<MetObject>, bs: seq<seq<ObjectId>>, b: nat,
                  fetch: ObjectId -> Option<MetObject>)
    requires b < |bs| && current == start + KeepValid(Concat(bs[..b]), fetch)
    ensures current + KeepValid(bs[b], fetch) == start + KeepValid(Concat(bs[..b + 1]), fetch)
  {
    KeepValidNextBatch(bs, b, fetch);
  }

  lemma KeepValidNextBatch(bs: seq<seq<ObjectId>>, b: nat, fetch: ObjectId -> Option<MetObject>)
    requires b < |bs|
    ensures KeepValid(Concat(bs[..b + 1]), fetch) == KeepValid(Concat(bs[..b]), fetch) + KeepValid(bs[b], fetch)
  {
    assert bs[..b + 1] == bs[..b] + [bs[b]];
    ConcatSnoc(bs[..b], bs[b]);
    KeepValidConcat(Concat(bs[..b]), bs[b], fetch);
  }

  // ---------------------------------------------------------------------
  // Sorting by begin date

  /** Non-decreasing `objectBeginDate`. */
  predicate SortedByDate(s: seq<MetObject>) {
    forall i, j :: 0 <= i < j < |s| ==> s[i].objectBeginDate <= s[j].objectBeginDate
  }

  /** Inserts `o` before the first element that does not begin before it. */
  function Insert(o: MetObject, s: seq<MetObject>): (r: seq<MetObject>)
    requires SortedByDate(s)
    ensures |r| == |s| + 1
    ensures r[0] == o || (s != [] && r[0] == s[0])
    ensures SortedByDate(r)
    ensures multiset(r) == multiset(s) + multiset{o}
    decreases |s|
  {
    if s == [] then [o]
    else if o.objectBeginDate <= s[0].objectBeginDate then
      ConsSorted(o, s);
      [o] + s
    else
      assert s == [s[0]] + s[1..];
      var rest := Insert(o, s[1..]);
      assert s[0].objectBeginDate <= rest[0].objectBeginDate;
      ConsSorted(s[0], rest);
      [s[0]] + rest
  }

  /** An element no later than the head of a sorted list can go in front. */
  lemma ConsSorted(x: MetObject, s: seq<MetObject>)
    requires SortedByDate(s)
    requires s != [] ==> x.objectBeginDate <= s[0].objectBeginDate
    ensures SortedByDate([x] + s)
  {
    var r := [x] + s;
    forall i, j | 0 <= i < j < |r| ensures r[i].objectBeginDate <= r[j].objectBeginDate {
      if i == 0 {
        assert r[j] == s[j - 1];
        assert s[0].objectBeginDate <= s[j - 1].objectBeginDate;
      } else {
        assert r[i] == s[i - 1] && r[j] == s[j - 1];
      }
    }
  }

  /** `allArtworks.sort((a, b) => a.objectBeginDate - b.objectBeginDate)`:
      the list in non-decreasing order of begin date, with the same
      elements. */
  function SortByDate(s: seq<MetObject>): (r: seq<MetObject>)
    ensures SortedByDate(r)
    ensures multiset(r) == multiset(s)
    decreases |s|
  {
    if s == [] then []
    else
      assert s == [s[0]] + s[1..];
      Insert(s[0], SortByDate(s[1..]))
  }

  // ---------------------------------------------------------------------
  // filterByYear

  /** Begin date within `YearRange` years of `year`, both ends included. */
  predicate InWindow(o: MetObject, year: int) {
    year - YearRange <= o.objectBeginDate <= year + YearRange
  }

  /** The keyword each filter button looks for; other filters have none. */
  function FilterKeyword(filter: string): Option<string> {
    if filter == "painting" then Some("painting")
    else if filter == "sculpture" then Some("sculpture")
    else if filter == "ceramics" then Some("ceramic")
    else if filter == "textiles" then Some("textile")
    else None
  }

  /** The keyword occurs in the lower-cased classification or object name. */
  predicate HasKeyword(o: MetObject, keyword: string) {
    Contains(Lower(OrElse(o.classification, "")), keyword)
    || Contains(Lower(OrElse(o.objectName, "")), keyword)
  }

  /** The predicate `filterByYear` passes to `filter`. */
  predicate Shown(o: MetObject, filter: string, year: int) {
    if filter == "all" then InWindow(o, year)
    else match FilterKeyword(filter)
      case None => InWindow(o, year)
      case Some(keyword) => InWindow(o, year) && HasKeyword(o, keyword)
  }

  function YearFilter(all: seq<MetObject>, filter: string, year: int): (r: seq<MetObject>)
    ensures |r| <= |all|
    ensures forall k :: 0 <= k < |r| ==> r[k] in all && Shown(r[k], filter, year)
  {
    Filter(all, (o: MetObject) => Shown(o, filter, year))
  }

  /** The displayed artworks are, in their original order, exactly those
      in the year window that carry the filter's keyword. */
  lemma YearFilterSpec(all: seq<MetObject>, filter: string, year: int)
    ensures IsSubsequence(YearFilter(all, filter, year), all)
    ensures forall o :: o in YearFilter(all, filter, year) <==> o in all && Shown(o, filter, year)
    ensures forall o :: o in YearFilter(all, filter, year) ==> InWindow(o, year)
  {
    var p := (o: MetObject) => Shown(o, filter, year);
    FilterIsSubsequence(all, p);
    forall o | o in all && Shown(o, filter, year) ensures o in YearFilter(all, filter, year) {
      FilterKeepsPassing(all, p, o);
    }
  }

  /** A filter without a keyword (an unknown `data-filter`) shows the
      same artworks as "all". */
  lemma UnknownFilterShowsAll(all: seq<MetObject>, filter: string, year: int)
    requires FilterKeyword(filter) == None
    ensures YearFilter(all, filter, year) == YearFilter(all, "all", year)
  {
    FilterSamePredicate(all, (o: MetObject) => Shown(o, filter, year), (o: MetObject) => Shown(o, "all", year));
  }

  lemma {:induction false} FilterSamePredicate(s: seq<MetObject>, p: MetObject -> bool, q: MetObject -> bool)
    requires forall x :: p(x) == q(x)
    ensures Filter(s, p) == Filter(s, q)
    decreases |s|
  {
    if s != [] {
      FilterSamePredicate(s[1..], p, q);
    }
  }

  /** A filter keeps a date-sorted list sorted, so the gallery shows its
      artworks in chronological order. */
  lemma {:induction false} FilterKeepsSorted(s: seq<MetObject>, p: MetObject -> bool)
    requires SortedByDate(s)
    ensures SortedByDate(Filter(s, p))
    decreases |s|
  {
    if s != [] {
      var rest := Filter(s[1..], p);
      FilterKeepsSorted(s[1..], p);
      forall x | x in rest ensures s[0].objectBeginDate <= x.objectBeginDate {
        var j :| 0 <= j < |s[1..]| && s[1..][j] == x;
        assert s[j + 1] == x;
      }
      if p(s[0]) {
        var r := [s[0]] + rest;
        forall i, j | 0 <= i < j < |r| ensures r[i].objectBeginDate <= r[j].objectBeginDate {
          assert r[j] == rest[j - 1];
          if i > 0 { assert r[i] == rest[i - 1]; }
        }
      }
    }
  }

  // ---------------------------------------------------------------------
  // truncateTitle, formatYear, getEraName

  /** `title.substring(0, maxLength) + '...'` when the title is longer. */
  function TruncateTitle(title: string, maxLength: nat): (r: string)
    ensures |title| <= maxLength ==> r == title
    ensures |title| > maxLength ==>
      (|r| == maxLength + 3 && r[..maxLength] == title[..maxLength] && r[maxLength..] == "...")
  {
    if |title| <= maxLength then title else title[..maxLength] + "..."
  }

  /** Short titles are kept; so a truncated title of length at most
      `maxLength + 3` that is truncated again with a wider limit is kept. */
  lemma TruncateTitleBound(title: string, maxLength: nat)
    ensures |TruncateTitle(title, maxLength)| <= maxLength + 3
    ensures TruncateTitle(TruncateTitle(title, maxLength), maxLength + 3) == TruncateTitle(title, maxLength)
  {
  }

  /** `formatYear`: "N BCE" before year zero, "N CE" below 1000, plain digits after. */
  function FormatYear(year: int): (r: string)
    ensures year < 0 ==> |r| > 4 && r[|r| - 4..] == " BCE" && AllDigits(r[..|r| - 4])
    ensures 0 <= year < 1000 ==> |r| > 3 && r[|r| - 3..] == " CE" && AllDigits(r[..|r| - 3])
    ensures 1000 <= year ==> r != [] && AllDigits(r)
  {
    if year < 0 then
      var digits := NatToString(-year);
      assert (digits + " BCE")[..|digits|] == digits;
      digits + " BCE"
    else if year < 1000 then
      var digits := NatToString(year);
      assert (digits + " CE")[..|digits|] == digits;
      digits + " CE"
    else NatToString(year)
  }

  /** Reads a year label back. */
  function ParseYear(s: string): Option<int> {
    if |s| >= 4 && s[|s| - 4..] == " BCE" && AllDigits(s[..|s| - 4]) then Some(0 - ParseDigits(s[..|s| - 4]) as int)
    else if |s| >= 3 && s[|s| - 3..] == " CE" && AllDigits(s[..|s| - 3]) then Some(ParseDigits(s[..|s| - 3]))
    else if s != [] && AllDigits(s) then Some(ParseDigits(s))
    else None
  }

  /** The year label names the year: reading it back gives the year. */
  lemma FormatYearRoundTrip(year: int)
    ensures ParseYear(FormatYear(year)) == Some(year)
  {
    var s := FormatYear(year);
    if year < 0 {
      var d := NatToString(-year);
      assert s[|s| - 4..] == " BCE" && s[..|s| - 4] == d;
      ParseNatToString(-year);
    } else if year < 1000 {
      var d := NatToString(year);
      assert s[|s| - 3..] == " CE" && s[..|s| - 3] == d;
      assert s[|s| - 4] == d[|d| - 1];
      assert s[|s| - 4..][0] != ' ';
      ParseNatToString(year);
    } else {
      var d := NatToString(year);
      assert !IsDigit(' ');
      assert |s| >= 4 ==> s[|s| - 4..][0] == s[|s| - 4];
      assert |s| >= 3 ==> s[|s| - 3..][0] == s[|s| - 3];
      ParseNatToString(year);
    }
  }

  /** Different years get different labels. */
  lemma FormatYearInjective(a: int, b: int)
    requires FormatYear(a) == FormatYear(b)
    ensures a == b
  {
    FormatYearRoundTrip(a);
    FormatYearRoundTrip(b);
  }

  /** Upper bounds (exclusive) of the eras, in order; a year not below any
      of them is in the last era. */
  const EraBounds: seq<int> := [-3000, -1200, -500, 500, 1000, 1300, 1600, 1750, 1850, 1900, 1945, 2000]
  const EraNames: seq<string> := [
    "Prehistoric", "Bronze Age", "Iron Age", "Classical Antiquity", "Early Medieval",
    "High Medieval", "Renaissance", "Baroque", "Neoclassical", "Impressionist Era",
    "Modern Era", "Contemporary", "Digital Age"]

  /** The era a year belongs to: the number of bounds it has reached. */
  function EraIndex(year: int): (k: nat)
    ensures k <= |EraBounds|
    ensures forall j :: 0 <= j < k ==> EraBounds[j] <= year
    ensures k < |EraBounds| ==> year < EraBounds[k]
  {
    CountReached(year, 0)
  }

  function CountReached(year: int, i: nat): (k: nat)
    requires i <= |EraBounds|
    requires forall j :: 0 <= j < i ==> EraBounds[j] <= year
    ensures i <= k <= |EraBounds|
    ensures forall j :: 0 <= j < k ==> EraBounds[j] <= year
    ensures k < |EraBounds| ==> year < EraBounds[k]
    decreases |EraBounds| - i
  {
    if i < |EraBounds| && EraBounds[i] <= year then CountReached(year, i + 1) else i
  }

  /** `getEraName`: the name of the era of the table above. */
  function EraName(year: int): (r: string)
    ensures r == EraNames[EraIndex(year)]
  {
    if year < -3000 then "Prehistoric"
    else if year < -1200 then "Bronze Age"
    else if year < -500 then "Iron Age"
    else if year < 500 then "Classical Antiquity"
    else if year < 1000 then "Early Medieval"
    else if year < 1300 then "High Medieval"
    else if year < 1600 then "Renaissance"
    else if year < 1750 then "Baroque"
    else if year < 1850 then "Neoclassical"
    else if year < 1900 then "Impressionist Era"
    else if year < 1945 then "Modern Era"
    else if year < 2000 then "Contemporary"
    else "Digital Age"
  }

  /** Later years never fall in earlier eras. */
  lemma EraMonotone(a: int, b: int)
    requires a <= b
    ensures EraIndex(a) <= EraIndex(b)
  {
  }

  /** Each bound is the first year of the next era. */
  lemma EraBoundaries()
    ensures EraName(-3001) == "Prehistoric" && EraName(-3000) == "Bronze Age"
    ensures EraName(1999) == "Contemporary" && EraName(2000) == "Digital Age"
    ensures EraName(InitialYear) == "Modern Era"
  {
  }

  // ---------------------------------------------------------------------
  // renderGallery and showArtworkDetails

  /** One grid card: the id handed to `showArtworkDetails`, the image and
      its alt text, the truncated title, the byline and the year tag. */
  datatype Card = Card(
    objectID: string, image: JsString, alt: JsString, title: string,
    byline: string, yearTag: string)

  /** The grid container: the page's initial content, the empty-period
      message, or the cards. */
  datatype GridView = Initial | NoArtworksMessage | Cards(cards: seq<Card>)

  /** The card of one artwork; `None` when the title is not a string, for
      which `truncateTitle` throws. */
  function CardOf(o: MetObject): (r: Option<Card>)
    ensures r.Some? <==> o.title.Str?
    ensures r.Some? ==>
      && r.value.objectID == Render(o.objectID)
      && r.value.image == o.primaryImageSmall && r.value.alt == o.title
      && (|o.title.s| <= TitleLength ==> r.value.title == o.title.s)
      && (|o.title.s| > TitleLength ==> r.value.title == o.title.s[..TitleLength] + "...")
      && (Truthy(o.artistDisplayName) ==> r.value.byline == o.artistDisplayName.s)
      && (!Truthy(o.artistDisplayName) ==> KeptOr(o.culture, "Unknown", r.value.byline))
      && ParseYear(r.value.yearTag) == Some(o.objectBeginDate)
  {
    FormatYearRoundTrip(o.objectBeginDate);
    if o.title.Str? then
      Some(Card(Render(o.objectID), o.primaryImageSmall, o.title, TruncateTitle(o.title.s, TitleLength),
        OrElse(o.artistDisplayName, OrElse(o.culture, "Unknown")), FormatYear(o.objectBeginDate)))
    else None
  }

  function CardsOf(s: seq<MetObject>): (r: Option<seq<Card>>)
    ensures r.Some? <==> forall k :: 0 <= k < |s| ==> s[k].title.Str?
    ensures r.Some? ==> |r.value| == |s| && forall k :: 0 <= k < |s| ==> Some(r.value[k]) == CardOf(s[k])
    decreases |s|
  {
    if s == [] then Some([])
    else match (CardOf(s[0]), CardsOf(s[1..]))
      case (Some(c), Some(cs)) =>
        assert forall k :: 1 <= k < |s| ==> s[k] == s[1..][k - 1];
        Some([c] + cs)
      case _ =>
        assert forall k :: 1 <= k < |s| ==> s[k] == s[1..][k - 1];
        None
  }

  /** `renderGallery` on the displayed artworks; `None` when it throws. */
  function RenderGrid(displayed: seq<MetObject>): (g: Option<GridView>)
    ensures displayed == [] ==> g == Some(NoArtworksMessage)
    ensures displayed != [] ==> (g.Some? <==> forall k :: 0 <= k < |displayed| ==> displayed[k].title.Str?)
    ensures displayed != [] && g.Some? ==>
      (g.value.Cards? && |g.value.cards| == |displayed|
       && forall k :: 0 <= k < |displayed| ==>
          (g.value.cards[k].objectID == Render(displayed[k].objectID)
           && g.value.cards[k].yearTag == FormatYear(displayed[k].objectBeginDate)
           && |g.value.cards[k].title| <= TitleLength + 3))
  {
    if displayed == [] then Some(NoArtworksMessage)
    else match CardsOf(displayed)
      case Some(cs) =>
        assert forall k :: 0 <= k < |displayed| ==> Some(cs[k]) == CardOf(displayed[k]);
        Some(Cards(cs))
      case None => None
  }

  /** The artwork modal's contents. */
  datatype Modal = Modal(
    image: JsString, title: JsString, artist: string, date: string, culture: string,
    medium: string, dimensions: string, description: string, link: JsString)

  function ModalOf(o: MetObject): (m: Modal)
    ensures m.image == o.primaryImage && m.title == o.title && m.link == o.objectURL
    ensures KeptOr(o.artistDisplayName, "Artist unknown", m.artist)
    ensures KeptOr(o.objectDate, "Date unknown", m.date)
    ensures Truthy(o.culture) ==> m.culture == o.culture.s
    ensures !Truthy(o.culture) ==> KeptOr(o.period, "", m.culture)
    ensures KeptOr(o.medium, "", m.medium) && KeptOr(o.dimensions, "", m.dimensions)
    ensures KeptOr(o.creditLine, "", m.description)
  {
    Modal(o.primaryImage, o.title, OrElse(o.artistDisplayName, "Artist unknown"),
      OrElse(o.objectDate, "Date unknown"), OrElse(o.culture, OrElse(o.period, "")),
      OrElse(o.medium, ""), OrElse(o.dimensions, ""), OrElse(o.creditLine, ""), o.objectURL)
  }

  /** `allArtworks.find(a => a.objectID == objectID)` with the id a card
      passes: the first artwork whose rendered id is that string. */
  function FindById(all: seq<MetObject>, objectID: string): (r: Option<MetObject>)
    ensures r.None? <==> forall k :: 0 <= k < |all| ==> Render(all[k].objectID) != objectID
    ensures r.Some? ==>
      exists k :: (0 <= k < |all| && all[k] == r.value && Render(all[k].objectID) == objectID
                   && forall j :: 0 <= j < k ==> Render(all[j].objectID) != objectID)
    decreases |all|
  {
    if all == [] then None
    else if Render(all[0].objectID) == objectID then Some(all[0])
    else
      var r := FindById(all[1..], objectID);
      assert forall k :: 1 <= k < |all| ==> all[k] == all[1..][k - 1];
      if r.Some? then
        var k :| 0 <= k < |all[1..]| && all[1..][k] == r.value && Render(all[1..][k].objectID) == objectID
          && forall j :: 0 <= j < k ==> Render(all[1..][j].objectID) != objectID;
        assert all[k + 1] == r.value;
        r
      else r
  }

  /** The progress message of the loading overlay. */
  datatype LoadStatus = Loading | Ready | LoadFailed

  class PinterestGallery {
    var allArtworks: seq<MetObject>
    var displayedArtworks: seq<MetObject>
    var currentFilter: string
    var currentYear: int
    /** The year and era labels above the slider. */
    var yearLabel: string
    var eraLabel: string
    var grid: GridView
    var modal: Option<Modal>
    var status: LoadStatus

    /** What every handler keeps: the loaded artworks are sorted by date
        and the displayed ones are what the year filter selects. */
    predicate Valid()
      reads this
    {
      SortedByDate(allArtworks) && displayedArtworks == YearFilter(allArtworks, currentFilter, currentYear)
    }

    /** The fields the constructor sets, before `init` loads anything. */
    constructor ()
      ensures Valid()
      ensures allArtworks == [] && displayedArtworks == []
      ensures currentFilter == InitialFilter && currentYear == InitialYear
      ensures grid == Initial && modal == None && status == Loading
    {
      allArtworks := [];
      displayedArtworks := [];
      currentFilter := InitialFilter;
      currentYear := InitialYear;
      yearLabel := FormatYear(InitialYear);
      eraLabel := EraName(InitialYear);
      grid := Initial;
      modal := None;
      status := Loading;
    }

    /** `filterByYear` followed by `renderGallery`; `threw` when rendering
        throws, in which case the grid keeps its old content. */
    method FilterByYear() returns (threw: bool)
      requires SortedByDate(allArtworks)
      modifies this`displayedArtworks, this`grid
      ensures Valid()
      ensures threw <==> RenderGrid(displayedArtworks).None?
      ensures grid == if threw then old(grid) else RenderGrid(displayedArtworks).value
      ensures SortedByDate(displayedArtworks)
    {
      displayedArtworks := YearFilter(allArtworks, currentFilter, currentYear);
      var filter, year := currentFilter, currentYear;
      FilterKeepsSorted(allArtworks, (o: MetObject) => Shown(o, filter, year));
      var g := RenderGrid(displayedArtworks);
      threw := g.None?;
      if !threw {
        grid := g.value;
      }
    }

    /** The year slider's `input` handler. */
    method SetYear(year: int) returns (threw: bool)
      requires Valid()
      modifies this`currentYear, this`yearLabel, this`eraLabel, this`displayedArtworks, this`grid
      ensures Valid()
      ensures currentYear == year
      ensures yearLabel == FormatYear(year) && eraLabel == EraName(year)
      ensures threw <==> RenderGrid(displayedArtworks).None?
      ensures grid == if threw then old(grid) else RenderGrid(displayedArtworks).value
    {
      currentYear := year;
      yearLabel := FormatYear(year);
      eraLabel := EraName(year);
      threw := FilterByYear();
    }

    /** A filter button's `click` handler. */
    method SetFilter(filter: string) returns (threw: bool)
      requires Valid()
      modifies this`currentFilter, this`displayedArtworks, this`grid
      ensures Valid()
      ensures currentFilter == filter
      ensures threw <==> RenderGrid(displayedArtworks).None?
      ensures grid == if threw then old(grid) else RenderGrid(displayedArtworks).value
    {
      currentFilter := filter;
      threw := FilterByYear();
    }

    /** `loadAllArtworks`. `search` is the catalogue response's
        `objectIDs` (`None` when missing) and `fetchObject` gives each
        object request's outcome, `None` for a failed request. */
    method LoadAllArtworks(search: Fetched<Option<seq<ObjectId>>>, fetchObject: ObjectId -> Option<MetObject>)
      requires Valid()
      modifies this`allArtworks, this`displayedArtworks, this`grid, this`status
      ensures Valid()
      ensures search.Failed? || search.value.None? || search.value.value == [] ==>
        allArtworks == old(allArtworks) && displayedArtworks == old(displayedArtworks)
        && grid == old(grid) && status == LoadFailed
      ensures search.Got? && search.value.Some? && search.value.value != [] ==>
        var ids := search.value.value;
        var total := if |ids| < SampleLimit then |ids| else SampleLimit;
        allArtworks == SortByDate(old(allArtworks) + KeepValid(Sample(ids, total), fetchObject))
        && (RenderGrid(displayedArtworks).Some? ==> grid == RenderGrid(displayedArtworks).value && status == Ready)
        && (RenderGrid(displayedArtworks).None? ==> grid == old(grid) && status == LoadFailed)
    {
      if search.Failed? || search.value.None? || search.value.value == [] {
        status := LoadFailed;
        return;
      }
      var ids := search.value.value;
      var total := if |ids| < SampleLimit then |ids| else SampleLimit;
      var sampledIDs := SampleArtworks(ids, total);
      var batches := MakeBatches(sampledIDs);
      BatchesSpec(sampledIDs);
      LoadBatches(batches, fetchObject);
      allArtworks := SortByDate(allArtworks);
      var threw := FilterByYear();
      status := if threw then LoadFailed else Ready;
    }

    /** The `for (const batch of batches)` loop: every batch's usable
        responses are pushed onto `allArtworks`. */
    method LoadBatches(batches: seq<seq<ObjectId>>, fetchObject: ObjectId -> Option<MetObject>)
      modifies this`allArtworks
      ensures allArtworks == old(allArtworks) + KeepValid(Concat(batches), fetchObject)
    {
      ghost var start := allArtworks;
      var b := 0;
      while b < |batches|
        invariant 0 <= b <= |batches|
        invariant allArtworks == start + KeepValid(Concat(batches[..b]), fetchObject)
      {
        var validArtworks := KeepValid(batches[b], fetchObject);
        PushBatch(start, allArtworks, batches, b, fetchObject);
        allArtworks := allArtworks + validArtworks;
        b := b + 1;
      }
      assert batches[..|batches|] == batches;
    }

    /** A card's `click` handler: opens the modal on the first artwork
        with that id, and does nothing when there is none. */
    method ShowArtworkDetails(objectID: string)
      modifies this`modal
      ensures FindById(allArtworks, objectID).None? ==> modal == old(modal)
      ensures FindById(allArtworks, objectID).Some? ==> modal == Some(ModalOf(FindById(allArtworks, objectID).value))
    {
      var found := FindById(allArtworks, objectID);
      if found.Some? {
        modal := Some(ModalOf(found.value));
      }
    }
  }
}
