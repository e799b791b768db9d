/** The normalised artwork record shared by every museum source, the raw
    records each source's API returns, the keyword classifier, and the four
    per-source normalisers (`formatMETArtwork`, `formatChicagoArtwork`,
    `formatHarvardArtwork`, `formatRijksArtwork`). */
module Artworks {
  import opened JsValues
  import opened Strings

  // ---------------------------------------------------------------------
  // Categories and the ordered classifier

  /** The closed set of categories `categorizeArtwork` can return. */
  datatype Category = Paintings | Sculptures | Photography | Drawings | Prints | Other

  /** The string the source stores in `artwork.category`. */
  function CategoryName(c: Category): string {
    match c
    case Paintings => "paintings"
    case Sculptures => "sculptures"
    case Photography => "photography"
    case Drawings => "drawings"
    case Prints => "prints"
    case Other => "other"
  }

  /** The six names are pairwise distinct, so a name determines its category. */
  lemma CategoryNameInjective(c: Category, d: Category)
    requires CategoryName(c) == CategoryName(d)
    ensures c == d
  {
  }

  /** The classification rules in the order they are tried, each with its
      keywords. */
  const Rules: seq<(Category, seq<string>)> := [
    (Paintings, ["painting", "canvas", "oil"]),
    (Sculptures, ["sculpture", "statue", "bronze"]),
    (Photography, ["photograph", "digital"]),
    (Drawings, ["drawing", "sketch"]),
    (Prints, ["print", "lithograph"])
  ]

  /** Where a category's rule sits in `Rules`; `Other` comes after all of them. */
  function RuleIndex(c: Category): nat {
    match c
    case Paintings => 0
    case Sculptures => 1
    case Photography => 2
    case Drawings => 3
    case Prints => 4
    case Other => 5
  }

  predicate MatchesRule(text: string, keywords: seq<string>) {
    exists k :: k in keywords && Contains(text, k)
  }

  /** `(objectType + ' ' + classification).toLowerCase()`, with both
      parameters defaulting to '' when undefined. */
  function ClassifierText(objectType: JsString, classification: JsString): string {
    Lower(DefaultParam(objectType, "") + " " + DefaultParam(classification, ""))
  }

  /** `categorizeArtwork`: the category of the first rule whose keyword
      occurs in the lower-cased text, or `Other` when no rule matches. */
  function Categorize(objectType: JsString, classification: JsString): (c: Category)
    ensures var text := ClassifierText(objectType, classification);
      && (forall j :: 0 <= j < RuleIndex(c) ==> !MatchesRule(text, Rules[j].1))
      && (RuleIndex(c) < |Rules| ==> Rules[RuleIndex(c)].0 == c && MatchesRule(text, Rules[RuleIndex(c)].1))
      && (c == Other <==> forall j :: 0 <= j < |Rules| ==> !MatchesRule(text, Rules[j].1))
  {
    var t := ClassifierText(objectType, classification);
    if Contains(t, "painting") || Contains(t, "canvas") || Contains(t, "oil") then Paintings
    else if Contains(t, "sculpture") || Contains(t, "statue") || Contains(t, "bronze") then Sculptures
    else if Contains(t, "photograph") || Contains(t, "digital") then Photography
    else if Contains(t, "drawing") || Contains(t, "sketch") then Drawings
    else if Contains(t, "print") || Contains(t, "lithograph") then Prints
    else Other
  }

  /** Classification ignores letter case: lower-casing either input first
      changes nothing. */
  lemma CategorizeIgnoresCase(objectType: string, classification: string)
    ensures Categorize(Str(objectType), Str(classification))
         == Categorize(Str(Lower(objectType)), Str(Lower(classification)))
  {
    LowerAppend(objectType, " ");
    LowerAppend(objectType + " ", classification);
    LowerAppend(Lower(objectType), " ");
    LowerAppend(Lower(objectType) + " ", Lower(classification));
    LowerIdempotent(objectType);
    LowerIdempotent(classification);
    assert Lower(" ") == " ";
    assert ClassifierText(Str(objectType), Str(classification))
        == ClassifierText(Str(Lower(objectType)), Str(Lower(classification)));
  }

  /** Rule order is the tie-break: a painting keyword wins over every later
      rule, e.g. "Painting" with "Prints" is a painting. */
  lemma PaintingBeatsPrint()
    ensures Categorize(Str("Painting"), Str("Prints")) == Paintings
  {
    var t := ClassifierText(Str("Painting"), Str("Prints"));
    assert t[0..8] == "painting";
    assert OccursAt(t, "painting", 0);
  }

  // ---------------------------------------------------------------------
  // The normalised record

  /** One artwork as every caller sees it, whatever museum it came from.
      Slots the source may leave undefined or null are `JsString`s. */
  datatype ArtworkRecord = ArtworkRecord(
    id: string,
    title: string,
    artist: string,
    date: JsString,
    medium: string,
    dimensions: string,
    department: JsString,
    culture: JsString,
    period: JsString,
    image: JsString,
    imageSmall: JsString,
    museum: string,
    museumUrl: JsString,
    classification: JsString,
    style: JsString,
    category: Category,
    description: string)

  const MetTag := "met"
  const ChicagoTag := "chicago"
  const HarvardTag := "harvard"
  const RijksTag := "rijks"

  /** The source tag of an id, as `artworkId.split('_')[0]` reads it. */
  function SourceTag(id: string): string {
    Split(id, '_')[0]
  }

  /** `${tag}_${nativeId}`. */
  function TaggedId(tag: string, native: JsString): string {
    tag + "_" + Render(native)
  }

  /** A tagged id splits into its tag followed by the pieces of the native id. */
  lemma TaggedIdSplit(tag: string, native: JsString)
    requires '_' !in tag
    ensures Split(TaggedId(tag, native), '_') == [tag] + Split(Render(native), '_')
    ensures SourceTag(TaggedId(tag, native)) == tag
  {
    SplitAfterHead(tag, Render(native), '_');
  }

  /** Ids built from different tags never collide, whatever the native ids. */
  lemma TaggedIdsDistinct(tag1: string, native1: JsString, tag2: string, native2: JsString)
    requires '_' !in tag1 && '_' !in tag2 && tag1 != tag2
    ensures TaggedId(tag1, native1) != TaggedId(tag2, native2)
  {
    TaggedIdSplit(tag1, native1);
    TaggedIdSplit(tag2, native2);
  }

  // ---------------------------------------------------------------------
  // Raw records of the four sources (only the properties the normalisers read)

  /** A MET object id, as listed in a search response's `objectIDs`. */
  type ObjectId = int

  /** A MET `/objects/{id}` response. */
  datatype MetObject = MetObject(
    objectID: JsString, title: JsString, artistDisplayName: JsString, objectDate: JsString,
    medium: JsString, dimensions: JsString, department: JsString, culture: JsString,
    period: JsString, primaryImage: JsString, primaryImageSmall: JsString, objectURL: JsString,
    classification: JsString, objectName: JsString, artistDisplayBio: JsString,
    creditLine: JsString, objectBeginDate: int)

  /** One element of the Chicago search response's `data`. */
  datatype ChicagoArtwork = ChicagoArtwork(
    id: JsString, title: JsString, artist_display: JsString, date_display: JsString,
    medium_display: JsString, image_id: JsString, department_title: JsString,
    artwork_type_title: JsString, style_title: JsString, classification_title: JsString)

  /** One element of the Harvard response's `records`; `people` holds each
      person's `displayname`, `images` each image's `baseimageurl`. */
  datatype HarvardArtwork = HarvardArtwork(
    id: JsString, title: JsString, people: Option<seq<JsString>>, dated: JsString,
    medium: JsString, dimensions: JsString, department: JsString, culture: JsString,
    images: Option<seq<JsString>>, url: JsString, classification: JsString,
    worktype: JsString, period: JsString, description: JsString)

  /** One element of the Rijksmuseum response's `artObjects`; the nested
      objects are reduced to the one property read from each
      (`dating.presentingDate`, `webImage.url`, `headerImage.url`, `links.web`). */
  datatype RijksArtwork = RijksArtwork(
    objectNumber: JsString, title: JsString, longTitle: JsString,
    principalOrFirstMaker: JsString, dating: Option<JsString>, webImage: Option<JsString>,
    headerImage: Option<JsString>, links: Option<JsString>, objectTypes: Option<seq<JsString>>)

  // ---------------------------------------------------------------------
  // Normalisers

  /** `formatMETArtwork`. */
  function FormatMet(o: MetObject): (r: ArtworkRecord)
    ensures SourceTag(r.id) == MetTag
    ensures r.title != "" && r.artist != "" && r.medium != "" && r.dimensions != ""
    ensures r.date.Str? && r.date.s != ""
    ensures KeptOr(o.title, "Untitled", r.title)
    ensures KeptOr(o.artistDisplayName, "Unknown Artist", r.artist)
    ensures KeptOr(o.objectDate, "Date unknown", r.date.s)
    ensures KeptOr(o.medium, "Medium unknown", r.medium)
    ensures KeptOr(o.dimensions, "Dimensions unknown", r.dimensions)
    ensures r.image == o.primaryImage && r.imageSmall == o.primaryImageSmall
    ensures r.category == Categorize(o.objectName, o.classification)
  {
    TaggedIdSplit(MetTag, o.objectID);
    ArtworkRecord(
      id := TaggedId(MetTag, o.objectID),
      title := OrElse(o.title, "Untitled"),
      artist := OrElse(o.artistDisplayName, "Unknown Artist"),
      date := Str(OrElse(o.objectDate, "Date unknown")),
      medium := OrElse(o.medium, "Medium unknown"),
      dimensions := OrElse(o.dimensions, "Dimensions unknown"),
      department := Str(OrElse(o.department, "")),
      culture := Str(OrElse(o.culture, "")),
      period := Str(OrElse(o.period, "")),
      image := o.primaryImage,
      imageSmall := o.primaryImageSmall,
      museum := "Metropolitan Museum of Art",
      museumUrl := o.objectURL,
      classification := o.classification,
      style := Undefined,
      category := Categorize(o.objectName, o.classification),
      description := OrElse(o.artistDisplayBio, ""))
  }

  /** The IIIF image URL the Chicago normaliser builds from an `image_id`. */
  function IiifUrl(imageId: string): string {
    "https://www.artic.edu/iiif/2/" + imageId + "/full/843,/0/default.jpg"
  }

  /** `formatChicagoArtwork`. */
  function FormatChicago(a: ChicagoArtwork): (r: ArtworkRecord)
    ensures SourceTag(r.id) == ChicagoTag
    ensures r.title != "" && r.artist != "" && r.medium != ""
    ensures r.date.Str? && r.date.s != ""
    ensures KeptOr(a.title, "Untitled", r.title)
    ensures KeptOr(a.artist_display, "Unknown Artist", r.artist)
    ensures KeptOr(a.date_display, "Date unknown", r.date.s)
    ensures KeptOr(a.medium_display, "Medium unknown", r.medium)
    ensures r.dimensions == "Dimensions available on request"
    ensures Truthy(a.image_id) ==> r.image == Str(IiifUrl(a.image_id.s))
    ensures !Truthy(a.image_id) ==> r.image == Null
    ensures r.imageSmall == r.image
    ensures r.category == Categorize(a.artwork_type_title, a.classification_title)
  {
    TaggedIdSplit(ChicagoTag, a.id);
    var imageUrl := if Truthy(a.image_id) then Str(IiifUrl(a.image_id.s)) else Null;
    ArtworkRecord(
      id := TaggedId(ChicagoTag, a.id),
      title := OrElse(a.title, "Untitled"),
      artist := OrElse(a.artist_display, "Unknown Artist"),
      date := Str(OrElse(a.date_display, "Date unknown")),
      medium := OrElse(a.medium_display, "Medium unknown"),
      dimensions := "Dimensions available on request",
      department := Str(OrElse(a.department_title, "")),
      culture := Undefined,
      period := Undefined,
      image := imageUrl,
      imageSmall := imageUrl,
      museum := "Art Institute of Chicago",
      museumUrl := Str("https://www.artic.edu/artworks/" + Render(a.id)),
      classification := a.classification_title,
      style := a.style_title,
      category := Categorize(a.artwork_type_title, a.classification_title),
      description := OrElse(a.style_title, "") + " artwork from the Art Institute of Chicago collection.")
  }

  /** `Array.prototype.join` over values that may be undefined or null,
      which it renders as the empty string. */
  function JoinArray(items: seq<JsString>, sep: string): string {
    Join(seq(|items|, i requires 0 <= i < |items| => if items[i].Str? then items[i].s else ""), sep)
  }

  /** `formatHarvardArtwork`. */
  function FormatHarvard(h: HarvardArtwork): (r: ArtworkRecord)
    ensures SourceTag(r.id) == HarvardTag
    ensures r.title != "" && r.medium != "" && r.dimensions != ""
    ensures r.date.Str? && r.date.s != ""
    ensures KeptOr(h.title, "Untitled", r.title)
    ensures KeptOr(h.dated, "Date unknown", r.date.s)
    ensures KeptOr(h.medium, "Medium unknown", r.medium)
    ensures KeptOr(h.dimensions, "Dimensions unknown", r.dimensions)
    ensures h.people.None? ==> r.artist == "Unknown Artist"
    ensures h.people.Some? ==> r.artist == JoinArray(h.people.value, ", ")
    ensures (h.images.Some? && |h.images.value| > 0) ==> r.image == h.images.value[0]
    ensures !(h.images.Some? && |h.images.value| > 0) ==> r.image == Null
    ensures r.imageSmall == r.image
    ensures r.category == Categorize(h.worktype, h.classification)
  {
    TaggedIdSplit(HarvardTag, h.id);
    var primaryImage := if h.images.Some? && |h.images.value| > 0 then h.images.value[0] else Null;
    ArtworkRecord(
      id := TaggedId(HarvardTag, h.id),
      title := OrElse(h.title, "Untitled"),
      artist := if h.people.Some? then JoinArray(h.people.value, ", ") else "Unknown Artist",
      date := Str(OrElse(h.dated, "Date unknown")),
      medium := OrElse(h.medium, "Medium unknown"),
      dimensions := OrElse(h.dimensions, "Dimensions unknown"),
      department := Str(OrElse(h.department, "")),
      culture := Str(OrElse(h.culture, "")),
      period := h.period,
      image := primaryImage,
      imageSmall := primaryImage,
      museum := "Harvard Art Museums",
      museumUrl := h.url,
      classification := h.classification,
      style := Undefined,
      category := Categorize(h.worktype, h.classification),
      description := OrElse(h.description, ""))
  }

  /** A Harvard record whose `people` list is present but empty gets an
      empty artist: the 'Unknown Artist' default applies only when the
      list itself is missing. */
  lemma HarvardEmptyPeopleArtist(h: HarvardArtwork)
    requires h.people == Some([])
    ensures FormatHarvard(h).artist == ""
  {
  }

  /** The argument `formatRijksArtwork` passes to `categorizeArtwork`:
      `objectTypes[0]` when the list is present (undefined for an empty
      list, so the parameter default '' applies), '' without the list. */
  function RijksObjectType(k: RijksArtwork): JsString {
    if k.objectTypes.Some? then (if |k.objectTypes.value| > 0 then k.objectTypes.value[0] else Undefined)
    else Str("")
  }

  const RijksBlurb := "Artwork from the Rijksmuseum collection, "

  /** `formatRijksArtwork`; `categorizeArtwork` receives a single argument,
      so the classification part is the default ''. */
  function FormatRijks(k: RijksArtwork): (r: ArtworkRecord)
    ensures SourceTag(r.id) == RijksTag
    ensures r.title != "" && r.artist != ""
    ensures KeptOr(k.title, "Untitled", r.title)
    ensures KeptOr(k.principalOrFirstMaker, "Unknown Artist", r.artist)
    ensures r.medium == "Oil on canvas" && r.dimensions == "Dimensions available on request"
    ensures k.dating.None? ==> r.date == Str("Date unknown")
    ensures k.dating.Some? ==> r.date == k.dating.value
    ensures k.webImage.None? ==> r.image == Null
    ensures k.webImage.Some? ==> r.image == k.webImage.value
    ensures k.headerImage.None? ==> r.imageSmall == Null
    ensures k.headerImage.Some? ==> r.imageSmall == k.headerImage.value
    ensures r.category == Categorize(RijksObjectType(k), Undefined)
    ensures Truthy(k.longTitle) ==> r.description == RijksBlurb + k.longTitle.s
    ensures !Truthy(k.longTitle) ==> r.description == RijksBlurb + Render(k.title)
  {
    TaggedIdSplit(RijksTag, k.objectNumber);
    var objectType := RijksObjectType(k);
    var fullTitle := if Truthy(k.longTitle) then k.longTitle else k.title;
    ArtworkRecord(
      id := TaggedId(RijksTag, k.objectNumber),
      title := OrElse(k.title, "Untitled"),
      artist := OrElse(k.principalOrFirstMaker, "Unknown Artist"),
      date := if k.dating.Some? then k.dating.value else Str("Date unknown"),
      medium := "Oil on canvas",
      dimensions := "Dimensions available on request",
      department := Undefined,
      culture := Undefined,
      period := Undefined,
      image := if k.webImage.Some? then k.webImage.value else Null,
      imageSmall := if k.headerImage.Some? then k.headerImage.value else Null,
      museum := "Rijksmuseum",
      museumUrl := if k.links.Some? then k.links.value else Str(""),
      classification := Undefined,
      style := Undefined,
      category := Categorize(objectType, Undefined),
      description := RijksBlurb + Render(fullTitle))
  }

  /** Records normalised from different museums never share an id, even
      when their native ids are equal. */
  lemma FormattedIdsDistinct(m: MetObject, c: ChicagoArtwork, h: HarvardArtwork, k: RijksArtwork)
    ensures FormatMet(m).id != FormatChicago(c).id
    ensures FormatMet(m).id != FormatHarvard(h).id
    ensures FormatMet(m).id != FormatRijks(k).id
    ensures FormatChicago(c).id != FormatHarvard(h).id
    ensures FormatChicago(c).id != FormatRijks(k).id
    ensures FormatHarvard(h).id != FormatRijks(k).id
  {
    TaggedIdsDistinct(MetTag, m.objectID, ChicagoTag, c.id);
    TaggedIdsDistinct(MetTag, m.objectID, HarvardTag, h.id);
    TaggedIdsDistinct(MetTag, m.objectID, RijksTag, k.objectNumber);
    TaggedIdsDistinct(ChicagoTag, c.id, HarvardTag, h.id);
    TaggedIdsDistinct(ChicagoTag, c.id, RijksTag, k.objectNumber);
    TaggedIdsDistinct(HarvardTag, h.id, RijksTag, k.objectNumber);
  }

  /** A text with no letters at all (both parts empty or undefined)
      matches no rule. */
  lemma BlankTextIsOther(objectType: JsString, classification: JsString)
    requires ClassifierText(objectType, classification) == " "
    ensures Categorize(objectType, classification) == Other
  {
    var t := ClassifierText(objectType, classification);
    forall j | 0 <= j < |Rules| ensures !MatchesRule(t, Rules[j].1) {
      forall k | k in Rules[j].1 ensures !Contains(t, k) {
        assert |k| > 1;
      }
    }
  }

  /** A Rijksmuseum record without `objectTypes` is classified from ' '
      alone and so lands in `Other`. */
  lemma RijksWithoutObjectTypesIsOther(k: RijksArtwork)
    requires k.objectTypes.None?
    ensures FormatRijks(k).category == Other
  {
    BlankTextIsOther(Str(""), Undefined);
  }

  /** Normalising an empty JSON object `{}` fills every display string of
      a MET record with its placeholder and classifies it as `Other`; its
      images stay `undefined`, as `primaryImage` is copied unchanged. */
  lemma EmptyMetDefaults()
    ensures var r := FormatMet(MetObject(Undefined, Undefined, Undefined, Undefined, Undefined,
        Undefined, Undefined, Undefined, Undefined, Undefined, Undefined, Undefined, Undefined,
        Undefined, Undefined, Undefined, 0));
      r.title == "Untitled" && r.artist == "Unknown Artist" && r.date == Str("Date unknown")
      && r.medium == "Medium unknown" && r.dimensions == "Dimensions unknown"
      && r.id == "met_undefined" && r.image == Undefined && r.imageSmall == Undefined && r.category == Other
  {
    BlankTextIsOther(Undefined, Undefined);
  }

  /** The same for an empty Chicago record, which also has no image. */
  lemma EmptyChicagoDefaults()
    ensures var r := FormatChicago(ChicagoArtwork(Undefined, Undefined, Undefined, Undefined,
        Undefined, Undefined, Undefined, Undefined, Undefined, Undefined));
      r.title == "Untitled" && r.artist == "Unknown Artist" && r.date == Str("Date unknown")
      && r.medium == "Medium unknown" && r.id == "chicago_undefined"
      && r.image == Null && r.imageSmall == Null && r.category == Other
  {
    BlankTextIsOther(Undefined, Undefined);
  }

  /** The same for an empty Harvard record: without `people` the artist is
      'Unknown Artist', without `images` there is no image. */
  lemma EmptyHarvardDefaults()
    ensures var r := FormatHarvard(HarvardArtwork(Undefined, Undefined, None, Undefined, Undefined,
        Undefined, Undefined, Undefined, None, Undefined, Undefined, Undefined, Undefined, Undefined));
      r.title == "Untitled" && r.artist == "Unknown Artist" && r.date == Str("Date unknown")
      && r.medium == "Medium unknown" && r.dimensions == "Dimensions unknown"
      && r.id == "harvard_undefined" && r.image == Null && r.category == Other
  {
    BlankTextIsOther(Undefined, Undefined);
  }

  /** The same for an empty Rijksmuseum record, which has neither image. */
  lemma EmptyRijksDefaults()
    ensures var r := FormatRijks(RijksArtwork(Undefined, Undefined, Undefined, Undefined,
        None, None, None, None, None));
      r.title == "Untitled" && r.artist == "Unknown Artist" && r.date == Str("Date unknown")
      && r.id == "rijks_undefined" && r.image == Null && r.imageSmall == Null && r.category == Other
  {
    BlankTextIsOther(Str(""), Undefined);
  }
}
