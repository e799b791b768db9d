# Art gallery core, modelled in Dafny

This project models the data core of a browser art gallery. The gallery
searches public museum collections and shows the results. The models cover
four scripts:

- **api-manager.js**, the multi-museum API manager (module `ApiManager`, over
  `Artworks`). It fetches search results from the Metropolitan Museum (MET),
  the Art Institute of Chicago, Harvard and the Rijksmuseum. It formats each
  source's records into one common artwork record with a tagged id
  (`met_…`, `chicago_…`, …). It classifies each record into one of six
  categories by keyword, for example "paintings" or "prints". It filters
  results by category, caches result sets by `museum_query_filters` (an entry
  expires after ten minutes), builds detail URLs from tagged ids, and finds
  similar artworks.
- **pinterest-gallery.js**, the timeline gallery (module `Timeline`). It
  samples at most 500 object ids evenly from a MET search and fetches them in
  batches of 20. It keeps the objects that have a small image and a begin
  date, and sorts them by begin date. It then shows the ones within 50 years
  of the slider year that match the active filter button. Along the way it
  labels years ("500 BCE", "800 CE", "1900") and eras, truncates card titles,
  and opens a detail modal.
- **app.js**, the 2D part of the single-page explorer (module `App`). It
  builds the MET search URL and paginates the found ids 50 per page behind a
  "Load More" button. It keeps the gallery's elements in step with the loaded
  artworks, and steps a carousel index forward and backward with JavaScript's
  `%`.
- **gallery.js**, the `ArtGallery` class and `fetchArtworks` (module
  `Gallery`). These cover the initial load, the recommendations, the search
  box and the filter buttons, plus the page script that fetches eight MET
  objects with `Promise.all`.

Several things the scripts use are modelled as values passed in:

- **Network answers.** The network is a function from a request to what it
  answers. For example, `Network.metSearch` maps a query to `Failed` or
  `Got(objectIDs)`, and `metObject` maps an id to a record.
  `encodeURIComponent` is passed in the same way.
- **JavaScript values.** `JsString` covers `undefined`, `null` and strings,
  with JavaScript truthiness, `||` and default parameters. `JsNumber` covers
  integers and `NaN`, where the carousel can produce it.
- **Mutable objects.** `APIManager`, `PinterestGallery`, `AppState` and
  `ArtGallery` are classes. Each handler is a method whose `ensures` ties the
  new state to the old one, and where the scripts keep an invariant the
  class states it as `Valid()`.

Shared helpers model the built-ins the scripts use:

- `Strings`: ASCII `toLowerCase`, `includes`, `split`, `join`, `trim` over
  the ECMAScript whitespace set, and decimal numerals;
- `Seqs`: `filter`, `slice(0, n)` and flattening.

In a few places the code behaves in a way its defaults and names would not
suggest; the model follows the code:

- A Harvard record whose `people` list is empty gets artist `""`, not
  "Unknown Artist" (`Artworks.HarvardEmptyPeopleArtist`). The conditional
  `artwork.people ? … : 'Unknown Artist'` tests only whether `people` is
  present; an empty list is truthy, so its join `""` is kept.
- A Rijksmuseum record without `dating` gets the date "Date unknown", and the
  model does not claim a year.
- Chicago results are not capped on the client; the request's `limit=20` is
  a server-side parameter.
- In gallery.js, choosing a category while the search box holds only spaces
  re-runs `handleSearch`. That call sees a blank query and shows every loaded
  artwork again, which undoes the filter (`Gallery.WhitespaceUndoesFilter`).
- In app.js, a search that finds nothing clears the gallery but leaves the
  previous `artworks` list in place. The model keeps the same behaviour
  (`App.AppState.Search`), which is why the `AppState` invariant allows an
  empty gallery next to a non-empty `artworks`.

## Model

| member | source | states |
|---|---|---|
| Artworks.Categorize | api-manager.js:226-242 | the category is that of the first rule (paintings, sculptures, photography, drawings, prints) with a keyword in the lower-cased `objectType + ' ' + classification`; no earlier rule matches; `Other` exactly when no rule matches |
| Artworks.CategoryNameInjective | api-manager.js:230-241 | the six category names are distinct, so a name determines its category |
| Artworks.CategorizeIgnoresCase | api-manager.js:227 | classification is case-insensitive: lower-casing the inputs first gives the same category |
| Artworks.PaintingBeatsPrint | api-manager.js:229-238 | rule order decides overlaps: a painting whose classification says "Prints" is a painting |
| Artworks.BlankTextIsOther | api-manager.js:227-241 | with both fields undefined or empty the category is `Other` |
| Artworks.TaggedIdSplit | api-manager.js:126 | a tagged id `tag_native` splits at '_' into the tag followed by the native id's pieces, so its first piece is the tag |
| Artworks.TaggedIdsDistinct | api-manager.js:126 | ids tagged by different tags never collide, whatever the native ids |
| Artworks.FormatMet | api-manager.js:124-154 | a MET record is tagged `met`; title, artist, date, medium and dimensions are each the source field when truthy and otherwise its fallback text ("Untitled", "Unknown Artist", "Date unknown", "Medium unknown", "Dimensions unknown"); images come from `primaryImage`/`primaryImageSmall`; the category is classified from `objectName` and `classification` |
| Artworks.FormatChicago | api-manager.js:156-179 | tagged `chicago`; title, artist, date and medium are the source field when truthy and otherwise the fallback; dimensions are always "Dimensions available on request"; the image is the IIIF URL of `image_id` or null without one, and the small image is the same; classified from artwork type and classification titles |
| Artworks.FormatHarvard | api-manager.js:181-207 | tagged `harvard`; title, date, medium and dimensions are the source field when truthy and otherwise the fallback; the artist is the `people` names joined by ", ", or "Unknown Artist" when `people` is missing; the image is the first of `images` or null; classified from worktype and classification |
| Artworks.HarvardEmptyPeopleArtist | api-manager.js:189 | an empty `people` list gives artist `""` (the join of nothing) |
| Artworks.FormatRijks | api-manager.js:209-224 | tagged `rijks`; title and artist (`principalOrFirstMaker`) are the source field when truthy and otherwise the fallback; the date is `dating.presentingDate`, or "Date unknown" without `dating`; the images are the `webImage`/`headerImage` URLs or null; medium always "Oil on canvas" and dimensions always "Dimensions available on request"; classified from the first object type; the description is the blurb followed by the long title when truthy, else by the rendered title |
| Artworks.RijksWithoutObjectTypesIsOther | api-manager.js:221 | a Rijksmuseum record without `objectTypes` is classified `Other` |
| Artworks.FormattedIdsDistinct | api-manager.js:126-211 | records formatted from different museums never share an id |
| Artworks.EmptyMetDefaults | api-manager.js:124-154 | an empty MET record formats to the fallback texts, id `met_undefined`, `undefined` images (copied from the missing `primaryImage` fields) and category `Other` |
| Artworks.EmptyChicagoDefaults | api-manager.js:156-179 | an empty Chicago record formats to the fallback texts, id `chicago_undefined`, null images and category `Other` |
| Artworks.EmptyHarvardDefaults | api-manager.js:181-207 | an empty Harvard record formats to the fallback texts, id `harvard_undefined`, "Unknown Artist", a null image and category `Other` |
| Artworks.EmptyRijksDefaults | api-manager.js:209-224 | an empty Rijksmuseum record formats to the fallback texts, id `rijks_undefined`, null images and category `Other` |
| ApiManager.MetKeep | api-manager.js:38-56 | the fetched MET objects kept are at most the ids requested, all with an image and tagged `met` |
| ApiManager.MetKeepInOrder | api-manager.js:37-56 | the kept records are exactly the answers that succeeded with a primary image, filtered in id order and then formatted: one record per such answer, none reordered, repeated or dropped |
| ApiManager.MetKeepSound | api-manager.js:45-56 | every kept record is the formatted answer of one of the requested ids, fetched successfully and with a primary image |
| ApiManager.MetKeepComplete | api-manager.js:45-56 | every successfully fetched object with a primary image is formatted and kept (the partner of `MetKeep`) |
| ApiManager.FetchFromMet | api-manager.js:27-61 | a failed or id-less search gives `[]`; otherwise the first 20 ids are fetched and kept as `MetKeep` says; at most 20 records, all imaged and tagged `met` |
| ApiManager.FetchFromChicago | api-manager.js:63-78 | exactly the `data` records formatted in order, or `[]` when the request fails or has no `data`; all tagged `chicago` |
| ApiManager.FetchFromHarvard | api-manager.js:80-100 | no key, or the placeholder key, gives `[]`; a failed request or one without `records` gives `[]`; otherwise exactly the `records` formatted in order, all tagged `harvard` |
| ApiManager.FetchFromRijks | api-manager.js:102-122 | no key, or the placeholder key, gives `[]`; a failed request or one without `artObjects` gives `[]`; otherwise exactly the `artObjects` formatted in order, all tagged `rijks` |
| ApiManager.ApplyCategoryFilter | api-manager.js:276-278 | without a truthy category other than 'all' the results pass unchanged; with one, every kept record has that category |
| ApiManager.CategoryFilterExact | api-manager.js:276-278 | the active category filter keeps an order-preserving part of the results, keeps a record exactly when it has the chosen category, and keeps every occurrence of such a record |
| ApiManager.SerializeFilters | api-manager.js:245 | `JSON.stringify(filters)` is a brace-delimited object text, and it is `{}` exactly when there is no category |
| ApiManager.SerializeShape | api-manager.js:245 | the serialisation of the category has one of three shapes (none, `null`, or a quoted string), told apart by length and a fixed character |
| ApiManager.SerializeFiltersInjective | api-manager.js:245 | different filters serialise differently |
| ApiManager.CacheKey | api-manager.js:245 | when the museum name holds no '_', the key's first '_'-piece is the museum |
| ApiManager.CacheKeySeparatesFilters | api-manager.js:245 | two searches of one museum and query share a cache key only when their filters are equal |
| ApiManager.Dispatch | api-manager.js:251-272 | each named museum's search yields only records tagged with it; any other name yields the MET results followed by the Chicago results |
| ApiManager.SearchResults | api-manager.js:251-278 | a single-museum search yields only records tagged with that museum |
| ApiManager.AggregateOrder | api-manager.js:266-272 | any other museum name aggregates the filtered MET results followed by the filtered Chicago results |
| ApiManager.ShippedKeysDisableSources | api-manager.js:10-106 | with the placeholder keys the code ships with, Harvard and Rijksmuseum searches return nothing |
| ApiManager.ArtworkDetailsUrl | api-manager.js:287-300 | a detail URL exists exactly for ids whose source tag is `met` or `chicago` |
| ApiManager.DetailsRecoverSource | api-manager.js:288-300 | the details URL of a formatted MET or Chicago record is that museum's object URL for its native id; Harvard and Rijksmuseum records have none |
| ApiManager.SimilarTerms | api-manager.js:303-308 | at most four search terms, none empty or "Unknown Artist", the artist first when usable |
| ApiManager.SimilarTermsExact | api-manager.js:303-308 | a text is a term exactly when it is one of artist, classification, style and period that is truthy and not "Unknown Artist" |
| ApiManager.APIManager.constructor | api-manager.js:2-25 | an empty cache and the placeholder API keys |
| ApiManager.APIManager.SearchArtworks | api-manager.js:244-285 | a cached key returns the stored results and changes nothing; a miss returns `SearchResults`, stores it under the key and counts one network dispatch |
| ApiManager.APIManager.Expire | api-manager.js:282 | the timeout removes exactly that key |
| ApiManager.APIManager.GetSimilarArtworks | api-manager.js:302-314 | the first `limit` results of the (cached or fresh) all-museum search for the joined terms, without the artwork itself; on a hit the cache is untouched, on a miss the fresh results are stored under the key and one more dispatch is counted |
| ApiManager.CacheScenario | api-manager.js:245-282 | a repeated search returns the first answer even after the network changes; after expiry the search sees the new network |
| Timeline.SampleArtworks | pinterest-gallery.js:120-130 | the sampling loop computes `Sample` |
| Timeline.SampleSpec | pinterest-gallery.js:120-130 | at most `n` samples; sample k is the id at index `k * step` with `step = floor(len / n)`; with `n <= len` exactly `n` samples at strictly increasing indices |
| Timeline.SampleAll | pinterest-gallery.js:120-130 | asking for as many samples as there are ids keeps every id in order |
| Timeline.MakeBatches | pinterest-gallery.js:70-75 | the batching loop computes `Batches` |
| Timeline.BatchesSpec | pinterest-gallery.js:70-75 | the batches concatenate back to the ids; each holds 1 to 20 ids and all but the last exactly 20 |
| Timeline.KeepValid | pinterest-gallery.js:87-91 | the objects kept from a batch are at most its size, each has a small image and a nonzero begin date, and each is a response to some id of the batch |
| Timeline.KeepValidInOrder | pinterest-gallery.js:79-91 | the kept objects are the usable responses of the batch, filtered in id order |
| Timeline.KeepValidCount | pinterest-gallery.js:79-91 | a usable object is kept as often as it was answered, any other object never |
| Timeline.KeepValidComplete | pinterest-gallery.js:87-91 | every usable response is kept |
| Timeline.KeepValidConcat | pinterest-gallery.js:79-93 | filtering batch by batch equals filtering all the ids at once |
| Timeline.KeepValidNextBatch | pinterest-gallery.js:79-93 | pushing one more batch's valid objects extends the filtered prefix |
| Timeline.Insert | pinterest-gallery.js:102 | inserting into a date-sorted list keeps it sorted and adds exactly that object |
| Timeline.SortByDate | pinterest-gallery.js:102 | the result is sorted by begin date and is a permutation of the input |
| Timeline.YearFilter | pinterest-gallery.js:132-158 | the shown artworks are no more than all artworks, and each is one of them within the year window and the filter |
| Timeline.YearFilterSpec | pinterest-gallery.js:132-158 | the displayed artworks are an order-preserving part of all artworks, exactly those within 50 years of the slider year that carry the filter's keyword |
| Timeline.UnknownFilterShowsAll | pinterest-gallery.js:141-157 | a filter without a keyword behaves like 'all' |
| Timeline.FilterKeepsSorted | pinterest-gallery.js:102-138 | filtering a date-sorted list keeps it sorted, so the displayed list is in date order |
| Timeline.TruncateTitle | pinterest-gallery.js:183-186 | titles up to the limit are unchanged; longer ones keep the first `limit` characters followed by "..." |
| Timeline.TruncateTitleBound | pinterest-gallery.js:183-186 | a truncated title is at most `limit + 3` long and is left unchanged when truncated again at that length |
| Timeline.FormatYear | pinterest-gallery.js:188-192 | a negative year is digits then " BCE", a year below 1000 digits then " CE", and a later year digits alone |
| Timeline.FormatYearRoundTrip | pinterest-gallery.js:188-192 | reading a year label back gives the year: "N BCE", "N CE" below 1000, a bare number from 1000 on |
| Timeline.FormatYearInjective | pinterest-gallery.js:188-192 | different years get different labels |
| Timeline.EraIndex | pinterest-gallery.js:199-213 | the era index counts the era bounds the year has reached, and the year is below the next bound |
| Timeline.EraName | pinterest-gallery.js:199-213 | the era's name is the one for the number of bounds reached |
| Timeline.EraMonotone | pinterest-gallery.js:199-213 | a later year is never in an earlier era |
| Timeline.EraBoundaries | pinterest-gallery.js:200-212 | the eras change exactly at -3000 and 2000, and 1900 is the Modern Era |
| Timeline.CardOf | pinterest-gallery.js:171-180 | a card exists exactly when the title is a string; it carries the id, the small image, the title as alt text, the title truncated to 50 characters, the artist or else the culture or else "Unknown", and a year label that reads back as the begin date |
| Timeline.CardsOf | pinterest-gallery.js:171-180 | one card per artwork in order, failing exactly when some artwork has no title string |
| Timeline.RenderGrid | pinterest-gallery.js:163-181 | no artworks gives the message; otherwise one card per artwork in order with its id, year label and a title of at most 53 characters, unless rendering throws on a missing title |
| Timeline.FindById | pinterest-gallery.js:216-217 | `None` exactly when no artwork has that id; otherwise the first artwork with it |
| Timeline.ModalOf | pinterest-gallery.js:215-230 | the modal shows the image, title and link of the artwork; artist and date fall back to "Artist unknown" and "Date unknown"; culture falls back to the period and then to ""; medium, dimensions and credit line fall back to "" |
| Timeline.PinterestGallery.constructor | pinterest-gallery.js:1-10 | no artworks, filter 'all', year 1900, loading |
| Timeline.PinterestGallery.FilterByYear | pinterest-gallery.js:132-161 | the displayed list becomes `YearFilter` of the sorted artworks and stays sorted; the grid is re-rendered unless rendering throws |
| Timeline.PinterestGallery.SetYear | pinterest-gallery.js:20-24 | the slider sets the year and its year and era labels, and refilters |
| Timeline.PinterestGallery.SetFilter | pinterest-gallery.js:27-34 | a filter button sets the filter and refilters |
| Timeline.PinterestGallery.LoadAllArtworks | pinterest-gallery.js:42-118 | a failed or empty search fails and changes nothing; otherwise the artworks become the date-sorted valid objects of the sample of at most 500 ids, the view is refiltered, and the status says whether rendering succeeded |
| Timeline.PinterestGallery.LoadBatches | pinterest-gallery.js:79-99 | the batch loop appends exactly the valid objects of all batches |
| Timeline.PinterestGallery.ShowArtworkDetails | pinterest-gallery.js:215-230 | the modal shows the first artwork with that id, or stays as it was when there is none |
| App.SearchUrlParams | app.js:26-40 | the request goes to the search endpoint; its query string reads back as `hasImages=true`, then `q` (the encoded query, or "painting" when empty), then `departmentIds` exactly when one is chosen |
| App.SearchIds | app.js:42-56 | a failed request gives no ids and the error status; missing or empty `objectIDs` give no ids and "no artworks found"; a non-empty answer gives those ids and their count |
| App.Present | app.js:62-72 | the non-null responses, exactly |
| App.PresentInOrder | app.js:62-75 | the non-null responses in their order, each object as often as it was answered |
| App.FetchArtworkDetails | app.js:60-76 | an order-preserving part of the non-null responses: exactly those with a primary image, each as often as it was answered, no more than the ids |
| App.JsRem | app.js:307-315 | JavaScript `%`: NaN exactly for a NaN operand or a zero divisor; otherwise smaller in magnitude than the divisor, with the dividend's sign, and differing from the dividend by a multiple of the divisor |
| App.NextIndex | app.js:312-315 | "next" is NaN exactly when the index is NaN or there are no artworks; otherwise it is smaller than the count in magnitude |
| App.PrevIndex | app.js:307-310 | "previous" is NaN exactly when the index is NaN or there are no artworks; otherwise it is smaller than the count in magnitude |
| App.StepStaysInRange | app.js:307-315 | from any non-negative index the carousel buttons land inside a non-empty list; with no artworks the index becomes NaN |
| App.NextIndexValue | app.js:312-315 | "next" moves one forward and wraps from the last to 0 |
| App.PrevIndexValue | app.js:307-310 | "previous" moves one back and wraps from 0 to the last |
| App.NextPrevInverse | app.js:307-315 | "previous" undoes "next" and "next" undoes "previous" |
| App.Drop | app.js:159-161 | slicing at `n` splits the list: the first `n` ids (`Take`) followed by the result give back the whole list, so the result is empty when there are at most `n` ids |
| App.NextPage | app.js:159-163 | the next page is empty exactly when the pages so far cover all ids; otherwise it extends the covered prefix |
| App.TilesAppend | app.js:79-88 | appended elements continue the `data-index` numbering, so the gallery still shows `artworks` in order |
| App.AppState.constructor | app.js:2-8 | no ids, page 0, no artworks, index 0 |
| App.AppState.RenderGallery | app.js:79-106 | the artworks and elements are replaced, or extended when appending, with indices continuing from the existing ones |
| App.AppState.LoadMore | app.js:155-175 | when ids remain, the next 50 are fetched and appended and the page advances, and the button hides once the page reaches the end; otherwise nothing changes |
| App.AppState.Search | app.js:260-278 | the ids and status are the search answer; with ids, the first page is rendered, the page is 1 and "Load More" is shown exactly when more than 50 ids were found; without, the gallery is cleared and the button hidden |
| App.DetailModalOf | app.js:109-128 | the modal shows the image and title; artist, date, medium and department are their labels followed by the field when truthy, else by "Unknown" |
| App.AppState.ShowArtworkDetails | app.js:109-128 | clicking element `t` opens the details of `artworks[t]` and sets the index to `t` |
| App.AppState.Prev | app.js:307-310 | the index becomes `(i - 1 + n) % n` in JavaScript arithmetic |
| App.AppState.Next | app.js:312-315 | the index becomes `(i + 1) % n` in JavaScript arithmetic |
| Gallery.FilterView | gallery.js:114-118 | 'all' shows every artwork; any other filter shows no more artworks than there are, each of that category |
| Gallery.FilterViewSpec | gallery.js:114-118 | 'all' shows every artwork; any other filter shows, in order, exactly the artworks of that category, each as often as it occurs |
| Gallery.ArtGallery.constructor | gallery.js:1-13 | no artworks, filter 'all', museum 'met' |
| Gallery.ArtGallery.LoadInitialArtworks | gallery.js:24-34 | an unfiltered MET search for "painting famous" fills both lists; a rejection shows an error and changes nothing else |
| Gallery.ArtGallery.LoadAIRecommendations | gallery.js:36-45 | the first four results of a Chicago search for "impressionist"; a rejection changes nothing |
| Gallery.ArtGallery.HandleSearch | gallery.js:78-104 | a blank query shows every loaded artwork; any other query searches the current museum with the current filter and replaces both lists, or shows an error on rejection |
| Gallery.ArtGallery.HandleFilter | gallery.js:106-127 | the filter is set and the view filtered; a non-empty search box then searches again, and a box holding only whitespace undoes the filter; the error is shown only when that search fails |
| Gallery.WhitespaceUndoesFilter | gallery.js:78-127 | after the initial load, choosing "paintings" with a box of spaces leaves every loaded artwork shown |
| Gallery.AllObjects | gallery.js:267-270 | `Promise.all`: succeeds exactly when every request succeeds, with the responses in order |
| Gallery.FetchArtworks | gallery.js:262-272 | a failed search rejects; otherwise at most the first eight ids are fetched, the call rejects exactly when one request fails, and the result is exactly the fetched objects with a small image, in order and each as often as fetched |
| Strings.Lower | api-manager.js:227 | lower-casing keeps the length and maps each character |
| Strings.LowerIdempotent | api-manager.js:227 | lower-casing twice is lower-casing once |
| Strings.Split | api-manager.js:288 | at least one piece, and no piece contains the separator |
| Strings.SplitAfterHead | api-manager.js:288 | a separator-free head followed by the separator splits off as the first piece |
| Strings.JoinSplit | api-manager.js:288 | joining the pieces with the separator gives back the string |
| Strings.TrimEmptyIffBlank | gallery.js:79 | `trim()` is empty exactly when the string is all whitespace |
| Strings.ParseNatToString | pinterest-gallery.js:190 | reading a numeral back gives the number |
| Seqs.Filter | api-manager.js:277 | the kept elements pass the predicate and are no more than the input |
| Seqs.FilterKeepsPassing | api-manager.js:277 | every element that passes the predicate is kept |
| Seqs.FilterIsSubsequence | api-manager.js:277 | filtering keeps an order-preserving part of the input |
| Seqs.FilterCount | api-manager.js:277 | filtering keeps every occurrence of a passing element and none of a failing one |
| Seqs.Take | api-manager.js:37 | `slice(0, n)`: the first `min(n, len)` elements |

## Left out

- The DOM and HTML rendering are left out: markup, styles, event
  registration, loading overlays, notifications and progress percentages.
  What a handler shows is modelled as fields: the grid, the tiles, the
  modal, the status and `errorShown`.
- The 3D scene is left out. That is app.js 178-257 with the `updateArtworkDisplay`
  callers, and threejs-gallery.js. It is rendering only.
- The "Read More" and Wikipedia content of app.js is left out. It is further
  network text rendering, outside the core.
- `toggleView`, favourites in `localStorage`, voice recognition and the
  details panel of gallery.js are left out. They are browser and UI features.
- Concurrency is not modelled. `fetch` and `Promise.all` are sequential
  functions of their inputs, so interleavings and request ordering are not
  captured.
- ApiManager.APIManager.Expire: the ten-minute `setTimeout` is an explicit
  call; clocks are not modelled.
- App.SearchUrlParams: `encodeURIComponent` is a parameter, and the lemma
  assumes its output and the department id hold no '?', '&' or '='.
- ApiManager.CacheKey: `JSON.stringify` is modelled only for the `category`
  field, without escaping.
- Strings.Lower: lower-casing is ASCII-only (Unicode case mapping is not
  modelled).
- `substring` works on UTF-16 code units while the model works on Dafny
  characters.
- Only the record fields the core reads are modelled.
- ApiManager.ArtworkDetailsUrl: the body of the details response is not
  modelled, only which URL is requested (or `null`).
- Artworks.Categorize: the inputs are rendered as JavaScript renders them.
  The default `''` applies only to `undefined`, and `null` becomes "null",
  which contains none of the keywords.
- The unused `rateLimiter` field of the API manager is left out.
- ApiManager.APIManager.GetSimilarArtworks: `limit` is a natural number;
  negative or fractional limits are not modelled.
- `parseInt` of the slider value is taken to succeed (the range input only
  produces integers); `NaN` there is not modelled.
- The `isLoading` and `metDepartments` fields of the timeline gallery are
  left out, because the core never changes or reads them.
- A missing `objectBeginDate` is modelled as 0. The validity check treats it
  the same way, because 0 is falsy.
- Timeline.FindById: the loose `==` of `find` is modelled as equality of the
  rendered id with the card's `data-id` string.
- Text that is `undefined` or `null` in `textContent` is modelled as the
  field's `JsString` value, not as its rendered text.
- App.AppState.constructor: the "Load More" button is assumed hidden before
  the first search.
- Timeline.SortByDate: the sort's stability is not stated; only sortedness
  and permutation are proved.
