# Restory screen rules in Dafny

Restory is an Android app that lists "play spaces" (posts), filters them by region and category,
shows a post's details and places the posts on a Kakao map. Most of its code wires views to SDKs.
This project models the small decision rules inside that wiring and proves what they promise:

- `MapUtils`: the region-code → coordinate table, with its Seoul City Hall fallback.
- `Detail` (the detail screen):
  - the texts and images a post renders into;
  - the `tel:` URI the telephone link opens;
  - the address the homepage link opens;
  - the opening-hours toggle, as a class `TimeSection`.
- `PlaceMap` (the map screen), as a class `MapScreen`. It models:
  - the marker layer, rebuilt from each place list;
  - the region list and its visibility toggle;
  - the selected region and the camera target;
  - the bottom-sheet state rule;
  - the area-filter button text;
  - the fetch request a category change sends.
- `Home` (the home screen), as a class `HomeScreen`. It models:
  - the category chip group, rebuilt from the filter types;
  - the checked-chip rule and the chip check listener;
  - the featured-post thumbnail.
- `Entities`: the API records as datatypes. `Widgets`: Android's view visibility and bottom-sheet states.
- `Text`: Kotlin's decimal rendering of `Int` in string templates. It proves that the rendering can be read back, so it is injective.

Each observer or listener body is a method that is called with the new value. View-model calls
that the screens make are recorded as fields: `selectedRegion`, `requestedFilterType` and
`lastPlaceQuery`. `OnFilterCategoryChange` instead returns the request it would send.
`thumbnailPostId` records no call: it is the post id that a later click on the home
thumbnail would pass to `getPostDetail`. State that the source changes in place is a class field, and
each method's `modifies` clause names exactly the fields it changes.

Coordinates are Dafny `real`s, written with the source's literal digits. No arithmetic is done on them.

Three preconditions are real demands of the source:

- `MapScreen.SetMapPosition` and `MapScreen.OnRegionSelected` require that the map is ready. `setKakaoMapPosition` reads the `lateinit` property `kakaoMap`, which throws before the map-ready callback has run.
- `MapScreen.OnCurrentLocation` requires that the map is ready, and this holds at every call site. `getCurrentLocation` is reached only through `setupLocationPermission`, which is called from the map-ready callback. Its other route is the permission result that answers the request made there.
- `HomeScreen.UpdatePostsUi` requires that a non-empty post list starts with a post that has at least one image. The source reads `postImages[0]` without a check.

## Model

| member | source | states |
|---|---|---|
| `MapUtils.GetCoordinate` | app/src/main/java/com/cyber/restory/utils/MapUtils.kt:11-47 | each of the 16 named codes gives its entry of the reference table; every other code gives Seoul City Hall; every result lies in South Korea's bounding box |
| `MapUtils.SeoulIsTheFallback` | app/src/main/java/com/cyber/restory/utils/MapUtils.kt:14-46 | "SEOUL" and any unknown code give the same point, Seoul City Hall |
| `MapUtils.AllRegionsCentreOnSeoul` | app/src/main/java/com/cyber/restory/utils/MapUtils.kt:46 | the map screen's "ALL" region centres on Seoul City Hall |
| `MapUtils.CoordinateDependsOnlyOnCode` | app/src/main/java/com/cyber/restory/utils/MapUtils.kt:12 | two regions with the same code get the same point, whatever their name and count |
| `MapUtils.NamedCoordinatesDistinct` | app/src/main/java/com/cyber/restory/utils/MapUtils.kt:13-44 | two different named codes never share a point |
| `Text.NatToString` | app/src/main/java/com/cyber/restory/presentation/place/map/PlaceMapFragment.kt:250 | the rendering of a non-negative index is a non-empty run of digits with no leading zero |
| `Text.NatToStringInjective` | app/src/main/java/com/cyber/restory/presentation/place/map/PlaceMapFragment.kt:250 | distinct indices render to distinct strings; proved by reading the digits back (`ParseNatOfNatToString`) |
| `Text.IntToString` | app/src/main/java/com/cyber/restory/presentation/place/map/PlaceMapFragment.kt:128 | a count renders with a leading minus exactly when it is negative |
| `Text.ParseIntOfIntToString` | app/src/main/java/com/cyber/restory/presentation/place/map/PlaceMapFragment.kt:128 | a rendered count reads back to the same count |
| `Detail.DialUri` | app/src/main/java/com/cyber/restory/presentation/detail/DetailActivity.kt:125-127 | the dialer URI is `tel:` followed by exactly the number |
| `Detail.HasWebScheme` | app/src/main/java/com/cyber/restory/presentation/detail/DetailActivity.kt:135 | the scheme test: the URL starts with `http://` or `https://`; a URL that passes starts with "http" and has at least seven characters |
| `Detail.WebPageUri` | app/src/main/java/com/cyber/restory/presentation/detail/DetailActivity.kt:132-138 | an empty text opens nothing, and every other text opens an address; that address always has an `http://` or `https://` scheme; a text that already has one opens unchanged, any other opens behind `http://` |
| `Detail.WebPageUriIdempotent` | app/src/main/java/com/cyber/restory/presentation/detail/DetailActivity.kt:134-135 | normalising an address that was already opened gives the same address |
| `Detail.ImageAt` | app/src/main/java/com/cyber/restory/presentation/detail/DetailActivity.kt:88-92 | `list[index]` gives the element exactly when the index is in range, and an out-of-bounds error otherwise |
| `Detail.TextsOf` | app/src/main/java/com/cyber/restory/presentation/detail/DetailActivity.kt:78-84 | the seven text bindings: category, title, description, time, holiday followed by " 휴무", telephone and homepage from the post; no image widget is touched |
| `Detail.RenderDetailAsWritten` | app/src/main/java/com/cyber/restory/presentation/detail/DetailActivity.kt:76-98 | `updateUI` as written fails exactly on posts with one single image, at index 1 of a list of size 1 |
| `Detail.SingleImagePostFails` | app/src/main/java/com/cyber/restory/presentation/detail/DetailActivity.kt:86-92 | a concrete post with one image makes the as-written rendering fail |
| `Detail.RenderDetail` | app/src/main/java/com/cyber/restory/presentation/detail/DetailActivity.kt:76-98 | each text view shows its post field, and the holiday text is the holiday followed by " 휴무"; the front image is shown iff there is at least one image, the behind image iff there are at least two; each shown image is the one at that index |
| `Detail.RenderDetailAgreesWithAsWritten` | app/src/main/java/com/cyber/restory/presentation/detail/DetailActivity.kt:86-96 | on every post the as-written code renders, the checked rendering gives the same view |
| `Detail.LinksOpenRenderedPost` | app/src/main/java/com/cyber/restory/presentation/detail/DetailActivity.kt:116-117 | the telephone and homepage links open the URIs built from the rendered post's telephone and URL |
| `Detail.Toggled` | app/src/main/java/com/cyber/restory/presentation/detail/DetailActivity.kt:102-113 | a click flips the selection, after which visibility and margin agree with it |
| `Detail.ToggledTwiceRestores` | app/src/main/java/com/cyber/restory/presentation/detail/DetailActivity.kt:102-113 | from a state where visibility and margin agree with the selection, two clicks restore the original state |
| `Detail.ToggledShowsHolidayIffSelected` | app/src/main/java/com/cyber/restory/presentation/detail/DetailActivity.kt:104-112 | after a click the holiday text is visible iff selected, and the margin is expanded iff selected |
| `Detail.TimeSection.OnToggleClick` | app/src/main/java/com/cyber/restory/presentation/detail/DetailActivity.kt:102-114 | the listener updates the three widget fields in place to `Toggled` of their old values |
| `PlaceMap.LabelId` | app/src/main/java/com/cyber/restory/presentation/place/map/PlaceMapFragment.kt:250 | a marker id is `iconLabel_` followed by the decimal index |
| `PlaceMap.LabelIdInjective` | app/src/main/java/com/cyber/restory/presentation/place/map/PlaceMapFragment.kt:250 | two indices with the same marker id are equal |
| `PlaceMap.MarkerLabels` | app/src/main/java/com/cyber/restory/presentation/place/map/PlaceMapFragment.kt:116-120 | the layer after `removeAll` and the `forEachIndexed` loop of `showIconLabel` (line 250): as many markers as posts, each id carrying the `iconLabel_` prefix |
| `PlaceMap.MarkerLabelsIdentifyPosts` | app/src/main/java/com/cyber/restory/presentation/place/map/PlaceMapFragment.kt:116-120 | the rebuilt layer has one marker per post; marker `iconLabel_k` exists iff post k does, and it is the marker at post k's position |
| `PlaceMap.MarkerLabelIdsDistinct` | app/src/main/java/com/cyber/restory/presentation/place/map/PlaceMapFragment.kt:117-119 | no two markers of a rebuilt layer share an id |
| `PlaceMap.FetchTypeArg` | app/src/main/java/com/cyber/restory/presentation/place/map/PlaceMapFragment.kt:157-158 | "ALL" is never sent; the empty code is sent iff there is no type or its code is "ALL" or empty; otherwise the type's own code is sent |
| `PlaceMap.AreaFilterText` | app/src/main/java/com/cyber/restory/presentation/place/map/PlaceMapFragment.kt:164 | with no "ALL" region the button reads `null (null)` |
| `PlaceMap.AreaFilterTextShowsRegion` | app/src/main/java/com/cyber/restory/presentation/place/map/PlaceMapFragment.kt:128 | the button text starts with the region name, then " (", and ends with ")"; the count reads back from between the brackets |
| `PlaceMap.FirstWithCode` | app/src/main/java/com/cyber/restory/presentation/place/map/PlaceMapFragment.kt:161-163 | no result iff no region has the code; otherwise the result is the earliest region with that code |
| `PlaceMap.SettledSheetState` | app/src/main/java/com/cyber/restory/presentation/place/map/PlaceMapFragment.kt:179-186 | the sheet never stays expanded; expanded becomes collapsed, and every other state is kept |
| `PlaceMap.SettledSheetStateIdempotent` | app/src/main/java/com/cyber/restory/presentation/place/map/PlaceMapFragment.kt:182 | reacting to a settled state changes nothing |
| `PlaceMap.ToggledVisibility` | app/src/main/java/com/cyber/restory/presentation/place/map/PlaceMapFragment.kt:345-351 | the list becomes gone iff it was visible, and is never left invisible |
| `PlaceMap.ToggledVisibilityTwice` | app/src/main/java/com/cyber/restory/presentation/place/map/PlaceMapFragment.kt:345-351 | two toggles restore a visible or gone list; an invisible one ends gone |
| `PlaceMap.MapScreen.constructor` | app/src/main/java/com/cyber/restory/presentation/place/map/PlaceMapFragment.kt:172-176 | the bottom sheet starts hidden, the map not ready, the layer empty |
| `PlaceMap.MapScreen.OnMapReady` | app/src/main/java/com/cyber/restory/presentation/place/map/PlaceMapFragment.kt:218-233 | the map becomes ready, with the camera on Seoul City Hall |
| `PlaceMap.MapScreen.ShowIconLabel` | app/src/main/java/com/cyber/restory/presentation/place/map/PlaceMapFragment.kt:240-251 | appends exactly the marker `iconLabel_index` at the given position |
| `PlaceMap.MapScreen.OnPlaceList` | app/src/main/java/com/cyber/restory/presentation/place/map/PlaceMapFragment.kt:113-124 | with the map ready, the layer becomes exactly one marker per post in list order; before that, the layer is untouched; nothing else changes |
| `PlaceMap.MapScreen.OnSelectedRegion` | app/src/main/java/com/cyber/restory/presentation/place/map/PlaceMapFragment.kt:126-131 | a region sets the button text and the adapter's highlight; no region changes nothing |
| `PlaceMap.MapScreen.OnCityFilters` | app/src/main/java/com/cyber/restory/presentation/place/map/PlaceMapFragment.kt:160-167 | the button shows the first "ALL" region, and the list holds all regions |
| `PlaceMap.MapScreen.OnBottomSheetData` | app/src/main/java/com/cyber/restory/presentation/place/map/PlaceMapFragment.kt:143-153 | the sheet shows element 0 of a non-empty list; an empty list changes nothing |
| `PlaceMap.MapScreen.OnFilterCategoryChange` | app/src/main/java/com/cyber/restory/presentation/place/map/PlaceMapFragment.kt:155-159 | the request carries the selected region's code (when a region is selected) and the normalised type code |
| `PlaceMap.MapScreen.OnSheetStateChanged` | app/src/main/java/com/cyber/restory/presentation/place/map/PlaceMapFragment.kt:178-187 | the sheet ends in `SettledSheetState` of the reported state |
| `PlaceMap.MapScreen.OnLabelClick` | app/src/main/java/com/cyber/restory/presentation/place/map/PlaceMapFragment.kt:258-262 | a marker click queries the marker's position and collapses the sheet |
| `PlaceMap.MapScreen.ToggleRegionList` | app/src/main/java/com/cyber/restory/presentation/place/map/PlaceMapFragment.kt:345-351 | the list visibility becomes `ToggledVisibility` of the old one |
| `PlaceMap.MapScreen.SetMapPosition` | app/src/main/java/com/cyber/restory/presentation/place/map/PlaceMapFragment.kt:359-362 | the camera centres on the region's table entry |
| `PlaceMap.MapScreen.OnRegionSelected` | app/src/main/java/com/cyber/restory/presentation/place/map/PlaceMapFragment.kt:353-357 | the list toggles; the region becomes the selected one; the camera centres on its table entry; nothing else changes |
| `PlaceMap.MapScreen.OnCurrentLocation` | app/src/main/java/com/cyber/restory/presentation/place/map/PlaceMapFragment.kt:309-323 | a known location recentres the camera; an unknown one changes nothing |
| `Home.ChipsForOnePerType` | app/src/main/java/com/cyber/restory/presentation/home/HomeFragment.kt:133-175 | the rebuilt group has one chip per filter type, in order; each chip is checkable and unchecked, with the type's description as its text |
| `Home.NewChip` | app/src/main/java/com/cyber/restory/presentation/home/HomeFragment.kt:135-174 | the chip built for one filter type: checkable, unchecked, its text the type's description, and the type captured for its check listener |
| `Home.ChipsFor` | app/src/main/java/com/cyber/restory/presentation/home/HomeFragment.kt:133-175 | the group after `removeAllViews` and the `forEach` loop of `addView`: one child per filter type |
| `Home.WithSelectionChecksMatchingChips` | app/src/main/java/com/cyber/restory/presentation/home/HomeFragment.kt:123-129 | a checkable chip is checked iff its text equals the selected type's description; every chip keeps its text, checkability and type; a non-checkable chip and a non-chip child are left exactly as they were |
| `Home.MarkChecked` | app/src/main/java/com/cyber/restory/presentation/home/HomeFragment.kt:124-127 | one child under `updateSelectedChip`: a checkable chip keeps its text, checkability and filter type, and is checked iff the selected type's description equals its text; a chip that is not checkable (Material ignores `setChecked` on it) and any other view are returned unchanged |
| `Home.WithSelection` | app/src/main/java/com/cyber/restory/presentation/home/HomeFragment.kt:124-127 | the group after `updateSelectedChip`: the same number of children, each under `MarkChecked` |
| `Home.NoSelectionUnchecksAll` | app/src/main/java/com/cyber/restory/presentation/home/HomeFragment.kt:126 | with no selected type every checkable chip ends unchecked, and a non-checkable chip keeps its flag |
| `Home.NoSelectionUnchecksRebuiltGroup` | app/src/main/java/com/cyber/restory/presentation/home/HomeFragment.kt:126-139 | on a group rebuilt from filter types, whose chips are all checkable, no selection leaves no chip checked |
| `Home.SelectingTypeChecksItsChipOnly` | app/src/main/java/com/cyber/restory/presentation/home/HomeFragment.kt:123-175 | when descriptions are distinct, selecting type k checks chip k and no other |
| `Home.HomeScreen.CreateFilterChips` | app/src/main/java/com/cyber/restory/presentation/home/HomeFragment.kt:131-177 | all earlier children are removed, and the group becomes exactly the chips for the types |
| `Home.HomeScreen.UpdateSelectedChip` | app/src/main/java/com/cyber/restory/presentation/home/HomeFragment.kt:123-129 | each child is updated in place to its `MarkChecked` value |
| `Home.HomeScreen.OnChipCheckedChanged` | app/src/main/java/com/cyber/restory/presentation/home/HomeFragment.kt:163-168 | checking a chip requests its own filter type; unchecking requests nothing |
| `Home.HomeScreen.UpdateMainThumbnail` | app/src/main/java/com/cyber/restory/presentation/home/HomeFragment.kt:198-207 | the thumbnail loads the image, shows its description and clears the subtitle |
| `Home.HomeScreen.UpdatePostsUi` | app/src/main/java/com/cyber/restory/presentation/home/HomeFragment.kt:179-196 | an empty list changes nothing; otherwise post 0 is featured, showing its first image, its title and its sub-content; post 0's id is the click target; the thumbnail list is exactly its images |

## Findings

| source | as written | input that shows it | evidently intended | confidence | as-written member | corrected member |
|---|---|---|---|---|---|---|
| app/src/main/java/com/cyber/restory/presentation/detail/DetailActivity.kt:86-92 | the image block is guarded by `postImages.isNotEmpty()` but reads `postImages[1]` | a post with exactly one image: `IndexOutOfBounds(1, 1)`, shown by `Detail.SingleImagePostFails` | every image index is checked before it is read; front image from one image, behind image from two | not executed | `Detail.RenderDetailAsWritten` | `Detail.RenderDetail` |

## Left out

- The REST client (`ApiClient.kt`) and the use case (`GetPostsUseCase.kt`) are left out. They are a declarative Retrofit interface and a one-line pass-through. The paging defaults there are annotation values with nothing to prove.
- The Kakao Map SDK is left out: map lifecycle, label styles, zoom levels, the camera's minimum and maximum levels, and `moveCamera` itself. The camera is modelled only as its last centre, and the label layer as a sequence.
- A `labelManager` or `layer` that the SDK leaves `null` is not modelled, so the model treats the layer as present once the map is ready. With a `null` layer, the source's `?.` calls would do nothing.
- The detail screen's map, centred on the post (`initializeMapView`, `showLocationOnMap`), is left out. It is camera calls only.
- Glide image loading is left out. Only the URL handed to it is modelled.
- Android navigation, Intents, `startActivity`, Toasts and Log are left out. Only the URI or the post id that would be passed on is modelled.
- Location permissions and `FusedLocationProviderClient` are OS I/O. Only the success callback's effect on the camera is modelled.
- Coroutines, flows, `repeatOnLifecycle` and LiveData delivery are left out. Each observer body is a method called with the new value.
- The view-model internals are not part of this model. `setSelectedRegion` is assumed to store the region that `selectedRegion.value` later returns.
- `PlaceFilterAdapter`, `RegionAdapter` and `ArticleThumbnailAdapter` internals are left out, including `notifyDataSetChanged`. The model keeps only the list and highlight handed to them.
- Chip styling is left out: icons, padding, colours, margins and `View.generateViewId`. It has no bearing on the selection rule.
- Android fires a chip's check listener again when `updateSelectedChip` sets `isChecked` programmatically. The model does not capture that re-entrant call. `OnChipCheckedChanged` is the listener body on its own.
- Home.NoSelectionUnchecksAll: promises "no chip left checked" only for checkable chips. Material's `Chip.setChecked` ignores a chip that is not checkable, so such a chip keeps its flag. Only chips inflated from the layout can be non-checkable; every chip the screen creates is checkable, and `Home.NoSelectionUnchecksRebuiltGroup` covers those.
- `Chip.text` is compared with the description by string content. Any span or transformation a `TextView` may apply to its text is not modelled.
- Post fields are modelled as non-null strings. A `null` holiday would render as "null 휴무" in the source, and the model does not cover that.
- MapScreen.OnRegionSelected: a region selected before the map is ready is excluded by its precondition. In the source, that crash path throws at the `lateinit` `kakaoMap` and is not modelled.
- HomeScreen.UpdatePostsUi: a non-empty post list whose first post has no image is excluded by its precondition. In the source, that crash path throws at `postImages[0]` and is not modelled.
- Doubles are modelled as exact reals. No arithmetic is done on them.
