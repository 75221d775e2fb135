/** The map screen: post markers on the label layer, the region list and its selection,
    the camera, the bottom sheet, and the fetch request a category change issues. */
module PlaceMap {
  import opened Entities
  import opened Widgets
  import opened Text
  import MapUtils

  /** A marker on the label layer. */
  datatype Label = Label(id: string, position: Coordinate)

  /** The arguments of the view model's `fetchPlaceData(city, type)`. */
  datatype FetchRequest = FetchRequest(city: Option<string>, typeCode: string)

  const LabelPrefix := "iconLabel_"

  /** The id of the marker for the post at `index`. */
  function LabelId(index: nat): (id: string)
    ensures StartsWith(id, LabelPrefix) && id[|LabelPrefix|..] == NatToString(index)
  {
    LabelPrefix + NatToString(index)
  }

  lemma LabelIdInjective(i: nat, j: nat)
    requires LabelId(i) == LabelId(j)
    ensures i == j
  {
    assert LabelId(i)[|LabelPrefix|..] == LabelId(j)[|LabelPrefix|..];
    NatToStringInjective(i, j);
  }

  /** The label layer after a place list was shown: one marker per post, in list order. */
  function MarkerLabels(posts: seq<Post>): (labels: seq<Label>)
    ensures |labels| == |posts|
    ensures forall i :: 0 <= i < |posts| ==> StartsWith(labels[i].id, LabelPrefix)
  {
    seq(|posts|, i requires 0 <= i < |posts| =>
      Label(LabelId(i), Coordinate(posts[i].latitude, posts[i].longitude)))
  }

  /** Every marker id names exactly one post: the marker `iconLabel_k` exists iff post k
      exists, and it sits at post k's position. */
  lemma MarkerLabelsIdentifyPosts(posts: seq<Post>, k: nat)
    ensures |MarkerLabels(posts)| == |posts|
    ensures (exists j :: 0 <= j < |posts| && MarkerLabels(posts)[j].id == LabelId(k)) <==> k < |posts|
    ensures forall j :: 0 <= j < |posts| && MarkerLabels(posts)[j].id == LabelId(k) ==>
              j == k && MarkerLabels(posts)[j].position == Coordinate(posts[k].latitude, posts[k].longitude)
  {
    var labels := MarkerLabels(posts);
    forall j | 0 <= j < |posts| && labels[j].id == LabelId(k)
      ensures j == k
    {
      LabelIdInjective(j, k);
    }
    if k < |posts| {
      assert labels[k].id == LabelId(k);
    }
  }

  /** No two markers share an id. */
  lemma MarkerLabelIdsDistinct(posts: seq<Post>, i: nat, j: nat)
    requires i < |posts| && j < |posts| && i != j
    ensures MarkerLabels(posts)[i].id != MarkerLabels(posts)[j].id
  {
    if MarkerLabels(posts)[i].id == MarkerLabels(posts)[j].id {
      LabelIdInjective(i, j);
    }
  }

  /** The type code sent when the category changes: no category and "ALL" both mean
      "every type", sent as the empty code; any other code goes through unchanged. */
  function FetchTypeArg(filterType: Option<FilterTypeResponse>): (typeCode: string)
    ensures typeCode != "ALL"
    ensures typeCode == "" <==> filterType.None? || filterType.value.code in {"ALL", ""}
    ensures typeCode != "" ==> typeCode == filterType.value.code
  {
    var code := match filterType case None => "ALL" case Some(t) => t.code;
    if code == "ALL" then "" else code
  }

  /** The text of the area-filter button: `name (cnt)`, and `null (null)` when there is
      no region to show. */
  function AreaFilterText(region: Option<Region>): (text: string)
    ensures region.None? ==> text == "null (null)"
  {
    match region
    case None => "null (null)"
    case Some(r) => r.name + " (" + IntToString(r.cnt) + ")"
  }

  /** The button shows the region's name and its count can be read back from it. */
  lemma AreaFilterTextShowsRegion(r: Region)
    ensures var text := AreaFilterText(Some(r));
            && |text| >= |r.name| + 4
            && StartsWith(text, r.name + " (") && text[|text| - 1] == ')'
            && IsIntLiteral(text[|r.name| + 2 .. |text| - 1])
            && ParseInt(text[|r.name| + 2 .. |text| - 1]) == r.cnt
  {
    var text := AreaFilterText(Some(r));
    assert text[|r.name| + 2 .. |text| - 1] == IntToString(r.cnt);
    assert text[..|r.name| + 2] == r.name + " (";
    ParseIntOfIntToString(r.cnt);
  }

  /** Kotlin's `firstOrNull { it.code == code }`. */
  function FirstWithCode(regions: seq<Region>, code: string): (r: Option<Region>)
    ensures r.None? <==> forall i :: 0 <= i < |regions| ==> regions[i].code != code
    ensures r.Some? ==> exists i :: 0 <= i < |regions| && regions[i] == r.value && r.value.code == code &&
                          forall j :: 0 <= j < i ==> regions[j].code != code
  {
    if regions == [] then None
    else if regions[0].code == code then Some(regions[0])
    else
      var rest := FirstWithCode(regions[1..], code);
      assert forall i :: 1 <= i < |regions| ==> regions[i] == regions[1..][i - 1];
      rest
  }

  /** The state the bottom sheet ends in once its callback has reacted to `newState`:
      an expanded sheet is pulled back to collapsed, every other state stays. */
  function SettledSheetState(newState: SheetState): (s: SheetState)
    ensures s != Expanded
    ensures newState != Expanded ==> s == newState
    ensures newState == Expanded ==> s == Collapsed
  {
    if newState == Expanded then Collapsed else newState
  }

  lemma SettledSheetStateIdempotent(newState: SheetState)
    ensures SettledSheetState(SettledSheetState(newState)) == SettledSheetState(newState)
  {
  }

  /** The region list's visibility after one click on the area-filter button. */
  function ToggledVisibility(v: Visibility): (w: Visibility)
    ensures w != Invisible
    ensures w == Gone <==> v == Visible
  {
    if v == Visible then Gone else Visible
  }

  /** Two clicks restore a list that is shown or gone; an invisible one ends gone. */
  lemma ToggledVisibilityTwice(v: Visibility)
    ensures v != Invisible ==> ToggledVisibility(ToggledVisibility(v)) == v
    ensures v == Invisible ==> ToggledVisibility(ToggledVisibility(v)) == Gone
  {
  }

  /** The fragment's view state, together with the view-model values it reads and writes. */
  class MapScreen {
    /** Whether `kakaoMap` (a `lateinit` property) has been set by the map-ready callback. */
    var mapReady: bool
    var labels: seq<Label>
    /** The last position the camera was centred on. */
    var camera: Option<Coordinate>
    var regionListVisibility: Visibility
    var sheetState: SheetState
    var areaFilterText: string
    /** The region list adapter: its items and its highlighted region. */
    var regionItems: seq<Region>
    var highlightedRegion: Option<Region>
    /** The view model's selected region, as `setSelectedRegion` leaves it. */
    var selectedRegion: Option<Region>
    /** What the bottom sheet shows; its click opens the detail of this place. */
    var sheetPlace: Option<PlaceSummary>
    /** The position of the last marker click, handed to `getSelectPlaceData`. */
    var lastPlaceQuery: Option<Coordinate>

    /** `onViewCreated`: the bottom sheet starts hidden and the map is not ready yet. */
    constructor (listVisibility: Visibility, initialAreaText: string)
      ensures !mapReady && labels == [] && camera.None? && sheetState == Hidden
      ensures regionListVisibility == listVisibility && areaFilterText == initialAreaText
      ensures regionItems == [] && highlightedRegion.None? && selectedRegion.None?
      ensures sheetPlace.None? && lastPlaceQuery.None?
    {
      mapReady, labels, camera := false, [], None;
      regionListVisibility, sheetState, areaFilterText := listVisibility, Hidden, initialAreaText;
      regionItems, highlightedRegion, selectedRegion := [], None, None;
      sheetPlace, lastPlaceQuery := None, None;
    }

    /** The map-ready callback: the map becomes usable, centred on Seoul City Hall. */
    method OnMapReady()
      modifies this`mapReady, this`camera
      ensures mapReady && camera == Some(MapUtils.SeoulCityHall)
    {
      mapReady := true;
      camera := Some(MapUtils.SeoulCityHall);
    }

    /** `showIconLabel`: adds the marker of the post at `index`. */
    method ShowIconLabel(index: nat, lat: real, lon: real)
      modifies this`labels
      ensures labels == old(labels) + [Label(LabelId(index), Coordinate(lat, lon))]
    {
      labels := labels + [Label(LabelId(index), Coordinate(lat, lon))];
    }

    /** The place-list observer: once the map is ready every marker is replaced by one per
        post; before that the list is ignored. */
    method OnPlaceList(posts: seq<Post>)
      modifies this`labels
      ensures labels == if mapReady then MarkerLabels(posts) else old(labels)
    {
      if !mapReady {
        return;
      }
      labels := [];
      var i := 0;
      while i < |posts|
        invariant 0 <= i <= |posts|
        invariant |labels| == i
        invariant forall k :: 0 <= k < i ==>
                    labels[k] == Label(LabelId(k), Coordinate(posts[k].latitude, posts[k].longitude))
      {
        ShowIconLabel(i, posts[i].latitude, posts[i].longitude);
        i := i + 1;
      }
    }

    /** The selected-region observer. */
    method OnSelectedRegion(region: Option<Region>)
      modifies this`areaFilterText, this`highlightedRegion
      ensures region.Some? ==> areaFilterText == AreaFilterText(region) && highlightedRegion == region
      ensures region.None? ==> areaFilterText == old(areaFilterText) && highlightedRegion == old(highlightedRegion)
    {
      if region.Some? {
        areaFilterText := AreaFilterText(region);
        highlightedRegion := region;
      }
    }

    /** The city-filter collector: the button shows the "ALL" entry and the list shows
        every region. */
    method OnCityFilters(regions: seq<Region>)
      modifies this`areaFilterText, this`regionItems
      ensures areaFilterText == AreaFilterText(FirstWithCode(regions, "ALL"))
      ensures regionItems == regions
    {
      areaFilterText := AreaFilterText(FirstWithCode(regions, "ALL"));
      regionItems := regions;
    }

    /** The bottom-sheet data observer: the first place is shown, an empty list changes
        nothing. */
    method OnBottomSheetData(data: seq<PlaceSummary>)
      modifies this`sheetPlace
      ensures sheetPlace == if data == [] then old(sheetPlace) else Some(data[0])
    {
      if data != [] {
        sheetPlace := Some(data[0]);
      }
    }

    /** The category-change observer: the request it sends for the selected region. */
    method OnFilterCategoryChange(filterType: Option<FilterTypeResponse>) returns (request: FetchRequest)
      ensures request.typeCode == FetchTypeArg(filterType)
      ensures request.city == match selectedRegion case None => None case Some(r) => Some(r.code)
    {
      var city := match selectedRegion case None => None case Some(r) => Some(r.code);
      request := FetchRequest(city, FetchTypeArg(filterType));
    }

    /** The bottom-sheet callback, reacting to the state the library reports. */
    method OnSheetStateChanged(newState: SheetState)
      modifies this`sheetState
      ensures sheetState == SettledSheetState(newState)
    {
      sheetState := newState;
      if newState == Expanded {
        sheetState := Collapsed;
      }
    }

    /** A click on a marker queries the place at its position and collapses the sheet. */
    method OnLabelClick(marker: Label)
      modifies this`lastPlaceQuery, this`sheetState
      ensures lastPlaceQuery == Some(marker.position) && sheetState == Collapsed
    {
      lastPlaceQuery := Some(marker.position);
      sheetState := Collapsed;
    }

    /** `toggleRegionList`. */
    method ToggleRegionList()
      modifies this`regionListVisibility
      ensures regionListVisibility == ToggledVisibility(old(regionListVisibility))
    {
      regionListVisibility := if regionListVisibility == Visible then Gone else Visible;
    }

    /** `setKakaoMapPosition`: centres the camera on the region's table entry. */
    method SetMapPosition(region: Region)
      requires mapReady
      modifies this`camera
      ensures camera == Some(MapUtils.GetCoordinate(region))
    {
      camera := Some(MapUtils.GetCoordinate(region));
    }

    /** A click in the region list: the list toggles, the region becomes the selected one
        and the camera moves to it. */
    method OnRegionSelected(region: Region)
      requires mapReady
      modifies this`regionListVisibility, this`selectedRegion, this`camera
      ensures regionListVisibility == ToggledVisibility(old(regionListVisibility))
      ensures selectedRegion == Some(region)
      ensures camera == Some(MapUtils.GetCoordinate(region))
    {
      ToggleRegionList();
      selectedRegion := Some(region);
      SetMapPosition(region);
    }

    /** The current-location callback: a known location recentres the camera. */
    method OnCurrentLocation(location: Option<Coordinate>)
      requires mapReady
      modifies this`camera
      ensures camera == if location.Some? then location else old(camera)
    {
      if location.Some? {
        camera := location;
      }
    }
  }
}
