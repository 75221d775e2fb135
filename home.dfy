/** The home screen: the category chip group, the chip selection, and the featured post. */
module Home {
  import opened Entities

  /** A child of the chip group. A chip remembers the filter type its check listener
      selects; any other view is opaque. */
  datatype GroupChild =
    | Chip(text: string, checkable: bool, checked: bool, filterType: FilterTypeResponse)
    | OtherView(viewId: int)

  /** The chip `createFilterChips` builds for one filter type. */
  function NewChip(filterType: FilterTypeResponse): (chip: GroupChild)
    ensures chip.Chip? && chip.checkable && !chip.checked
    ensures chip.text == filterType.description && chip.filterType == filterType
  {
    Chip(filterType.description, true, false, filterType)
  }

  /** The chip group after `createFilterChips(types)`. */
  function ChipsFor(types: seq<FilterTypeResponse>): (group: seq<GroupChild>)
    ensures |group| == |types|
  {
    seq(|types|, i requires 0 <= i < |types| => NewChip(types[i]))
  }

  /** One chip, in input order, for each filter type: checkable, unchecked, labelled with
      the type's description. */
  lemma ChipsForOnePerType(types: seq<FilterTypeResponse>)
    ensures |ChipsFor(types)| == |types|
    ensures forall i :: 0 <= i < |types| ==>
              var c := ChipsFor(types)[i];
              c.Chip? && c.text == types[i].description && c.filterType == types[i] &&
              c.checkable && !c.checked
  {
  }

  /** The description the selection is compared with: `selectedType?.description`. */
  function SelectedDescription(selected: Option<FilterTypeResponse>): Option<string> {
    match selected case None => None case Some(t) => Some(t.description)
  }

  /** `updateSelectedChip` on one child. Material's `Chip.setChecked` has no effect on a
      chip that is not checkable, so such a chip keeps its flag. */
  function MarkChecked(child: GroupChild, selected: Option<FilterTypeResponse>): (marked: GroupChild)
    ensures !child.Chip? ==> marked == child
    ensures child.Chip? ==>
              && marked.Chip? && marked.text == child.text
              && marked.checkable == child.checkable && marked.filterType == child.filterType
    ensures child.Chip? && child.checkable ==>
              (marked.checked <==> selected.Some? && selected.value.description == child.text)
    ensures child.Chip? && !child.checkable ==> marked == child
  {
    if child.Chip? && child.checkable then
      child.(checked := SelectedDescription(selected) == Some(child.text))
    else child
  }

  function WithSelection(children: seq<GroupChild>, selected: Option<FilterTypeResponse>): (group: seq<GroupChild>)
    ensures |group| == |children|
  {
    seq(|children|, i requires 0 <= i < |children| => MarkChecked(children[i], selected))
  }

  /** After `updateSelectedChip`, a checkable chip is checked iff its text is the selected
      type's description; nothing else about any child changes, and a chip that is not
      checkable or a view that is not a chip is left exactly as it was. */
  lemma WithSelectionChecksMatchingChips(children: seq<GroupChild>, selected: Option<FilterTypeResponse>)
    ensures |WithSelection(children, selected)| == |children|
    ensures forall i :: 0 <= i < |children| && children[i].Chip? ==>
              var c := WithSelection(children, selected)[i];
              c.Chip? && c.text == children[i].text && c.checkable == children[i].checkable &&
              c.filterType == children[i].filterType
    ensures forall i :: 0 <= i < |children| && children[i].Chip? && children[i].checkable ==>
              (WithSelection(children, selected)[i].checked <==>
                 selected.Some? && children[i].text == selected.value.description)
    ensures forall i :: 0 <= i < |children| && !(children[i].Chip? && children[i].checkable) ==>
              WithSelection(children, selected)[i] == children[i]
  {
  }

  /** With no selected type every checkable chip ends unchecked; any other chip keeps
      its flag. */
  lemma NoSelectionUnchecksAll(children: seq<GroupChild>)
    ensures forall i :: 0 <= i < |children| && children[i].Chip? && children[i].checkable ==>
              WithSelection(children, None)[i].Chip? && !WithSelection(children, None)[i].checked
    ensures forall i :: 0 <= i < |children| && children[i].Chip? && !children[i].checkable ==>
              WithSelection(children, None)[i].checked == children[i].checked
  {
  }

  /** On a rebuilt group, whose chips are all checkable, no selection leaves every chip
      unchecked. */
  lemma NoSelectionUnchecksRebuiltGroup(types: seq<FilterTypeResponse>)
    ensures var group := WithSelection(ChipsFor(types), None);
            |group| == |types| && forall i :: 0 <= i < |group| ==> group[i].Chip? && !group[i].checked
  {
  }

  /** When the filter types have distinct descriptions, selecting type k checks chip k
      and no other. */
  lemma SelectingTypeChecksItsChipOnly(types: seq<FilterTypeResponse>, k: nat)
    requires k < |types|
    requires forall i, j :: 0 <= i < j < |types| ==> types[i].description != types[j].description
    ensures var group := WithSelection(ChipsFor(types), Some(types[k]));
            |group| == |types| &&
            forall i :: 0 <= i < |group| ==> (group[i].checked <==> i == k)
  {
  }

  /** The fragment's views, together with the calls it makes on its view model. */
  class HomeScreen {
    var chips: seq<GroupChild>
    /** The last filter type handed to the view model's `selectFilterType`. */
    var requestedFilterType: Option<FilterTypeResponse>
    /** The main thumbnail: the image URL loaded, its title and subtitle. */
    var thumbnailUrl: Option<string>
    var thumbnailTitle: string
    var thumbnailSubtitle: string
    /** The post whose detail a click on the thumbnail requests. */
    var thumbnailPostId: Option<int>
    /** The thumbnail list adapter's items. */
    var thumbnailList: seq<PostImage>

    /** The views as the layout inflates them. */
    constructor (children: seq<GroupChild>, title: string, subtitle: string)
      ensures chips == children && requestedFilterType.None?
      ensures thumbnailUrl.None? && thumbnailTitle == title && thumbnailSubtitle == subtitle
      ensures thumbnailPostId.None? && thumbnailList == []
    {
      chips, requestedFilterType := children, None;
      thumbnailUrl, thumbnailTitle, thumbnailSubtitle := None, title, subtitle;
      thumbnailPostId, thumbnailList := None, [];
    }

    /** `createFilterChips`: every earlier child is removed, then one chip per type is added. */
    method CreateFilterChips(types: seq<FilterTypeResponse>)
      modifies this`chips
      ensures chips == ChipsFor(types)
    {
      chips := [];
      for i := 0 to |types|
        invariant chips == ChipsFor(types[..i])
      {
        assert types[..i + 1] == types[..i] + [types[i]];
        chips := chips + [NewChip(types[i])];
      }
      assert types[..|types|] == types;
    }

    /** `updateSelectedChip`: each chip's checked flag is set in place. */
    method UpdateSelectedChip(selected: Option<FilterTypeResponse>)
      modifies this`chips
      ensures chips == WithSelection(old(chips), selected)
    {
      var i := 0;
      while i < |chips|
        invariant 0 <= i <= |chips| == |old(chips)|
        invariant forall k :: 0 <= k < i ==> chips[k] == MarkChecked(old(chips)[k], selected)
        invariant forall k :: i <= k < |chips| ==> chips[k] == old(chips)[k]
      {
        chips := chips[i := MarkChecked(chips[i], selected)];
        i := i + 1;
      }
    }

    /** The check listener of chip `index`, called with its new checked state: checking
        selects the chip's filter type, unchecking does nothing. */
    method OnChipCheckedChanged(index: nat, isChecked: bool)
      requires index < |chips| && chips[index].Chip?
      modifies this`requestedFilterType
      ensures requestedFilterType ==
                if isChecked then Some(chips[index].filterType) else old(requestedFilterType)
    {
      if isChecked {
        requestedFilterType := Some(chips[index].filterType);
      }
    }

    /** `updateMainThumbnail`, also run by a click in the thumbnail list. */
    method UpdateMainThumbnail(image: PostImage)
      modifies this`thumbnailUrl, this`thumbnailTitle, this`thumbnailSubtitle
      ensures thumbnailUrl == Some(image.imageUrl)
      ensures thumbnailTitle == image.description && thumbnailSubtitle == ""
    {
      thumbnailUrl := Some(image.imageUrl);
      thumbnailTitle := image.description;
      thumbnailSubtitle := "";
    }

    /** The posts collector: the first post is featured. Its first image is read without
        a check, so a non-empty list must start with a post that has one. */
    method UpdatePostsUi(posts: seq<Post>)
      requires posts == [] || posts[0].postImages != []
      modifies this`thumbnailUrl, this`thumbnailTitle, this`thumbnailSubtitle,
               this`thumbnailPostId, this`thumbnailList
      ensures posts == [] ==>
                && thumbnailUrl == old(thumbnailUrl) && thumbnailTitle == old(thumbnailTitle)
                && thumbnailSubtitle == old(thumbnailSubtitle)
                && thumbnailPostId == old(thumbnailPostId) && thumbnailList == old(thumbnailList)
      ensures posts != [] ==>
                && thumbnailUrl == Some(posts[0].postImages[0].imageUrl)
                && thumbnailTitle == posts[0].title && thumbnailSubtitle == posts[0].subContent
                && thumbnailPostId == Some(posts[0].id) && thumbnailList == posts[0].postImages
    {
      if posts != [] {
        var post := posts[0];
        UpdateMainThumbnail(post.postImages[0]);
        thumbnailTitle := post.title;
        thumbnailSubtitle := post.subContent;
        thumbnailPostId := Some(post.id);
        thumbnailList := post.postImages;
      }
    }
  }
}
