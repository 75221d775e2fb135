/** The detail screen: the texts and images bound from a post, the URIs its telephone and
    homepage links open, and the opening-hours toggle. */
module Detail {
  import opened Entities
  import opened Widgets
  import opened Text

  /** The suffix after the holiday text ("closed"). */
  const HolidaySuffix := " 휴무"

  /** The Intent data of the dialer: `tel:` followed by the number as shown. */
  function DialUri(phoneNumber: string): (uri: string)
    ensures StartsWith(uri, "tel:") && uri[4..] == phoneNumber
  {
    "tel:" + phoneNumber
  }

  /** The scheme test of `openWebPage`; a URL that passes it starts with "http". */
  predicate HasWebScheme(url: string): (b: bool)
    ensures b ==> |url| >= 7 && url[..4] == "http"
  {
    StartsWith(url, "http://") || StartsWith(url, "https://")
  }

  /** The page a homepage click opens: nothing for an empty text, the text itself when it
      already carries a web scheme, and otherwise the text behind `http://`. */
  function WebPageUri(url: string): (target: Option<string>)
    ensures target.None? <==> url == []
    ensures target.Some? ==> HasWebScheme(target.value)
    ensures HasWebScheme(url) ==> target == Some(url)
    ensures url != [] && !HasWebScheme(url) ==>
              target.Some? && StartsWith(target.value, "http://") && target.value[7..] == url
  {
    if url == [] then None
    else if HasWebScheme(url) then Some(url)
    else Some("http://" + url)
  }

  /** Normalising an address that was already opened changes nothing. */
  lemma WebPageUriIdempotent(url: string)
    requires WebPageUri(url).Some?
    ensures WebPageUri(WebPageUri(url).value) == WebPageUri(url)
  {
  }

  /** What a post renders into. The image and behind-text fields are `None` when the
      screen leaves the widget as it was. */
  datatype DetailView = DetailView(
    category: string,
    title: string,
    description: string,
    time: string,
    holidayText: string,
    telephone: string,
    homepage: string,
    mainImageUrl: Option<string>,
    behindImageUrl: Option<string>,
    behindText: Option<string>)

  /** Kotlin's `IndexOutOfBoundsException` from `list[index]`. */
  datatype RenderError = IndexOutOfBounds(index: nat, size: nat)

  datatype Result<+T> = Ok(value: T) | Failed(error: RenderError)

  /** `list[index]` on the post's images. */
  function ImageAt(images: seq<PostImage>, index: nat): (r: Result<PostImage>)
    ensures r.Ok? <==> index < |images|
    ensures r.Ok? ==> r.value == images[index]
    ensures r.Failed? ==> r.error == IndexOutOfBounds(index, |images|)
  {
    if index < |images| then Ok(images[index]) else Failed(IndexOutOfBounds(index, |images|))
  }

  /** The text bindings of `updateUI`; the image widgets are not touched. */
  function TextsOf(post: Post): (v: DetailView)
    ensures v.category == post.postType && v.title == post.title
    ensures v.description == post.summary && v.time == post.duration
    ensures v.holidayText == post.holiday + HolidaySuffix
    ensures v.telephone == post.telephone && v.homepage == post.url
    ensures v.mainImageUrl.None? && v.behindImageUrl.None? && v.behindText.None?
  {
    DetailView(post.postType, post.title, post.summary, post.duration,
               post.holiday + HolidaySuffix, post.telephone, post.url, None, None, None)
  }

  /** `updateUI` as written: the image block is guarded only by non-emptiness, and reads
      both index 0 and index 1. */
  function RenderDetailAsWritten(post: Post): (r: Result<DetailView>)
    ensures r.Failed? <==> |post.postImages| == 1
    ensures r.Failed? ==> r.error == IndexOutOfBounds(1, 1)
  {
    var texts := TextsOf(post);
    if |post.postImages| == 0 then Ok(texts)
    else
      match ImageAt(post.postImages, 0)
      case Failed(e) => Failed(e)
      case Ok(front) =>
        match ImageAt(post.postImages, 1)
        case Failed(e) => Failed(e)
        case Ok(behind) =>
          Ok(texts.(mainImageUrl := Some(front.imageUrl),
                    behindImageUrl := Some(behind.imageUrl),
                    behindText := Some(post.content)))
  }

  /** A concrete post that makes the as-written screen fail. */
  lemma SingleImagePostFails()
    ensures RenderDetailAsWritten(Post(1, "", "", "", "", "", "", "", "", "", 0.0, 0.0,
                                       [PostImage("a.png", "")])).Failed?
  {
  }

  /** `updateUI` with every image index checked before it is read: the front image needs
      one image, the behind image a second one. */
  function RenderDetail(post: Post): (v: DetailView)
    ensures v.category == post.postType && v.title == post.title
    ensures v.description == post.summary && v.time == post.duration
    ensures v.holidayText == post.holiday + HolidaySuffix
    ensures v.telephone == post.telephone && v.homepage == post.url
    ensures v.mainImageUrl.Some? <==> |post.postImages| >= 1
    ensures v.mainImageUrl.Some? ==> v.mainImageUrl.value == post.postImages[0].imageUrl
    ensures v.behindImageUrl.Some? <==> |post.postImages| >= 2
    ensures v.behindImageUrl.Some? ==> v.behindImageUrl.value == post.postImages[1].imageUrl
    ensures v.behindText == (if |post.postImages| >= 1 then Some(post.content) else None)
  {
    var images := post.postImages;
    TextsOf(post).(
      mainImageUrl := if |images| >= 1 then Some(images[0].imageUrl) else None,
      behindImageUrl := if |images| >= 2 then Some(images[1].imageUrl) else None,
      behindText := if |images| >= 1 then Some(post.content) else None)
  }

  /** Wherever the as-written screen renders, the checked one renders the same. */
  lemma RenderDetailAgreesWithAsWritten(post: Post)
    requires RenderDetailAsWritten(post).Ok?
    ensures RenderDetail(post) == RenderDetailAsWritten(post).value
  {
  }

  /** The telephone and homepage links open what the rendered post shows. */
  lemma LinksOpenRenderedPost(post: Post)
    ensures DialUri(RenderDetail(post).telephone) == "tel:" + post.telephone
    ensures WebPageUri(RenderDetail(post).homepage) == WebPageUri(post.url)
  {
  }

  /** The opening-hours section: toggle selection, holiday-text visibility and the
      telephone label's top margin. */
  datatype ToggleState = ToggleState(selected: bool, holidayVisibility: Visibility, telephoneTopMargin: int)

  /** The state the widgets are in after the toggle was clicked at least once. */
  predicate Settled(s: ToggleState, expandedMargin: int, collapsedMargin: int) {
    && s.holidayVisibility == (if s.selected then Visible else Invisible)
    && s.telephoneTopMargin == (if s.selected then expandedMargin else collapsedMargin)
  }

  /** One click on the time toggle. */
  function Toggled(s: ToggleState, expandedMargin: int, collapsedMargin: int): (t: ToggleState)
    ensures t.selected == !s.selected
    ensures Settled(t, expandedMargin, collapsedMargin)
  {
    var selected := !s.selected;
    ToggleState(selected,
                if selected then Visible else Invisible,
                if selected then expandedMargin else collapsedMargin)
  }

  /** From a settled state, two clicks give the original state back. */
  lemma ToggledTwiceRestores(s: ToggleState, expandedMargin: int, collapsedMargin: int)
    requires Settled(s, expandedMargin, collapsedMargin)
    ensures Toggled(Toggled(s, expandedMargin, collapsedMargin), expandedMargin, collapsedMargin) == s
  {
  }

  /** The holiday text is shown exactly when the toggle is selected, and the label's margin
      is expanded exactly then, provided the two dimensions differ. */
  lemma ToggledShowsHolidayIffSelected(s: ToggleState, expandedMargin: int, collapsedMargin: int)
    requires expandedMargin != collapsedMargin
    ensures var t := Toggled(s, expandedMargin, collapsedMargin);
            (t.holidayVisibility == Visible <==> t.selected) &&
            (t.telephoneTopMargin == expandedMargin <==> t.selected)
  {
  }

  /** The widgets of the opening-hours section, updated in place by the click listener. */
  class TimeSection {
    var isSelected: bool
    var holidayVisibility: Visibility
    var telephoneTopMargin: int
    /** `R.dimen.expanded_margin` and `R.dimen.collapsed_margin` in pixels. */
    const expandedMargin: int
    const collapsedMargin: int

    function State(): ToggleState
      reads this
    {
      ToggleState(isSelected, holidayVisibility, telephoneTopMargin)
    }

    /** The section as the layout inflates it. */
    constructor (selected: bool, visibility: Visibility, margin: int, expanded: int, collapsed: int)
      ensures State() == ToggleState(selected, visibility, margin)
      ensures expandedMargin == expanded && collapsedMargin == collapsed
    {
      isSelected, holidayVisibility, telephoneTopMargin := selected, visibility, margin;
      expandedMargin, collapsedMargin := expanded, collapsed;
    }

    /** The click listener of the time toggle. */
    method OnToggleClick()
      modifies this
      ensures State() == Toggled(old(State()), expandedMargin, collapsedMargin)
    {
      isSelected := !isSelected;
      holidayVisibility := if isSelected then Visible else Invisible;
      telephoneTopMargin := if isSelected then expandedMargin else collapsedMargin;
    }
  }
}
