/** The preview panel (the `ContentPreview` component): the edit, cancel and
    save toggle, the posting flag and the alert it ends with, the LinkedIn
    status it asks for on mount, and the texts its copy buttons and labels show. */
module ContentPreviewModel {
  import opened Wrappers
  import opened Types
  import opened PyText
  import opened AppSession

  datatype Tab = ContentTab | CarouselTab

  /** The panel's local state, with the content it was last given. */
  datatype PreviewState = PreviewState(
    content: GeneratedContent,
    isEditing: bool,
    editedText: string,
    activeTab: Tab,
    linkedInStatus: Option<LinkedInStatus>,
    isPosting: bool)

  /** The state on mount: the text box starts from the content's text. */
  function Mounted(c: GeneratedContent): PreviewState {
    PreviewState(c, false, c.content, ContentTab, None, false)
  }

  /** The Edit/Cancel button. */
  function ToggleEdit(p: PreviewState): PreviewState {
    p.(isEditing := !p.isEditing)
  }

  /** Typing into the text box. */
  function TypeText(p: PreviewState, text: string): PreviewState {
    p.(editedText := text)
  }

  /** `handleSaveEdit`: the state after it; the text handed to `onEdit` is `editedText`. */
  function SaveEdit(p: PreviewState): PreviewState {
    p.(isEditing := false)
  }

  /** `handleCancelEdit`. */
  function CancelEdit(p: PreviewState): PreviewState {
    p.(editedText := p.content.content, isEditing := false)
  }

  /** The parent renders the panel again with new content; local state stays. */
  function Rerender(p: PreviewState, c: GeneratedContent): PreviewState {
    p.(content := c)
  }

  /** The status request settles; a failure leaves the status unknown. */
  function ReceiveStatus(p: PreviewState, outcome: Outcome<LinkedInStatus>): PreviewState {
    match outcome
    case Resolved(status) => p.(linkedInStatus := Some(status))
    case Rejected(_) => p
  }

  function SelectTab(p: PreviewState, tab: Tab): PreviewState {
    p.(activeTab := tab)
  }

  const PostedAlert: string := "Successfully posted to LinkedIn!"
  const DefaultNotPostedAlert: string := "LinkedIn posting is coming soon! " + "Please copy and post manually."
  const ThrownAlert: string :=
    "LinkedIn API integration is coming soon! " + "For now, please copy the content and post manually."

  /** The alert `handleLinkedInPost` shows once the request settles. */
  function PostAlert(outcome: Outcome<PostResult>): (alert: string)
    ensures alert != []
    ensures alert == PostedAlert <==>
      outcome.Resolved? && (outcome.value.success || outcome.value.message == PostedAlert)
    ensures outcome.Resolved? && !outcome.value.success && outcome.value.message != "" ==>
      alert == outcome.value.message
    ensures outcome.Resolved? && !outcome.value.success && outcome.value.message == "" ==>
      alert == DefaultNotPostedAlert
    ensures outcome.Rejected? ==> alert == ThrownAlert
    ensures DefaultNotPostedAlert != ThrownAlert
  {
    assert PostedAlert[0] == 'S' && DefaultNotPostedAlert[0] == 'L' && ThrownAlert[0] == 'L';
    match outcome
    case Resolved(result) =>
      if result.success then PostedAlert
      else if result.message != "" then result.message
      else DefaultNotPostedAlert
    case Rejected(_) => ThrownAlert
  }

  /** The label of the Edit/Cancel button. */
  function EditButtonLabel(p: PreviewState): string {
    if p.isEditing then "Cancel" else "Edit"
  }

  /** The post button's suffix: `linkedInStatus?.configured`. */
  function PostButtonSuffix(status: Option<LinkedInStatus>): (suffix: string)
    ensures suffix == "(Ready)" <==> status.Some? && status.value.configured
    ensures suffix == "(Ready)" || suffix == "(Coming Soon)"
  {
    if status.Some? && status.value.configured then "(Ready)" else "(Coming Soon)"
  }

  /** The tab buttons are drawn when there are slides. */
  predicate TabsShown(c: GeneratedContent) {
    c.carouselSlides.Some?
  }

  /** The second tab's label, counting the slides. */
  function CarouselTabLabel(slides: seq<string>): string {
    "Carousel (" + DecimalText(|slides|) + " slides)"
  }

  /** The number in the label is the number of slides. */
  lemma CarouselTabLabelCounts(slides: seq<string>)
    ensures var text := CarouselTabLabel(slides); var d := DecimalText(|slides|);
      |text| == 10 + |d| + 8 && text[10..10 + |d|] == d && DecimalValue(text[10..10 + |d|]) == |slides|
  {
    DecimalRoundTrip(|slides|);
    var d := DecimalText(|slides|);
    assert CarouselTabLabel(slides) == "Carousel (" + d + " slides)";
  }

  predicate ContentSectionShown(p: PreviewState) {
    p.activeTab == ContentTab
  }

  predicate CarouselSectionShown(p: PreviewState) {
    p.activeTab == CarouselTab && p.content.carouselSlides.Some?
  }

  /** At most one section shows: the content section on its tab, the carousel
      section on its tab when there are slides.  A carousel tab kept across a
      new content without slides shows neither. */
  lemma SectionsShown(p: PreviewState, c: GeneratedContent)
    ensures !(ContentSectionShown(p) && CarouselSectionShown(p))
    ensures ContentSectionShown(p) || CarouselSectionShown(p) <==>
      p.activeTab == ContentTab || p.content.carouselSlides.Some?
    ensures ContentSectionShown(Mounted(c))
    ensures var q := Rerender(SelectTab(p, CarouselTab), c);
      c.carouselSlides.None? ==> !ContentSectionShown(q) && !CarouselSectionShown(q)
  {
  }

  /** What the Copy All button of the hashtags puts on the clipboard. */
  function HashtagsCopyText(c: GeneratedContent): string {
    Join(" ", c.hashtags)
  }

  const SlideSeparator: string := "\n\n---\n\n"

  /** What Copy All Slides puts on the clipboard. */
  function SlidesCopyText(slides: seq<string>): string {
    Join(SlideSeparator, slides)
  }

  /** Hashtags without spaces are recovered by splitting the copied text at spaces. */
  lemma HashtagsCopyRoundTrip(c: GeneratedContent)
    requires |c.hashtags| >= 1
    requires forall i :: 0 <= i < |c.hashtags| ==> !HasChar(c.hashtags[i], ' ')
    ensures Split(HashtagsCopyText(c), " ") == c.hashtags
  {
    SplitJoin(" ", c.hashtags);
  }

  /** Slides without a newline are recovered by splitting the copied text at the separator. */
  lemma SlidesCopyRoundTrip(slides: seq<string>)
    requires |slides| >= 1
    requires forall i :: 0 <= i < |slides| ==> !HasChar(slides[i], '\n')
    ensures Split(SlidesCopyText(slides), SlideSeparator) == slides
  {
    SplitJoin(SlideSeparator, slides);
  }

  /** The panel's state, as a class whose handlers set its fields in turn. */
  class Preview {
    var content: GeneratedContent
    var isEditing: bool
    var editedText: string
    var activeTab: Tab
    var linkedInStatus: Option<LinkedInStatus>
    var isPosting: bool

    function State(): PreviewState
      reads this
    {
      PreviewState(content, isEditing, editedText, activeTab, linkedInStatus, isPosting)
    }

    constructor(c: GeneratedContent)
      ensures State() == Mounted(c)
    {
      content := c;
      isEditing := false;
      editedText := c.content;
      activeTab := ContentTab;
      linkedInStatus := None;
      isPosting := false;
    }

    method ToggleEditing()
      modifies this
      ensures State() == ToggleEdit(old(State()))
    {
      isEditing := !isEditing;
    }

    method ChangeText(text: string)
      modifies this
      ensures State() == TypeText(old(State()), text)
    {
      editedText := text;
    }

    /** Returns the text handed to `onEdit`. */
    method HandleSaveEdit() returns (edited: string)
      modifies this
      ensures edited == old(editedText)
      ensures State() == SaveEdit(old(State()))
    {
      edited := editedText;
      isEditing := false;
    }

    method HandleCancelEdit()
      modifies this
      ensures State() == CancelEdit(old(State()))
    {
      editedText := content.content;
      isEditing := false;
    }

    method ReceiveProps(c: GeneratedContent)
      modifies this
      ensures State() == Rerender(old(State()), c)
    {
      content := c;
    }

    method CheckLinkedInStatus(outcome: Outcome<LinkedInStatus>)
      modifies this
      ensures State() == ReceiveStatus(old(State()), outcome)
    {
      if outcome.Resolved? {
        linkedInStatus := Some(outcome.value);
      }
    }

    method SetActiveTab(tab: Tab)
      modifies this
      ensures State() == SelectTab(old(State()), tab)
    {
      activeTab := tab;
    }

    /** The synchronous start of `handleLinkedInPost`. */
    method BeginPost()
      modifies this
      ensures State() == old(State()).(isPosting := true)
    {
      isPosting := true;
    }

    /** The rest of `handleLinkedInPost`: the alert shown, then the flag cleared. */
    method FinishPost(outcome: Outcome<PostResult>) returns (alert: string)
      modifies this
      ensures alert == PostAlert(outcome)
      ensures State() == old(State()).(isPosting := false)
    {
      match outcome {
        case Resolved(result) =>
          if result.success {
            alert := PostedAlert;
          } else {
            alert := if result.message != "" then result.message else DefaultNotPostedAlert;
          }
        case Rejected(_) =>
          alert := ThrownAlert;
      }
      isPosting := false;
    }

    /** `handleLinkedInPost` as a whole: the button is disabled while it runs
        and enabled again on every path. */
    method HandleLinkedInPost(outcome: Outcome<PostResult>) returns (alert: string)
      requires !isPosting
      modifies this
      ensures alert == PostAlert(outcome)
      ensures State() == old(State())
      ensures !isPosting
    {
      BeginPost();
      alert := FinishPost(outcome);
    }
  }

  // ---------------------------------------------------------------------
  // properties of the local state

  /** Saving hands over the typed text and leaves edit mode; cancelling
      restores the content's text, leaves edit mode and hands over nothing. */
  lemma EditCycle(p: PreviewState, text: string)
    ensures var q := SaveEdit(TypeText(ToggleEdit(p), text)); !q.isEditing && q.editedText == text
    ensures var q := CancelEdit(TypeText(p, text)); !q.isEditing && q.editedText == p.content.content
    ensures CancelEdit(TypeText(p, text)).(isEditing := p.isEditing) == p.(editedText := p.content.content)
  {
  }

  /** The Edit/Cancel button flips edit mode and its label; pressing it twice
      is pressing it never. */
  lemma ToggleFacts(p: PreviewState)
    ensures ToggleEdit(p).isEditing != p.isEditing
    ensures EditButtonLabel(ToggleEdit(p)) != EditButtonLabel(p)
    ensures ToggleEdit(ToggleEdit(p)) == p
  {
  }

  /** Editing in the panel and saving, with the session applying the edit and
      passing the new content down, leaves the panel showing the saved text. */
  lemma SavedEditReachesSession(s: Session, p: PreviewState, text: string)
    requires s.generatedContent == Some(p.content)
    ensures var s2 := Edit(s, TypeText(p, text).editedText);
      s2.generatedContent.Some? && s2.generatedContent.value.content == text &&
      s2.generatedContent.value.approved == p.content.approved &&
      CancelEdit(Rerender(SaveEdit(TypeText(p, text)), s2.generatedContent.value)).editedText == text
  {
  }

  /** The carousel section and its tabs appear only for content with slides. */
  lemma CarouselSectionNeedsSlides(p: PreviewState)
    ensures CarouselSectionShown(p) ==> TabsShown(p.content)
    ensures TabsShown(p.content) ==> CarouselSectionShown(SelectTab(p, CarouselTab))
    ensures !CarouselSectionShown(Mounted(p.content))
  {
  }
}
