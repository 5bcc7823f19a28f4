/** The page's session (the `App` component): whether a generation is running,
    the content last generated, the error banner, the service's health and
    whether LinkedIn is configured.  Every network result enters as a value. */
module AppSession {
  import opened Wrappers
  import opened Types

  datatype ApiStatus = Checking | Online | Offline

  /** A thrown value as `error instanceof Error` sees it. */
  datatype Thrown = ErrorObject(message: string) | OtherValue

  /** How an awaited request settles. */
  datatype Outcome<T> = Resolved(value: T) | Rejected(thrown: Thrown)

  /** The five pieces of state, as one value. */
  datatype Session = Session(
    loading: bool,
    generatedContent: Option<GeneratedContent>,
    error: Option<string>,
    apiStatus: ApiStatus,
    linkedInConfigured: bool)

  /** The state on first render. */
  const Initial: Session := Session(false, None, None, Checking, false)

  const UnexpectedError: string := "An unexpected error occurred"

  /** The banner text for a failed generation. */
  function ErrorMessage(thrown: Thrown): string {
    match thrown
    case ErrorObject(message) => message
    case OtherValue => UnexpectedError
  }

  /** `{ ...response, approved: false }`. */
  function FromResponse(r: ContentResponse): GeneratedContent {
    GeneratedContent(r.content, r.hashtags, r.seoKeywords, r.carouselSlides, r.imagePrompt, r.optimalPostingTimes, false)
  }

  /** The response a held content was built from: everything but the flag. */
  function ResponseOf(c: GeneratedContent): ContentResponse {
    ContentResponse(c.content, c.hashtags, c.seoKeywords, c.carouselSlides, c.imagePrompt, c.optimalPostingTimes)
  }

  /** `checkApiHealth` once the probe settles. */
  function Probe(s: Session, outcome: Outcome<Health>): Session {
    match outcome
    case Resolved(health) => s.(apiStatus := Online, linkedInConfigured := health.linkedinConfigured || false)
    case Rejected(_) => s.(apiStatus := Offline)
  }

  /** The synchronous start of `handleContentGeneration`. */
  function Begin(s: Session): Session {
    s.(loading := true, error := None)
  }

  /** The rest of `handleContentGeneration`, once the request settles. */
  function Complete(s: Session, outcome: Outcome<ContentResponse>): Session {
    match outcome
    case Resolved(response) => s.(generatedContent := Some(FromResponse(response)), loading := false)
    case Rejected(thrown) => s.(error := Some(ErrorMessage(thrown)), loading := false)
  }

  function Generate(s: Session, outcome: Outcome<ContentResponse>): Session {
    Complete(Begin(s), outcome)
  }

  /** `handleContentApproval`. */
  function Approve(s: Session): Session {
    match s.generatedContent
    case None => s
    case Some(c) => s.(generatedContent := Some(c.(approved := true)))
  }

  /** `handleContentEdit`. */
  function Edit(s: Session, edited: string): Session {
    match s.generatedContent
    case None => s
    case Some(c) => s.(generatedContent := Some(c.(content := edited)))
  }

  /** The ✕ of the error banner. */
  function DismissError(s: Session): Session {
    s.(error := None)
  }

  /** What the right-hand column shows. */
  datatype View = Spinner | PreviewShown | Placeholder

  function ViewOf(s: Session): View {
    if s.loading then Spinner
    else if s.generatedContent.Some? then PreviewShown
    else Placeholder
  }

  /** `{error && ...}`: an empty message is falsy and shows no banner. */
  predicate ErrorBannerShown(s: Session) {
    s.error.Some? && s.error.value != ""
  }

  predicate OfflineBannerShown(s: Session) {
    s.apiStatus == Offline
  }

  /** `generatedContent?.approved`. */
  predicate ApprovedBannerShown(s: Session) {
    s.generatedContent.Some? && s.generatedContent.value.approved
  }

  /** The state, as a class whose handlers update its fields in turn. */
  class App {
    var loading: bool
    var generatedContent: Option<GeneratedContent>
    var error: Option<string>
    var apiStatus: ApiStatus
    var linkedInConfigured: bool

    function State(): Session
      reads this
    {
      Session(loading, generatedContent, error, apiStatus, linkedInConfigured)
    }

    constructor()
      ensures State() == Initial
    {
      loading := false;
      generatedContent := None;
      error := None;
      apiStatus := Checking;
      linkedInConfigured := false;
    }

    method CheckApiHealth(outcome: Outcome<Health>)
      modifies this
      ensures State() == Probe(old(State()), outcome)
    {
      match outcome
      case Resolved(health) =>
        apiStatus := Online;
        linkedInConfigured := health.linkedinConfigured || false;
      case Rejected(_) =>
        apiStatus := Offline;
    }

    method BeginGeneration()
      modifies this
      ensures State() == Begin(old(State()))
    {
      loading := true;
      error := None;
    }

    method CompleteGeneration(outcome: Outcome<ContentResponse>)
      modifies this
      ensures State() == Complete(old(State()), outcome)
    {
      match outcome {
        case Resolved(response) =>
          var content := FromResponse(response);
          generatedContent := Some(content);
        case Rejected(thrown) =>
          error := Some(if thrown.ErrorObject? then thrown.message else UnexpectedError);
      }
      loading := false;
    }

    method HandleContentGeneration(outcome: Outcome<ContentResponse>)
      modifies this
      ensures State() == Generate(old(State()), outcome)
    {
      BeginGeneration();
      CompleteGeneration(outcome);
    }

    method HandleContentApproval()
      modifies this
      ensures State() == Approve(old(State()))
    {
      if generatedContent.Some? {
        generatedContent := Some(generatedContent.value.(approved := true));
      }
    }

    method HandleContentEdit(edited: string)
      modifies this
      ensures State() == Edit(old(State()), edited)
    {
      if generatedContent.Some? {
        generatedContent := Some(generatedContent.value.(content := edited));
      }
    }

    method DismissErrorBanner()
      modifies this
      ensures State() == DismissError(old(State()))
    {
      error := None;
    }
  }

  // ---------------------------------------------------------------------
  // properties of the transitions

  /** Starting a generation shows the spinner and clears the error, and keeps
      the content shown before. */
  lemma BeginFacts(s: Session)
    ensures Begin(s).loading && Begin(s).error == None && !ErrorBannerShown(Begin(s))
    ensures ViewOf(Begin(s)) == Spinner
    ensures Begin(s).generatedContent == s.generatedContent
  {
  }

  /** A successful generation holds exactly the response, not approved, and
      shows it; the spinner is gone and no error is shown. */
  lemma SuccessFacts(s: Session, r: ContentResponse)
    ensures var t := Generate(s, Resolved(r));
      t.generatedContent.Some? && ResponseOf(t.generatedContent.value) == r &&
      !t.generatedContent.value.approved && !ApprovedBannerShown(t) &&
      !t.loading && t.error == None && ViewOf(t) == PreviewShown
    ensures Generate(s, Resolved(r)).apiStatus == s.apiStatus
  {
  }

  /** A failed generation keeps the previous content, in whatever approval state,
      and sets the error; the view falls back to the previous content or the
      placeholder. */
  lemma FailureFacts(s: Session, thrown: Thrown)
    ensures var t := Generate(s, Rejected(thrown));
      t.generatedContent == s.generatedContent && t.error == Some(ErrorMessage(thrown)) && !t.loading &&
      (ViewOf(t) == PreviewShown <==> s.generatedContent.Some?) && ViewOf(t) != Spinner
    ensures ErrorMessage(OtherValue) == UnexpectedError
    ensures ErrorMessage(ErrorObject("x")) == "x"
  {
  }

  /** Exactly one of spinner, preview and placeholder is shown: the spinner
      while loading, the preview when content exists and nothing loads. */
  lemma ViewCases(s: Session)
    ensures ViewOf(s) == Spinner <==> s.loading
    ensures ViewOf(s) == PreviewShown <==> !s.loading && s.generatedContent.Some?
    ensures ViewOf(s) == Placeholder <==> !s.loading && s.generatedContent.None?
  {
  }

  /** Approving sets the flag and changes nothing else; twice is once; with no
      content it does nothing. */
  lemma ApproveFacts(s: Session)
    ensures Approve(Approve(s)) == Approve(s)
    ensures s.generatedContent.None? ==> Approve(s) == s
    ensures s.generatedContent.Some? ==>
      Approve(s).generatedContent.Some? && Approve(s).generatedContent.value.approved &&
      ResponseOf(Approve(s).generatedContent.value) == ResponseOf(s.generatedContent.value) &&
      ApprovedBannerShown(Approve(s))
    ensures Approve(s).(generatedContent := s.generatedContent) == s
  {
  }

  /** Editing replaces only the text and keeps the approval; with no content it
      does nothing; it commutes with approving. */
  lemma EditFacts(s: Session, edited: string)
    ensures s.generatedContent.None? ==> Edit(s, edited) == s
    ensures s.generatedContent.Some? ==>
      Edit(s, edited).generatedContent == Some(s.generatedContent.value.(content := edited))
    ensures ApprovedBannerShown(Edit(s, edited)) == ApprovedBannerShown(s)
    ensures Edit(s, edited).(generatedContent := s.generatedContent) == s
    ensures Approve(Edit(s, edited)) == Edit(Approve(s), edited)
  {
  }

  /** The health probe: success reports online and the service's LinkedIn flag;
      failure reports offline and keeps the flag; nothing else changes. */
  lemma ProbeFacts(s: Session, outcome: Outcome<Health>)
    ensures outcome.Resolved? ==>
      Probe(s, outcome).apiStatus == Online && !OfflineBannerShown(Probe(s, outcome)) &&
      Probe(s, outcome).linkedInConfigured == outcome.value.linkedinConfigured
    ensures outcome.Rejected? ==> Probe(s, outcome) == s.(apiStatus := Offline)
    ensures Probe(s, outcome).(apiStatus := s.apiStatus, linkedInConfigured := s.linkedInConfigured) == s
  {
  }

  /** Dismissing the error hides the banner and touches nothing else. */
  lemma DismissFacts(s: Session)
    ensures !ErrorBannerShown(DismissError(s))
    ensures DismissError(s).(error := s.error) == s
  {
  }
}
