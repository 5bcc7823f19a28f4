# LinkedIn Content Generator, modelled in Dafny

The system is a web tool for writing LinkedIn posts. A browser form sends a
topic, a content type and a length to a FastAPI service. The service asks
OpenAI's chat model for the post, its SEO keywords, its hashtags and, for the
carousel type, a list of slides. Whenever the key is missing or a call raises,
it falls back to fixed or query-derived text. The browser keeps the result in
a session, where it can be edited, approved, copied or (not yet) posted to
LinkedIn.

This project models the deterministic part of that system and proves what it
promises:

- the post-processing of the model's replies;
- the fallbacks;
- the greedy carousel packer;
- the response assembly and the three status endpoints;
- the page session, the form and the preview panel.

Every model reply, network result, environment variable and clock reading is
an input value.

Modules, one per concern:

- `Wrappers` (`wrappers.dfy`) – `Option`.
- `Types` (`types.dfy`) – the request and response records, the
  language-model outcome `AiReply = Reply(text) | Failed`, and the truthiness
  of an environment variable.
- `PyText` (`text.dfy`) – the Python and JavaScript string operations the
  code relies on: Python's `strip` and JavaScript's `trim` (with their different whitespace sets), `lower`, `capitalize`, `split()`,
  `split(sep)`, `join`, `replace(' ', '')`, `split(sep, 1)[-1]`, slicing
  `[:n]` and number-to-text. They come with their laws, for example that
  splitting a join gives the parts back.
- `SeoKeywords` (`keywords.dfy`), `Hashtags` (`hashtags.dfy`),
  `ContentGeneration` (`content.dfy`) and `Carousel` (`carousel.dfy`) – the
  four generators of `backend/main.py`. Each is a function of the key's
  presence and the model's reply. The source's loops are methods proved
  against those functions.
- `LinkedIn` (`linkedin.dfy`) and `Endpoints` (`endpoints.dfy`) – the
  LinkedIn client, `/generate-content`, `/post-to-linkedin`,
  `/linkedin-status` and `/health`.
- `AppSession` (`session.dfy`) – the `App` component, as a class whose
  handlers update its five fields. Each handler is proved against a
  transition function on a `Session` value.
- `ContentFormModel` (`form.dfy`) – the form component: a class holding
  `formData`, and the submit guard and the control predicates.
- `ContentPreviewModel` (`preview.dfy`) – the preview component: a class
  holding its local edit, tab, status and posting state, and the alert and
  copy texts.
- `System` (`system.dfy`) – how browser and service fit together: copied
  hashtags split back, alerts for the service's answers, the "(Ready)" label,
  the length labels and the carousel tabs.

The no-key carousel is characterised exactly. The sentence groups the loop
builds keep every sentence in order. They satisfy the greedy rule: every
sentence after a slide's first fit under 200 characters, and every slide's
first sentence did not fit on the slide before. They are the only grouping
with those properties (`Carousel.PackedUnique`).

## Model

| member | source | states |
|---|---|---|
| ContentGeneration.ContentLengthWords | backend/main.py:206-213 | "Short" gets 50, "Long" gets 300, and "Medium" and every other string get 150 |
| ContentGeneration.ContentLengthTable | backend/main.py:206-213 | Short, Medium and Long give 50, 150 and 300; the result is one of the three; 50 and 300 only for their own keys, so a lower-case spelling gets 150 |
| ContentGeneration.FallbacksNameQuery | backend/main.py:218-220 | both fallback posts start with "Exploring ", the query verbatim and a colon, and they are different texts |
| ContentGeneration.ReplyContentTrimmed | backend/main.py:257 | the model's post is returned trimmed; it is empty iff the reply was all whitespace |
| ContentGeneration.TrimmedReplyKept | backend/main.py:257 | a reply that is already trimmed is returned unchanged |
| ContentGeneration.ContentEmptyIff | backend/main.py:215-260 | the post is empty exactly when a key is set and the model answered only whitespace |
| SeoKeywords.NoKeyKeywords | backend/main.py:52-63 | without a key: seven keywords; the first four start with the lower-cased query (the first is exactly it); then the three fixed phrases |
| SeoKeywords.KeepKeywordsClean | backend/main.py:83-89 | every kept keyword is non-empty, trimmed, lower-case and does not start with '#' |
| SeoKeywords.CleanKeywords | backend/main.py:85-89 | the cleaning loop returns exactly the pieces that survive stripping and lower-casing, in order |
| SeoKeywords.ReplyKeywords | backend/main.py:83-91 | one to seven keywords; they are all clean, or they are the default three when nothing survived |
| SeoKeywords.ErrorKeywords | backend/main.py:92-103 | when the call raises: five keywords, the lower-cased query, then "`w` trends" and "`w` tips" for the first word `w` (plain "trends" and "tips" when there is no word), then two fixed phrases |
| SeoKeywords.GenerateSeoKeywords | backend/main.py:49-103 | the method returns the keyword function of key and reply, one to seven items |
| SeoKeywords.KeepCleanKeywords | backend/main.py:85-89 | a list of clean keywords passes the filter unchanged |
| SeoKeywords.KeepKeywordsIdempotent | backend/main.py:85-89 | cleaning twice is cleaning once |
| SeoKeywords.ReplyKeywordsOfList | backend/main.py:83-91 | a reply listing clean, comma-free keywords joined by ", " yields those keywords, cut to seven |
| Hashtags.KeepTagsClean | backend/main.py:165-169 | every kept tag starts with '#', is longer than one character, holds no space and is trimmed |
| Hashtags.CleanHashtags | backend/main.py:165-169 | the cleaning loop returns exactly the stripped pieces that pass the test, in order |
| Hashtags.KeepCleanTags | backend/main.py:165-169 | clean, trimmed tags pass the filter unchanged |
| Hashtags.QueryTagIsTag | backend/main.py:116-120 | '#' followed by the query without spaces (lower-cased, or as is for the top-up) is a tag without spaces |
| Hashtags.AddWordTags | backend/main.py:131-134 | the word loop appends one capitalised tag for each of the first two words longer than three characters |
| Hashtags.WordTagsShape | backend/main.py:132-134 | every word tag starts with '#', holds no space and is longer than four characters |
| Hashtags.NoKeyHashtags | backend/main.py:114-136 | without a key: the query tag, the seven fixed tags, then the word tags; eight to ten items |
| Hashtags.ReplyHashtags | backend/main.py:163-176 | five to twelve tags: the kept tags cut to twelve when at least five survive, otherwise the kept tags followed by the five top-up tags |
| Hashtags.ErrorHashtags | backend/main.py:177-196 | when the call raises: the query tag, four fixed tags, then the word tags; five to seven items |
| Hashtags.GenerateHashtags | backend/main.py:111-196 | the method returns the hashtag function of key and reply, five to twelve items |
| Hashtags.HashtagsWellFormed | backend/main.py:111-196 | on every path every hashtag starts with '#' and holds no space |
| Hashtags.NoKeyHashtagsWellFormed | backend/main.py:114-136 | every no-key hashtag starts with '#' and holds no space |
| Hashtags.ReplyHashtagsWellFormed | backend/main.py:163-176 | every hashtag taken from a reply, top-up included, starts with '#' and holds no space |
| Hashtags.ErrorHashtagsWellFormed | backend/main.py:177-196 | every fallback hashtag after a failed call starts with '#' and holds no space |
| Hashtags.ReplyHashtagsOfList | backend/main.py:163-176 | a reply listing at least five clean, comma-free tags joined by ", " yields exactly those tags, cut to twelve |
| Carousel.PackSlides | backend/main.py:268-280 | the packing loop over `current_slide` returns the stripped texts of the greedy sentence groups |
| Carousel.SplitIntoSlides | backend/main.py:265-282 | the no-key path returns the packed slides of the ". "-split post, at most ten |
| Carousel.StepInv | backend/main.py:271-277 | one turn of the loop keeps the packing invariant: finished slides packed, the open slide fits, the sentences so far in order |
| Carousel.PackAllInv | backend/main.py:271-277 | the invariant holds after any prefix of the sentences |
| Carousel.GroupsPacked | backend/main.py:271-280 | the slide groups hold every sentence once, in the original order, and obey the greedy rule |
| Carousel.PackedUnique | backend/main.py:271-280 | any grouping that keeps the order and obeys the greedy rule is the one the loop builds |
| Carousel.FallbackSlidesShape | backend/main.py:267-282 | every no-key slide is non-empty and ends with the full stop after its last sentence; a slide of two or more sentences is at most 200 characters |
| Carousel.SentenceSlidesShape | backend/main.py:271-280 | the slide text of every greedy group is non-empty and ends with '.', and is at most 200 characters when the group has two or more sentences |
| Carousel.ParseSlides | backend/main.py:307-313 | the line loop returns exactly the slides its per-line rule keeps, in order |
| Carousel.ReplySlides | backend/main.py:304-315 | the reply path gives at most eight slides |
| Carousel.KeepSlidesTrimmed | backend/main.py:307-313 | every parsed slide is non-empty and trimmed |
| Carousel.ParseNumberedLine | backend/main.py:308-313 | a line made of a digit, ". " and a trimmed slide parses back to that slide |
| Carousel.KeepNumberedLines | backend/main.py:307-313 | the per-line rule keeps exactly the slides of a list of numbered lines |
| Carousel.ReplyOfLines | backend/main.py:304-315 | a reply whose lines hold no newline and whose ends are trimmed yields the slides kept from its lines, cut to eight |
| Carousel.ReplySlidesOfList | backend/main.py:294-315 | a reply in the requested shape (numbered lines joined by newlines) parses back to its slides, cut to eight |
| Carousel.ErrorSlidesFacts | backend/main.py:316-320 | when the call raises the slides are the first five ". "-pieces; none holds ". ", and joining them restores a post of at most five sentences |
| Carousel.GenerateCarouselSlides | backend/main.py:262-320 | the method returns the slide function of key and reply, at most ten slides |
| LinkedIn.All | backend/main.py:327 | `all` is true exactly when every value is |
| LinkedIn.IsConfigured | backend/main.py:322-327 | the client is configured iff all three credentials are set and non-empty |
| LinkedIn.PostContent | backend/main.py:329-344 | posting never succeeds, its status is "coming_soon", and the message depends on whether the client is configured |
| LinkedIn.PostContentFacts | backend/main.py:329-344 | the answer depends neither on the post nor on its hashtags; the message is non-empty and is the coming-soon text iff the client is configured |
| Endpoints.GenerateContent | backend/main.py:366-410 | the endpoint assembles the post, keywords, hashtags, optional slides, echoed image prompt and posting times, as the response function states |
| Endpoints.ResponseFacts | backend/main.py:366-410 | slides exactly when the lower-cased type is "carousel"; the image prompt is echoed; the five fixed times; one to seven keywords; five to twelve well-formed hashtags; at most ten slides |
| Endpoints.SlidesIffCarousel | backend/main.py:389-391 | the response carries slides iff the content type lower-cases to "carousel" |
| Endpoints.PostToLinkedIn | backend/main.py:415-426 | the endpoint's answer never reports success, has status "coming_soon" and a non-empty message |
| Endpoints.LinkedInStatusOf | backend/main.py:428-435 | `configured` iff all three credentials are set; status "ready" iff configured, "not_configured" otherwise; the matching message |
| Endpoints.HealthCheck | backend/main.py:437-444 | status "healthy", the given timestamp, the OpenAI flag iff the key is set, and the LinkedIn flag iff the client is configured |
| Endpoints.ReportsAgree | backend/main.py:428-444 | `/health` and `/linkedin-status` report the same LinkedIn flag, and posting says "coming soon" exactly when it is set |
| Endpoints.NoKeyIgnoresReplies | backend/main.py:437-444 | when `/health` reports no OpenAI key the response does not depend on the model's replies and the post is the no-key text |
| AppSession.App.constructor | frontend/src/App.tsx:10-14 | not loading, no content, no error, status "checking", LinkedIn not configured |
| AppSession.App.CheckApiHealth | frontend/src/App.tsx:21-29 | the probe moves the session as the probe transition says |
| AppSession.App.BeginGeneration | frontend/src/App.tsx:32-33 | sets loading and clears the error |
| AppSession.App.CompleteGeneration | frontend/src/App.tsx:35-48 | stores the response (unapproved) or the error message, then clears loading |
| AppSession.App.HandleContentGeneration | frontend/src/App.tsx:31-49 | the whole handler is the begin step followed by the completion step |
| AppSession.App.HandleContentApproval | frontend/src/App.tsx:51-61 | the session moves as the approval transition says |
| AppSession.App.HandleContentEdit | frontend/src/App.tsx:63-70 | the session moves as the edit transition says |
| AppSession.App.DismissErrorBanner | frontend/src/App.tsx:101 | clears the error |
| AppSession.BeginFacts | frontend/src/App.tsx:32-33 | starting a generation shows the spinner, clears the error and keeps the content shown before |
| AppSession.SuccessFacts | frontend/src/App.tsx:36-47 | after success the content is exactly the response, unapproved and shown; loading is off and no error is set |
| AppSession.FailureFacts | frontend/src/App.tsx:44-47 | after failure the previous content is kept, the error is the thrown message or "An unexpected error occurred", and loading is off |
| AppSession.ViewCases | frontend/src/App.tsx:154-180 | the spinner iff loading; the preview iff not loading and content exists; the placeholder otherwise |
| AppSession.ApproveFacts | frontend/src/App.tsx:51-56 | approval sets the flag and nothing else, is idempotent, and does nothing without content |
| AppSession.EditFacts | frontend/src/App.tsx:63-68 | an edit replaces only the text, keeps the approval, does nothing without content, and commutes with approval |
| AppSession.ProbeFacts | frontend/src/App.tsx:21-28 | success gives "online" and the service's LinkedIn flag; failure gives "offline" and keeps the flag; nothing else changes |
| AppSession.DismissFacts | frontend/src/App.tsx:96-104 | dismissing hides the error banner and changes nothing else |
| ContentFormModel.Form.constructor | frontend/src/components/ContentForm.tsx:10-16 | the initial form data |
| ContentFormModel.WithField | frontend/src/components/ContentForm.tsx:29-37 | an input change sets the named field to the value and leaves every other field as it was |
| ContentFormModel.WithFieldLaws | frontend/src/components/ContentForm.tsx:33-36 | re-setting a field to its value changes nothing, the last of two writes wins, and writes to different fields commute |
| ContentFormModel.FieldsDetermineForm | frontend/src/components/ContentForm.tsx:29-37 | two forms that agree on every named field are equal, so the five input names cover the form |
| ContentFormModel.Form.HandleInputChange | frontend/src/components/ContentForm.tsx:29-37 | the form data becomes the old data with the one field replaced |
| ContentFormModel.Submission | frontend/src/components/ContentForm.tsx:22-27 | a request is issued iff the query has a character that is not JavaScript whitespace, and it is the form's data |
| ContentFormModel.Form.HandleSubmit | frontend/src/components/ContentForm.tsx:22-27 | the handler issues exactly the submission |
| ContentFormModel.SubmitDisabled | frontend/src/components/ContentForm.tsx:148 | disabled iff loading or the query is all JavaScript whitespace |
| ContentFormModel.SubmitEnabledIffIssues | frontend/src/components/ContentForm.tsx:24 | while nothing loads, the button is enabled exactly when submitting issues a request |
| ContentFormModel.InitialFormFacts | frontend/src/components/ContentForm.tsx:10-20 | the defaults are among the offered options; the initial form submits nothing, its button is disabled and the image field is hidden |
| ContentFormModel.OnlyQueryGatesSubmit | frontend/src/components/ContentForm.tsx:22-37 | changing any field but the query does not change whether submitting issues a request |
| ContentFormModel.CarouselOption | frontend/src/components/ContentForm.tsx:19 | "Carousel" is the one offered type the service lower-cases to "carousel" |
| ContentPreviewModel.Preview.constructor | frontend/src/components/ContentPreview.tsx:12-16 | not editing, the text box holds the content's text, the content tab, no status, not posting |
| ContentPreviewModel.Preview.ToggleEditing | frontend/src/components/ContentPreview.tsx:109 | flips edit mode |
| ContentPreviewModel.Preview.ChangeText | frontend/src/components/ContentPreview.tsx:121 | the text box takes the typed text |
| ContentPreviewModel.Preview.HandleSaveEdit | frontend/src/components/ContentPreview.tsx:18-21 | hands the typed text to `onEdit` and leaves edit mode |
| ContentPreviewModel.Preview.HandleCancelEdit | frontend/src/components/ContentPreview.tsx:23-26 | restores the content's text and leaves edit mode |
| ContentPreviewModel.Preview.ReceiveProps | frontend/src/components/ContentPreview.tsx:12-16 | a new content prop replaces the content and leaves the local edit state, tab and status as they were |
| ContentPreviewModel.Preview.SetActiveTab | frontend/src/components/ContentPreview.tsx:72-83 | the chosen tab becomes active |
| ContentPreviewModel.Preview.BeginPost | frontend/src/components/ContentPreview.tsx:48 | sets the posting flag and nothing else |
| ContentPreviewModel.Preview.CheckLinkedInStatus | frontend/src/components/ContentPreview.tsx:28-40 | a status that arrives is stored; a failure changes nothing |
| ContentPreviewModel.Preview.FinishPost | frontend/src/components/ContentPreview.tsx:49-61 | shows the alert for the outcome and clears the posting flag |
| ContentPreviewModel.Preview.HandleLinkedInPost | frontend/src/components/ContentPreview.tsx:47-62 | posting is on while the request runs and off afterwards on every path; the alert is the one for the outcome |
| ContentPreviewModel.PostAlert | frontend/src/components/ContentPreview.tsx:52-58 | success gives "Successfully posted to LinkedIn!"; a failure with a message shows that message; a failure with an empty message shows the fixed "coming soon" default; a thrown error shows a second fixed text, different from that default; never empty |
| ContentPreviewModel.PostButtonSuffix | frontend/src/components/ContentPreview.tsx:278-282 | "(Ready)" iff a status is known and configured, "(Coming Soon)" otherwise |
| ContentPreviewModel.CarouselTabLabelCounts | frontend/src/components/ContentPreview.tsx:89 | the number in the carousel tab's label is the number of slides |
| ContentPreviewModel.HashtagsCopyRoundTrip | frontend/src/components/ContentPreview.tsx:202 | hashtags without spaces are recovered by splitting the copied text at spaces |
| ContentPreviewModel.SlidesCopyRoundTrip | frontend/src/components/ContentPreview.tsx:153 | slides without newlines are recovered by splitting the copied text at the separator |
| ContentPreviewModel.EditCycle | frontend/src/components/ContentPreview.tsx:18-26 | saving keeps the typed text and leaves edit mode; cancelling restores the content's text and leaves edit mode |
| ContentPreviewModel.ToggleFacts | frontend/src/components/ContentPreview.tsx:109-113 | the button flips edit mode and its label; two presses undo each other |
| ContentPreviewModel.SavedEditReachesSession | frontend/src/components/ContentPreview.tsx:18-21 | a saved edit reaches the session's content, keeps its approval, and the panel then shows the saved text |
| ContentPreviewModel.SectionsShown | frontend/src/components/ContentPreview.tsx:97-148 | the two sections never show together; one shows iff the content tab is active or there are slides; the content section shows on mount; a carousel tab kept across new content without slides shows neither |
| ContentPreviewModel.CarouselSectionNeedsSlides | frontend/src/components/ContentPreview.tsx:69-89 | the carousel section needs slides, can be reached through its tab when there are slides, and is not shown on mount |
| System.CopiedHashtagsSplitBack | frontend/src/components/ContentPreview.tsx:202 | splitting the copied hashtags of any generated response at spaces gives back its hashtags |
| System.PostAlertOfService | frontend/src/components/ContentPreview.tsx:52-58 | an answer from the service alerts with the service's message, never the success text; a failed request alerts with the fixed fallback |
| System.ReadyIffConfigured | frontend/src/components/ContentPreview.tsx:278-282 | the post button says "(Ready)" iff the service has all three LinkedIn credentials |
| System.ProbeOfService | frontend/src/App.tsx:21-28 | a successful probe records "online" and the service's LinkedIn flag |
| System.LengthLabelsMatchService | frontend/src/components/ContentForm.tsx:115 | the words shown beside each length option are the words the service budgets for it |
| System.TabsOnlyForCarousel | frontend/src/components/ContentPreview.tsx:69 | of the offered types, only "Carousel" comes back with slides and so shows the tabs |
| System.SubmittedQueryNamed | frontend/src/components/ContentForm.tsx:24 | a submitted query has a non-whitespace character, and the no-key post names it verbatim |
| PyText.JoinSplit | backend/main.py:319 | joining the pieces of a `split(sep)` with `sep` restores the text |
| PyText.SplitJoin | backend/main.py:83 | splitting a join of separator-free parts gives the parts back |
| PyText.SplitPiecesFree | backend/main.py:267 | no piece of a split holds the separator |
| PyText.Split | backend/main.py:83 | `split(sep)` gives at least one piece |
| PyText.Take | backend/main.py:91 | the slice `[:n]` is the prefix of length min(n, len) |
| PyText.StripFacts | backend/main.py:257 | `strip` gives a trimmed text no longer than its input, empty iff the input was all whitespace (Python's ASCII whitespace, the four information separators U+001C to U+001F included) |
| PyText.StripTrimmed | backend/main.py:257 | stripping a trimmed text changes nothing |
| PyText.WordsFacts | backend/main.py:95 | every piece of `split()` is a non-empty run without whitespace; there are none iff the text is all whitespace |
| PyText.RemoveSpacesFacts | backend/main.py:116 | `replace(' ', '')` leaves no space and changes nothing in a text without one |
| PyText.TrimEmptyIff | frontend/src/components/ContentForm.tsx:24 | JavaScript's `trim` returns the empty string exactly when the text is all JavaScript whitespace |
| PyText.DecimalRoundTrip | frontend/src/components/ContentPreview.tsx:89 | the decimal text of a count is made of digits, has no leading zero and denotes the count |

## Left out

- The OpenAI calls (backend/main.py:76, 156, 250, 297). Each becomes an `AiReply` input: the reply text, or `Failed` when the call raises. The prompts, the model name, `temperature` and `max_tokens` (including `word_count * 2`) are not modelled, and neither is the article-versus-post prompt choice. `platform` appears only in the prompts and is carried but unused.
- Environment reads and `load_dotenv`. They become the `Env` value. The three classes read `OPENAI_API_KEY` separately, but they see the same value, so one flag is used.
- The clock in `/health`: the timestamp is a parameter.
- The `except` branches of `/generate-content` (HTTP 500) and `/post-to-linkedin`: nothing they guard can raise, since every generator catches its own errors and `post_content` raises nothing.
- The `print` calls in the `except` branches, and `console.log`/`console.error`.
- The root `/` endpoint: a constant feature list with no logic.
- FastAPI setup, CORS, routing and `uvicorn`.
- The axios wrapper `frontend/src/services/api.ts`. Its results enter as `Outcome` values (resolved, or rejected with a thrown value). The client sends the post as a JSON body while the service expects query parameters, so in the running system the post request probably fails and takes the thrown path. The model allows both outcomes.
- React rendering, CSS, `useEffect` scheduling, `navigator.clipboard` and `alert`.
  - Mount effects are methods that may be called at any time.
  - Clipboard and alert contents are returned strings.
  - Async interleavings (a second generation or post started before the first settles) are not modelled; each handler is a begin step followed by a completion step.
  - Stale closures are not modelled.
- Unicode text semantics. Several operations are modelled over ASCII only:
  - `lower`, `capitalize`, `upper`, `isdigit`;
  - the whitespace of Python's `strip` and `split()`: space, tab, newline, carriage return, vertical tab, form feed, and the information separators U+001C to U+001F;
  - the whitespace of JavaScript's `trim`: the same six characters without the separators.
  - Python and JavaScript both also treat non-ASCII characters (such as U+00A0 and U+2028) as whitespace, and Python also treats non-ASCII digits as digits. That is not modelled.
- `Hashtags.ReplyHashtagsOfList`, `SeoKeywords.ReplyKeywordsOfList` and `Carousel.ReplySlidesOfList` cover only well-formed replies: clean items with no separator inside, and lines with a digit mark. What the filters do with any other reply is stated by the `KeepTagsClean`, `KeepKeywordsClean` and `KeepSlidesTrimmed` lemmas instead.
- `Carousel.FallbackSlidesShape`: a slide of one sentence has no length bound, because the source places a long sentence on a slide of its own.
- `frontend/src/components/LoadingSpinner.tsx`, the header and the footer: presentation only.
