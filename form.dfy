/** The request form (the `ContentForm` component): its field values, the
    single-field update, the submit guard on the trimmed query, and the
    disabled and visibility predicates the controls are drawn from. */
module ContentFormModel {
  import opened Wrappers
  import opened Types
  import opened PyText

  /** The form's five fields, by the `name` attribute of their inputs. */
  datatype Field = QueryField | PlatformField | ContentTypeField | ContentLengthField | ImagePromptField

  /** `formData`; the image prompt starts as an empty string, not absent. */
  datatype FormData = FormData(
    query: string,
    platform: string,
    contentType: string,
    contentLength: string,
    imagePrompt: string)

  const InitialForm: FormData := FormData("", "LinkedIn", "Text", "Medium", "")

  const Platforms: seq<string> := ["LinkedIn", "Medium", "Facebook", "Instagram"]
  const ContentTypes: seq<string> := ["Text", "Article", "Carousel", "Image"]
  const ContentLengths: seq<string> := ["Short", "Medium", "Long"]

  function Get(f: FormData, name: Field): string {
    match name
    case QueryField => f.query
    case PlatformField => f.platform
    case ContentTypeField => f.contentType
    case ContentLengthField => f.contentLength
    case ImagePromptField => f.imagePrompt
  }

  /** `{ ...prev, [name]: value }`. */
  function WithField(f: FormData, name: Field, value: string): (g: FormData)
    ensures forall other: Field :: Get(g, other) == if other == name then value else Get(f, other)
  {
    match name
    case QueryField => f.(query := value)
    case PlatformField => f.(platform := value)
    case ContentTypeField => f.(contentType := value)
    case ContentLengthField => f.(contentLength := value)
    case ImagePromptField => f.(imagePrompt := value)
  }

  /** Two forms that agree on every field are the same form. */
  lemma FieldsDetermineForm(f: FormData, g: FormData)
    requires forall name: Field :: Get(f, name) == Get(g, name)
    ensures f == g
  {
    assert Get(f, QueryField) == Get(g, QueryField);
    assert Get(f, PlatformField) == Get(g, PlatformField);
    assert Get(f, ContentTypeField) == Get(g, ContentTypeField);
    assert Get(f, ContentLengthField) == Get(g, ContentLengthField);
    assert Get(f, ImagePromptField) == Get(g, ImagePromptField);
  }

  /** Setting a field to the value it has changes nothing; setting it twice
      keeps the last value; updates of different fields commute. */
  lemma WithFieldLaws(f: FormData, a: Field, b: Field, u: string, v: string)
    ensures WithField(f, a, Get(f, a)) == f
    ensures WithField(WithField(f, a, u), a, v) == WithField(f, a, v)
    ensures a != b ==> WithField(WithField(f, a, u), b, v) == WithField(WithField(f, b, v), a, u)
  {
    FieldsDetermineForm(WithField(f, a, Get(f, a)), f);
    FieldsDetermineForm(WithField(WithField(f, a, u), a, v), WithField(f, a, v));
    if a != b {
      FieldsDetermineForm(WithField(WithField(f, a, u), b, v), WithField(WithField(f, b, v), a, u));
    }
  }

  /** The request `onSubmit` receives. */
  function RequestOf(f: FormData): ContentRequest {
    ContentRequest(f.query, f.platform, f.contentType, f.contentLength, Some(f.imagePrompt))
  }

  /** `handleSubmit`: the request is issued only when `query.trim()` is not empty. */
  function Submission(f: FormData): (r: Option<ContentRequest>)
    ensures r.Some? <==> !JsBlank(f.query)
    ensures r.Some? ==> r.value == RequestOf(f)
  {
    TrimEmptyIff(f.query);
    if Trim(f.query) != "" then Some(RequestOf(f)) else None
  }

  /** `disabled={loading || !formData.query.trim()}`. */
  function SubmitDisabled(loading: bool, f: FormData): (disabled: bool)
    ensures disabled <==> loading || JsBlank(f.query)
  {
    TrimEmptyIff(f.query);
    loading || Trim(f.query) == ""
  }

  /** While nothing loads, the button is enabled exactly when pressing it submits. */
  lemma SubmitEnabledIffIssues(f: FormData)
    ensures !SubmitDisabled(false, f) <==> Submission(f).Some?
    ensures SubmitDisabled(true, f)
  {
  }

  /** `formData.content_type === 'Image'`. */
  predicate ImageFieldVisible(f: FormData) {
    f.contentType == "Image"
  }

  /** The one content type the service lower-cases to "carousel"; the other
      three are shorter or longer. */
  lemma CarouselOption()
    ensures ContentTypes[2] == "Carousel" && Lower(ContentTypes[2]) == "carousel"
    ensures forall k :: 0 <= k < |ContentTypes| && k != 2 ==> |Lower(ContentTypes[k])| != |"carousel"|
  {
    assert Lower("Carousel") == "carousel";
  }

  /** The text after each length option. */
  function LengthLabel(length: string): string {
    if length == "Short" then "~50 words" else if length == "Medium" then "~150 words" else "~300 words"
  }

  /** The state, as a class with the one field the handler replaces. */
  class Form {
    var formData: FormData

    constructor()
      ensures formData == InitialForm
    {
      formData := InitialForm;
    }

    method HandleInputChange(name: Field, value: string)
      modifies this
      ensures formData == WithField(old(formData), name, value)
    {
      formData := WithField(formData, name, value);
    }

    /** The submit handler as the form runs it: it reads the current form
        data and hands `onSubmit` the submission, if there is one. */
    method HandleSubmit() returns (submitted: Option<ContentRequest>)
      ensures submitted == Submission(formData)
    {
      submitted := Submission(formData);
    }
  }

  /** The initial form offers the defaults of the three lists, submits nothing,
      keeps the submit button disabled and hides the image prompt. */
  lemma InitialFormFacts()
    ensures InitialForm.platform == Platforms[0] && InitialForm.contentType == ContentTypes[0]
    ensures InitialForm.contentLength == ContentLengths[1]
    ensures Submission(InitialForm) == None
    ensures SubmitDisabled(false, InitialForm) && !ImageFieldVisible(InitialForm)
  {
  }

  /** Typing into any field but the query does not change whether submitting issues. */
  lemma OnlyQueryGatesSubmit(f: FormData, name: Field, value: string)
    requires name != QueryField
    ensures Submission(WithField(f, name, value)).Some? == Submission(f).Some?
  {
    assert Get(WithField(f, name, value), QueryField) == Get(f, QueryField);
  }
}
