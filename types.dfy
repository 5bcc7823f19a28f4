/** The records exchanged between the browser and the content-generation
    service, and the outcome of a call to the language model.  The service's
    request and response models and the front end's interfaces have the same
    fields; JSON names are written in camel case here. */
module Types {
  import opened Wrappers

  /** What the form submits: the topic and the chosen options. */
  datatype ContentRequest = ContentRequest(
    query: string,
    platform: string,
    contentType: string,
    contentLength: string,
    imagePrompt: Option<string>)

  /** What `/generate-content` answers. */
  datatype ContentResponse = ContentResponse(
    content: string,
    hashtags: seq<string>,
    seoKeywords: seq<string>,
    carouselSlides: Option<seq<string>>,
    imagePrompt: Option<string>,
    optimalPostingTimes: seq<string>)

  /** A response held by the browser session, with its approval flag. */
  datatype GeneratedContent = GeneratedContent(
    content: string,
    hashtags: seq<string>,
    seoKeywords: seq<string>,
    carouselSlides: Option<seq<string>>,
    imagePrompt: Option<string>,
    optimalPostingTimes: seq<string>,
    approved: bool)

  /** What `/post-to-linkedin` answers. */
  datatype PostResult = PostResult(success: bool, message: string, status: string)

  /** What `/linkedin-status` answers. */
  datatype LinkedInStatus = LinkedInStatus(configured: bool, status: string, message: string)

  /** What `/health` answers. */
  datatype Health = Health(status: string, timestamp: string, openaiConfigured: bool, linkedinConfigured: bool)

  /** The outcome of one chat-completion call: the reply text, or an exception. */
  datatype AiReply = Reply(text: string) | Failed

  /** An environment variable as `os.getenv` returns it: absent, or its text.
      Python treats it as true when it is present and not empty. */
  predicate IsSet(v: Option<string>) {
    v.Some? && v.value != []
  }
}
