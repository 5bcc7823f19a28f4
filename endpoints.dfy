/** The service's endpoints: `/generate-content` assembles the post, its
    keywords, hashtags, carousel slides and posting times; `/post-to-linkedin`,
    `/linkedin-status` and `/health` report on the LinkedIn client and the keys. */
module Endpoints {
  import opened Wrappers
  import opened Types
  import opened PyText
  import opened SeoKeywords
  import opened Hashtags
  import opened ContentGeneration
  import opened Carousel
  import opened LinkedIn

  /** What the service reads from the environment at start-up. */
  datatype Env = Env(openaiApiKey: Option<string>, linkedin: LinkedInApi)

  /** Every generator takes its model-backed path exactly when the key is set. */
  predicate HasKey(env: Env) {
    IsSet(env.openaiApiKey)
  }

  /** The replies of the model calls one request makes, in the order they are
      made: the post, its keywords, its hashtags, its slides. */
  datatype Replies = Replies(content: AiReply, keywords: AiReply, hashtags: AiReply, slides: AiReply)

  /** The fixed `optimal_posting_times`. */
  const PostingTimes: seq<string> :=
    ["Tuesday 10:00 AM", "Wednesday 11:00 AM", "Thursday 1:00 PM", "Tuesday 2:00 PM", "Wednesday 3:00 PM"]

  /** `request.content_type.lower() == "carousel"`. */
  predicate WantsCarousel(contentType: string) {
    Lower(contentType) == "carousel"
  }

  /** The response `/generate-content` assembles; the slides are cut from the
      generated post, not from the query. */
  function Response(request: ContentRequest, env: Env, replies: Replies): ContentResponse {
    var hasKey := HasKey(env);
    var content := Content(request.query, hasKey, replies.content);
    ContentResponse(
      content,
      Hashtags.Hashtags(request.query, hasKey, replies.hashtags),
      Keywords(request.query, hasKey, replies.keywords),
      if WantsCarousel(request.contentType) then Some(CarouselSlides(content, hasKey, replies.slides)) else None,
      request.imagePrompt,
      PostingTimes)
  }

  /** The `generate_content` endpoint, calling the generators in turn. */
  method GenerateContent(request: ContentRequest, env: Env, replies: Replies) returns (response: ContentResponse)
    ensures response == Response(request, env, replies)
  {
    var hasKey := HasKey(env);
    var content := Content(request.query, hasKey, replies.content);
    var seoKeywords := GenerateSeoKeywords(request.query, hasKey, replies.keywords);
    var hashtags := GenerateHashtags(request.query, hasKey, replies.hashtags);
    var carouselSlides: Option<seq<string>> := None;
    if Lower(request.contentType) == "carousel" {
      var slides := GenerateCarouselSlides(content, hasKey, replies.slides);
      carouselSlides := Some(slides);
    }
    response := ContentResponse(content, hashtags, seoKeywords, carouselSlides, request.imagePrompt, PostingTimes);
  }

  /** What every response holds, whatever the key and the replies: slides exactly
      for the carousel type, the image prompt echoed, the five fixed times,
      one to seven keywords, five to twelve well-formed hashtags, at most ten slides. */
  lemma ResponseFacts(request: ContentRequest, env: Env, replies: Replies)
    ensures var r := Response(request, env, replies);
      (r.carouselSlides.Some? <==> Lower(request.contentType) == "carousel") &&
      r.imagePrompt == request.imagePrompt &&
      r.optimalPostingTimes == PostingTimes &&
      1 <= |r.seoKeywords| <= 7 &&
      5 <= |r.hashtags| <= 12 &&
      (forall i :: 0 <= i < |r.hashtags| ==> IsTag(r.hashtags[i])) &&
      (r.carouselSlides.Some? ==> |r.carouselSlides.value| <= 10)
  {
    var hasKey := HasKey(env);
    HashtagsWellFormed(request.query, hasKey, replies.hashtags);
    var content := Content(request.query, hasKey, replies.content);
    var slides := CarouselSlides(content, hasKey, replies.slides);
    assert |slides| <= 10 by {
      if !hasKey {
        assert |FallbackSlides(content)| <= 10;
      }
    }
  }

  /** Slides are made exactly for the carousel type. */
  lemma SlidesIffCarousel(request: ContentRequest, env: Env, replies: Replies)
    ensures Response(request, env, replies).carouselSlides.Some? <==> WantsCarousel(request.contentType)
  {
  }

  /** `/post-to-linkedin`: the client's answer; its `except` branch cannot be
      reached, since `post_content` raises nothing. */
  function PostToLinkedIn(env: Env, content: string, hashtags: seq<string>): (r: PostResult)
    ensures !r.success && r.status == ComingSoonStatus && r.message != []
    ensures r.message == ComingSoonMessage <==> IsConfigured(env.linkedin)
  {
    PostContentFacts(env.linkedin, content, hashtags, content, hashtags);
    PostContent(env.linkedin, content, hashtags)
  }

  const ReadyMessage: string := "LinkedIn API is configured and ready"
  const MissingMessage: string := "LinkedIn API credentials not found in .env file"

  /** `/linkedin-status`. */
  function LinkedInStatusOf(env: Env): (r: LinkedInStatus)
    ensures r.configured <==>
      IsSet(env.linkedin.clientId) && IsSet(env.linkedin.clientSecret) && IsSet(env.linkedin.accessToken)
    ensures r.status == "ready" <==> r.configured
    ensures r.status == (if r.configured then "ready" else "not_configured")
    ensures r.message == (if r.configured then ReadyMessage else MissingMessage)
  {
    var configured := IsConfigured(env.linkedin);
    LinkedInStatus(configured, if configured then "ready" else "not_configured",
      if configured then ReadyMessage else MissingMessage)
  }

  /** `/health`; the clock reading is a parameter. */
  function HealthCheck(env: Env, timestamp: string): (r: Health)
    ensures r.status == "healthy" && r.timestamp == timestamp
    ensures r.openaiConfigured <==> HasKey(env)
    ensures r.linkedinConfigured <==> IsConfigured(env.linkedin)
  {
    Health("healthy", timestamp, IsSet(env.openaiApiKey), IsConfigured(env.linkedin))
  }

  /** The reports agree: `/health` and `/linkedin-status` give the same
      LinkedIn flag, and posting names the integration as coming soon exactly
      when that flag is set. */
  lemma ReportsAgree(env: Env, timestamp: string, content: string, hashtags: seq<string>)
    ensures HealthCheck(env, timestamp).linkedinConfigured == LinkedInStatusOf(env).configured
    ensures LinkedInStatusOf(env).configured <==> PostToLinkedIn(env, content, hashtags).message == ComingSoonMessage
  {
  }

  /** When `/health` reports no OpenAI key, the model is never consulted: the
      response does not depend on the replies, and the post is the fixed no-key text. */
  lemma NoKeyIgnoresReplies(env: Env, timestamp: string, request: ContentRequest, r1: Replies, r2: Replies)
    requires !HealthCheck(env, timestamp).openaiConfigured
    ensures Response(request, env, r1) == Response(request, env, r2)
    ensures Response(request, env, r1).content == NoKeyContent(request.query)
  {
  }
}
