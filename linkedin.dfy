/** The LinkedIn client (`LinkedInAPI`): three credentials taken from the
    environment, whether all of them are set, and the posting call, which
    does not post yet. */
module LinkedIn {
  import opened Wrappers
  import opened Types

  /** `LinkedInAPI.__init__`: the client id, client secret and access token
      as read from the environment. */
  datatype LinkedInApi = LinkedInApi(
    clientId: Option<string>,
    clientSecret: Option<string>,
    accessToken: Option<string>)

  /** Python's `all(values)` over truth values. */
  function All(values: seq<bool>): (r: bool)
    ensures r <==> forall i :: 0 <= i < |values| ==> values[i]
  {
    if values == [] then true else values[0] && All(values[1..])
  }

  /** `is_configured := all([client_id, client_secret, access_token])`. */
  function IsConfigured(api: LinkedInApi): (configured: bool)
    ensures configured <==> IsSet(api.clientId) && IsSet(api.clientSecret) && IsSet(api.accessToken)
  {
    var values := [IsSet(api.clientId), IsSet(api.clientSecret), IsSet(api.accessToken)];
    assert values[0] && values[1] && values[2] ==> All(values);
    All(values)
  }

  const ComingSoonStatus: string := "coming_soon"

  const NotConfiguredMessage: string :=
    "LinkedIn API not configured. " + "Please add your LinkedIn API credentials to .env file."

  const ComingSoonMessage: string :=
    "LinkedIn API integration is coming soon! " + "For now, please copy and post manually."

  /** `post_content`: nothing is posted; the message says whether the
      credentials are missing or the integration is not written yet. */
  function PostContent(api: LinkedInApi, content: string, hashtags: seq<string>): (r: PostResult)
    ensures !r.success && r.status == ComingSoonStatus
    ensures r.message == if IsConfigured(api) then ComingSoonMessage else NotConfiguredMessage
  {
    if !IsConfigured(api) then PostResult(false, NotConfiguredMessage, ComingSoonStatus)
    else PostResult(false, ComingSoonMessage, ComingSoonStatus)
  }

  /** Posting never succeeds, the answer does not depend on the post, and its
      message is non-empty and tells a configured client from one that is not. */
  lemma PostContentFacts(api: LinkedInApi, c1: string, h1: seq<string>, c2: string, h2: seq<string>)
    ensures PostContent(api, c1, h1) == PostContent(api, c2, h2)
    ensures PostContent(api, c1, h1).message != []
    ensures PostContent(api, c1, h1).message == ComingSoonMessage <==> IsConfigured(api)
  {
    assert NotConfiguredMessage[13] == 'n' && ComingSoonMessage[13] == 'i';
  }
}
