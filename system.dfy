/** How the browser's components and the service fit together: what the
    panel shows for the service's answers, and how the form's options map to
    the service's tables. */
module System {
  import opened Wrappers
  import opened Types
  import opened PyText
  import opened ContentGeneration
  import opened Hashtags
  import opened LinkedIn
  import opened Endpoints
  import opened AppSession
  import opened ContentFormModel
  import opened ContentPreviewModel

  /** Copying all hashtags of a generated post and splitting the copied text at
      spaces gives back the service's hashtags. */
  lemma CopiedHashtagsSplitBack(request: ContentRequest, env: Env, replies: Replies)
    ensures var r := Response(request, env, replies);
      Split(HashtagsCopyText(FromResponse(r)), " ") == r.hashtags
  {
    var r := Response(request, env, replies);
    ResponseFacts(request, env, replies);
    HashtagsCopyRoundTrip(FromResponse(r));
  }

  /** When the post request reaches the service, the alert is the service's
      message, never the success text; when it fails on the way, the fixed
      fallback is shown. */
  lemma PostAlertOfService(env: Env, content: string, hashtags: seq<string>)
    ensures var result := PostToLinkedIn(env, content, hashtags);
      PostAlert(Resolved(result)) == result.message && PostAlert(Resolved(result)) != PostedAlert
    ensures PostAlert(Rejected(OtherValue)) == ThrownAlert
  {
    var result := PostToLinkedIn(env, content, hashtags);
    assert result.message[0] == 'L' && PostedAlert[0] == 'S';
  }

  /** The post button says "(Ready)" exactly when the service has all three
      LinkedIn credentials. */
  lemma ReadyIffConfigured(env: Env)
    ensures PostButtonSuffix(Some(LinkedInStatusOf(env))) == "(Ready)" <==>
      IsSet(env.linkedin.clientId) && IsSet(env.linkedin.clientSecret) && IsSet(env.linkedin.accessToken)
    ensures PostButtonSuffix(None) == "(Coming Soon)"
  {
  }

  /** A successful health probe puts the service's LinkedIn flag into the session. */
  lemma ProbeOfService(s: Session, env: Env, timestamp: string)
    ensures var t := Probe(s, Resolved(HealthCheck(env, timestamp)));
      t.apiStatus == Online && (t.linkedInConfigured <==> IsConfigured(env.linkedin))
  {
  }

  /** The words promised beside each length option are the words the service asks for. */
  lemma LengthLabelsMatchService(length: string)
    requires length in ContentLengths
    ensures LengthLabel(length) == "~" + DecimalText(ContentLengthWords(length)) + " words"
  {
    if length == "Short" {
      assert DecimalText(50) == "50";
    } else if length == "Medium" {
      assert DecimalText(150) == "150";
    } else {
      assert DecimalText(300) == "300";
    }
  }

  /** Of the types the form offers, only "Carousel" comes back with slides, and
      so only then does the panel draw its tabs. */
  lemma TabsOnlyForCarousel(f: FormData, env: Env, replies: Replies)
    requires f.contentType in ContentTypes
    ensures TabsShown(FromResponse(Response(RequestOf(f), env, replies))) <==> f.contentType == "Carousel"
  {
    var r := Response(RequestOf(f), env, replies);
    SlidesIffCarousel(RequestOf(f), env, replies);
    CarouselOption();
    var k :| 0 <= k < |ContentTypes| && ContentTypes[k] == f.contentType;
    assert TabsShown(FromResponse(r)) == r.carouselSlides.Some?;
  }

  /** A submitted request carries a query with a non-space character, and the
      post written without a key names that query. */
  lemma SubmittedQueryNamed(f: FormData, env: Env, replies: Replies)
    requires Submission(f).Some? && !HasKey(env)
    ensures !JsBlank(Submission(f).value.query)
    ensures var q := Submission(f).value.query;
      Response(Submission(f).value, env, replies).content[|Opening|..|Opening| + |q|] == q
  {
    var q := f.query;
    var c := NoKeyContent(q);
    FallbacksNameQuery(q);
    assert c[..|Opening| + |q|][|Opening|..] == q;
  }
}
