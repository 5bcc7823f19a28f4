/** SEO keyword generation (`SEOOptimizer.generate_seo_keywords`): a fixed list
    when no OpenAI key is configured, the cleaned comma-separated reply of the
    model otherwise, and a five-item list when the call raises. */
module SeoKeywords {
  import opened PyText
  import opened Types

  /** What the cleaning loop keeps: non-empty, trimmed, lower-case and not a hashtag. */
  predicate IsCleanKeyword(k: string) {
    k != [] && Trimmed(k) && IsLowerCase(k) && k[0] != '#'
  }

  /** One piece of the reply after `strip().lower()`. */
  function Normalize(piece: string): string {
    Lower(Strip(piece))
  }

  /** The test the cleaning loop applies to a normalised piece. */
  predicate Keeps(k: string) {
    k != [] && k[0] != '#'
  }

  /** What one piece contributes to the cleaned list: itself normalised, or nothing. */
  function KeepOne(piece: string): (kept: seq<string>)
    ensures |kept| <= 1
  {
    var k := Normalize(piece);
    if Keeps(k) then [k] else []
  }

  /** The pieces that survive the cleaning loop, normalised, in their original order. */
  function KeepKeywords(pieces: seq<string>): (kept: seq<string>)
    ensures |kept| <= |pieces|
  {
    if pieces == [] then []
    else KeepKeywords(pieces[..|pieces| - 1]) + KeepOne(pieces[|pieces| - 1])
  }

  /** Every keyword the cleaning loop keeps is clean. */
  lemma {:induction false} KeepKeywordsClean(pieces: seq<string>)
    ensures forall i :: 0 <= i < |KeepKeywords(pieces)| ==> IsCleanKeyword(KeepKeywords(pieces)[i])
  {
    if pieces != [] {
      var piece := pieces[|pieces| - 1];
      StripFacts(piece);
      LowerKeepsTrimmed(Strip(piece));
      LowerAt(Strip(piece));
      KeepKeywordsClean(pieces[..|pieces| - 1]);
    }
  }

  /** The `for keyword in keywords` loop that appends to `clean_keywords`. */
  method CleanKeywords(pieces: seq<string>) returns (clean: seq<string>)
    ensures clean == KeepKeywords(pieces)
  {
    clean := [];
    var i := 0;
    while i < |pieces|
      invariant 0 <= i <= |pieces|
      invariant clean == KeepKeywords(pieces[..i])
    {
      var keyword := Lower(Strip(pieces[i]));
      if Keeps(keyword) {
        clean := clean + [keyword];
      }
      PrefixNext(pieces, i);
      KeepKeywordsSnoc(pieces[..i], pieces[i]);
      i := i + 1;
    }
    PrefixAll(pieces);
  }

  /** The keywords offered when no OpenAI key is configured. */
  function NoKeyKeywords(query: string): (r: seq<string>)
    ensures |r| == 7 && r[0] == Lower(query)
    ensures forall i :: 0 <= i < 4 ==> |query| <= |r[i]| && r[i][..|query|] == Lower(query)
    ensures r[4..] == ["professional development", "industry trends", "business strategy"]
  {
    var q := Lower(query);
    Take([q, q + " tips", q + " trends", q + " insights",
          "professional development", "industry trends", "business strategy"], 7)
  }

  /** The default used when no piece of the reply survives cleaning. */
  function DefaultKeywords(query: string): seq<string> {
    [Lower(query), "professional", "industry"]
  }

  /** The reply path: at most seven cleaned keywords, or the default when none survive. */
  function ReplyKeywords(query: string, reply: string): (r: seq<string>)
    ensures 1 <= |r| <= 7
    ensures (forall i :: 0 <= i < |r| ==> IsCleanKeyword(r[i])) || r == DefaultKeywords(query)
    ensures r == DefaultKeywords(query) <== KeepKeywords(Split(Strip(reply), ", ")) == []
  {
    var clean := KeepKeywords(Split(Strip(reply), ", "));
    KeepKeywordsClean(Split(Strip(reply), ", "));
    if clean != [] then Take(clean, 7) else DefaultKeywords(query)
  }

  /** The fallback when the model call raises; "trends" and "tips" stand alone
      when the query has no words. */
  function ErrorKeywords(query: string): (r: seq<string>)
    ensures |r| == 5 && r[0] == Lower(query)
    ensures Words(Lower(query)) == [] ==> r[1] == "trends" && r[2] == "tips"
    ensures Words(Lower(query)) != [] ==>
      r[1] == Words(Lower(query))[0] + " trends" && r[2] == Words(Lower(query))[0] + " tips"
    ensures r[3..] == ["professional development", "industry insights"]
  {
    var q := Lower(query);
    var words := Words(q);
    WordsFacts(q);
    Take([q,
          if words != [] then words[0] + " trends" else "trends",
          if words != [] then words[0] + " tips" else "tips",
          "professional development",
          "industry insights"], 5)
  }

  /** `generate_seo_keywords` as a function of the key's presence and the model's reply. */
  function Keywords(query: string, hasKey: bool, reply: AiReply): seq<string> {
    if !hasKey then NoKeyKeywords(query)
    else match reply
      case Failed => ErrorKeywords(query)
      case Reply(text) => ReplyKeywords(query, text)
  }

  method GenerateSeoKeywords(query: string, hasKey: bool, reply: AiReply) returns (keywords: seq<string>)
    ensures keywords == Keywords(query, hasKey, reply)
    ensures 1 <= |keywords| <= 7
  {
    if !hasKey {
      return NoKeyKeywords(query);
    }
    match reply
    case Failed =>
      keywords := ErrorKeywords(query);
    case Reply(text) =>
      var clean := CleanKeywords(Split(Strip(text), ", "));
      keywords := if clean != [] then Take(clean, 7) else DefaultKeywords(query);
  }

  lemma KeepKeywordsSnoc(pieces: seq<string>, piece: string)
    ensures KeepKeywords(pieces + [piece]) == KeepKeywords(pieces) + KeepOne(piece)
  {
    SnocFront(pieces, piece);
  }

  /** Clean keywords pass through the cleaning loop unchanged. */
  lemma {:induction false} KeepCleanKeywords(ks: seq<string>)
    requires forall i :: 0 <= i < |ks| ==> IsCleanKeyword(ks[i])
    ensures KeepKeywords(ks) == ks
  {
    if ks != [] {
      var k := ks[|ks| - 1];
      StripTrimmed(k);
      LowerOfLowerCase(k);
      KeepCleanKeywords(ks[..|ks| - 1]);
      SnocLast(ks);
    }
  }

  /** Cleaning is idempotent: a second pass over the kept keywords changes nothing. */
  lemma KeepKeywordsIdempotent(pieces: seq<string>)
    ensures KeepKeywords(KeepKeywords(pieces)) == KeepKeywords(pieces)
  {
    KeepKeywordsClean(pieces);
    KeepCleanKeywords(KeepKeywords(pieces));
  }

  /** A reply that lists clean keywords separated by ", " (none holding a comma)
      yields exactly those keywords, cut to seven. */
  lemma ReplyKeywordsOfList(query: string, ks: seq<string>)
    requires |ks| >= 1
    requires forall i :: 0 <= i < |ks| ==> IsCleanKeyword(ks[i]) && !HasChar(ks[i], ',')
    ensures ReplyKeywords(query, Join(", ", ks)) == Take(ks, 7)
  {
    var reply := Join(", ", ks);
    JoinTrimmed(", ", ks);
    StripTrimmed(reply);
    SplitJoin(", ", ks);
    KeepCleanKeywords(ks);
  }
}
