/** Hashtag generation (`HashtagGenerator.generate_hashtags`): a fixed list
    built from the query when no OpenAI key is configured, the cleaned
    comma-separated reply of the model otherwise (topped up when fewer than
    five tags survive), and a shorter query-based list when the call raises. */
module Hashtags {
  import opened PyText
  import opened Types

  /** What the reply cleaning keeps: `#`, at least one more character, no space. */
  predicate IsCleanTag(t: string) {
    |t| > 1 && t[0] == '#' && !HasChar(t, ' ')
  }

  /** What every path produces: starts with `#` and holds no space. */
  predicate IsTag(t: string) {
    |t| >= 1 && t[0] == '#' && !HasChar(t, ' ')
  }

  /** `#` in front of a string without spaces makes a tag. */
  lemma HashPrefixed(x: string)
    requires !HasChar(x, ' ')
    ensures IsTag("#" + x)
  {
  }

  // ---------------------------------------------------------------------
  // cleaning the reply

  /** What one piece of the reply contributes: itself stripped, when it is a clean tag. */
  function KeepTag(piece: string): (kept: seq<string>)
    ensures |kept| <= 1
  {
    var t := Strip(piece);
    if IsCleanTag(t) then [t] else []
  }

  /** The pieces the cleaning loop keeps, stripped, in their original order. */
  function KeepTags(pieces: seq<string>): (kept: seq<string>)
    ensures |kept| <= |pieces|
  {
    if pieces == [] then []
    else KeepTags(pieces[..|pieces| - 1]) + KeepTag(pieces[|pieces| - 1])
  }

  lemma KeepTagsSnoc(pieces: seq<string>, piece: string)
    ensures KeepTags(pieces + [piece]) == KeepTags(pieces) + KeepTag(piece)
  {
    SnocFront(pieces, piece);
  }

  /** Every tag the cleaning loop keeps is clean and trimmed. */
  lemma {:induction false} KeepTagsClean(pieces: seq<string>)
    ensures forall i :: 0 <= i < |KeepTags(pieces)| ==>
      IsCleanTag(KeepTags(pieces)[i]) && Trimmed(KeepTags(pieces)[i])
  {
    if pieces != [] {
      StripFacts(pieces[|pieces| - 1]);
      KeepTagsClean(pieces[..|pieces| - 1]);
    }
  }

  /** Clean, trimmed tags pass through the cleaning loop unchanged. */
  lemma {:induction false} KeepCleanTags(ts: seq<string>)
    requires forall i :: 0 <= i < |ts| ==> IsCleanTag(ts[i]) && Trimmed(ts[i])
    ensures KeepTags(ts) == ts
  {
    if ts != [] {
      StripTrimmed(ts[|ts| - 1]);
      KeepCleanTags(ts[..|ts| - 1]);
      SnocLast(ts);
    }
  }

  /** The `for tag in hashtags` loop that appends to `clean_hashtags`. */
  method CleanHashtags(pieces: seq<string>) returns (clean: seq<string>)
    ensures clean == KeepTags(pieces)
  {
    clean := [];
    var i := 0;
    while i < |pieces|
      invariant 0 <= i <= |pieces|
      invariant clean == KeepTags(pieces[..i])
    {
      var tag := Strip(pieces[i]);
      if |tag| > 1 && tag[0] == '#' && !HasChar(tag, ' ') {
        clean := clean + [tag];
      }
      PrefixNext(pieces, i);
      KeepTagsSnoc(pieces[..i], pieces[i]);
      i := i + 1;
    }
    PrefixAll(pieces);
  }

  // ---------------------------------------------------------------------
  // tags made from the query

  /** `query.lower().split()`. */
  function QueryWords(query: string): seq<string> {
    Words(Lower(query))
  }

  /** `"#" + query.replace(' ', '').lower()`: the first tag of both query-based lists. */
  function QueryTag(query: string): string {
    "#" + Lower(RemoveSpaces(query))
  }

  /** `"#" + query.replace(' ', '')`: the first tag of the top-up list, not lower-cased. */
  function RawQueryTag(query: string): string {
    "#" + RemoveSpaces(query)
  }

  /** The tag one word contributes: `#Word` when the word is longer than three characters. */
  function WordTag(word: string): (tags: seq<string>)
    ensures |tags| <= 1
  {
    if |word| > 3 then ["#" + Capitalize(word)] else []
  }

  /** The tags of a run of words, in order. */
  function WordTags(words: seq<string>): (tags: seq<string>)
    ensures |tags| <= |words|
  {
    if words == [] then []
    else WordTags(words[..|words| - 1]) + WordTag(words[|words| - 1])
  }

  lemma WordTagsSnoc(words: seq<string>, word: string)
    ensures WordTags(words + [word]) == WordTags(words) + WordTag(word)
  {
    SnocFront(words, word);
  }

  /** The `for word in words[:2]: if len(word) > 3: append` loops. */
  method AddWordTags(tags: seq<string>, words: seq<string>) returns (r: seq<string>)
    ensures r == tags + WordTags(Take(words, 2))
  {
    var first := Take(words, 2);
    r := tags;
    var i := 0;
    while i < |first|
      invariant 0 <= i <= |first|
      invariant r == tags + WordTags(first[..i])
    {
      var word := first[i];
      if |word| > 3 {
        r := r + ["#" + Capitalize(word)];
      }
      PrefixNext(first, i);
      WordTagsSnoc(first[..i], word);
      i := i + 1;
    }
    PrefixAll(first);
  }

  /** Each word tag is `#` and the capitalised word, and only words longer than three count. */
  lemma {:induction false} WordTagsShape(words: seq<string>)
    requires forall i :: 0 <= i < |words| ==> NoSpace(words[i])
    ensures forall i :: 0 <= i < |WordTags(words)| ==> IsTag(WordTags(words)[i]) && |WordTags(words)[i]| > 4
  {
    if words != [] {
      var w := words[|words| - 1];
      WordTagsShape(words[..|words| - 1]);
      CapitalizeKeepsNoSpace(w);
      HashPrefixed(Capitalize(w));
    }
  }

  /** The tags of the query's first two words are well formed. */
  lemma QueryWordTags(query: string)
    ensures var tags := WordTags(Take(QueryWords(query), 2));
      |tags| <= 2 && forall i :: 0 <= i < |tags| ==> IsTag(tags[i])
  {
    WordsFacts(Lower(query));
    WordTagsShape(Take(QueryWords(query), 2));
  }

  lemma QueryTagIsTag(query: string)
    ensures IsTag(QueryTag(query)) && IsTag(RawQueryTag(query))
  {
    RemoveSpacesFacts(query);
    LowerKeepsSpaces(RemoveSpaces(query));
    HashPrefixed(Lower(RemoveSpaces(query)));
    HashPrefixed(RemoveSpaces(query));
  }

  // ---------------------------------------------------------------------
  // the three paths

  const NoKeyBase: seq<string> :=
    ["#LinkedIn", "#Professional", "#CareerGrowth", "#BusinessTips", "#Industry", "#Innovation", "#Leadership"]

  const ErrorBase: seq<string> := ["#LinkedIn", "#Professional", "#Business", "#CareerTips"]

  /** The five tags appended when fewer than five survive the cleaning. */
  function TopUpTags(query: string): seq<string> {
    [RawQueryTag(query), "#LinkedIn", "#Professional", "#Business", "#Growth"]
  }

  /** Without an OpenAI key: the query tag, the seven fixed tags, then one tag per
      long word among the first two, cut to ten. */
  function NoKeyHashtags(query: string): (r: seq<string>)
    ensures 8 <= |r| <= 10
    ensures r[0] == QueryTag(query) && r[1..8] == NoKeyBase
    ensures r[8..] == WordTags(Take(QueryWords(query), 2))
  {
    Take([QueryTag(query)] + NoKeyBase + WordTags(Take(QueryWords(query), 2)), 10)
  }

  /** The reply path: the clean tags, topped up when fewer than five, cut to twelve. */
  function ReplyHashtags(query: string, reply: string): (r: seq<string>)
    ensures 5 <= |r| <= 12
    ensures var kept := KeepTags(Split(Strip(reply), ", "));
      (|kept| >= 5 ==> r == Take(kept, 12)) &&
      (|kept| < 5 ==> r[..|kept|] == kept && r[|kept|..] == TopUpTags(query))
  {
    var clean := KeepTags(Split(Strip(reply), ", "));
    Take(if |clean| < 5 then clean + TopUpTags(query) else clean, 12)
  }

  /** When the model call raises: the query tag, four fixed tags, then the word tags, cut to eight. */
  function ErrorHashtags(query: string): (r: seq<string>)
    ensures 5 <= |r| <= 7
    ensures r[0] == QueryTag(query) && r[1..5] == ErrorBase
    ensures r[5..] == WordTags(Take(QueryWords(query), 2))
  {
    Take([QueryTag(query)] + ErrorBase + WordTags(Take(QueryWords(query), 2)), 8)
  }

  /** `generate_hashtags` as a function of the key's presence and the model's reply. */
  function Hashtags(query: string, hasKey: bool, reply: AiReply): seq<string> {
    if !hasKey then NoKeyHashtags(query)
    else match reply
      case Failed => ErrorHashtags(query)
      case Reply(text) => ReplyHashtags(query, text)
  }

  method GenerateHashtags(query: string, hasKey: bool, reply: AiReply) returns (hashtags: seq<string>)
    ensures hashtags == Hashtags(query, hasKey, reply)
    ensures 5 <= |hashtags| <= 12
  {
    if !hasKey {
      var base := [QueryTag(query)] + NoKeyBase;
      var words := QueryWords(query);
      if words != [] {
        base := AddWordTags(base, words);
      } else {
        assert base + WordTags(Take(words, 2)) == base;
      }
      return Take(base, 10);
    }
    match reply
    case Failed =>
      var tags := AddWordTags([QueryTag(query)] + ErrorBase, QueryWords(query));
      hashtags := Take(tags, 8);
    case Reply(text) =>
      var clean := CleanHashtags(Split(Strip(text), ", "));
      if |clean| < 5 {
        clean := clean + TopUpTags(query);
      }
      hashtags := Take(clean, 12);
  }

  /** The fixed tags of the three lists are tags. */
  lemma FixedTagsAreTags()
    ensures forall i :: 0 <= i < |NoKeyBase| ==> IsTag(NoKeyBase[i])
    ensures forall i :: 0 <= i < |ErrorBase| ==> IsTag(ErrorBase[i])
    ensures IsTag("#Growth")
  {
    assert IsTag("#LinkedIn");
    assert IsTag("#Professional");
    assert IsTag("#CareerGrowth");
    assert IsTag("#BusinessTips");
    assert IsTag("#Industry");
    assert IsTag("#Innovation");
    assert IsTag("#Leadership");
    assert IsTag("#Business");
    assert IsTag("#CareerTips");
  }

  /** A list made of a tag, fixed tags and word tags holds only tags. */
  lemma ConcatTags(head: string, base: seq<string>, rest: seq<string>)
    requires IsTag(head)
    requires forall i :: 0 <= i < |base| ==> IsTag(base[i])
    requires forall i :: 0 <= i < |rest| ==> IsTag(rest[i])
    ensures forall i :: 0 <= i < |[head] + base + rest| ==> IsTag(([head] + base + rest)[i])
  {
  }

  lemma TakeAll<T>(xs: seq<T>, n: nat)
    ensures forall i :: 0 <= i < |Take(xs, n)| ==> Take(xs, n)[i] == xs[i]
  {
  }

  lemma NoKeyHashtagsWellFormed(query: string)
    ensures forall i :: 0 <= i < |NoKeyHashtags(query)| ==> IsTag(NoKeyHashtags(query)[i])
  {
    QueryTagIsTag(query);
    QueryWordTags(query);
    FixedTagsAreTags();
    var all := [QueryTag(query)] + NoKeyBase + WordTags(Take(QueryWords(query), 2));
    ConcatTags(QueryTag(query), NoKeyBase, WordTags(Take(QueryWords(query), 2)));
    TakeAll(all, 10);
  }

  lemma ErrorHashtagsWellFormed(query: string)
    ensures forall i :: 0 <= i < |ErrorHashtags(query)| ==> IsTag(ErrorHashtags(query)[i])
  {
    QueryTagIsTag(query);
    QueryWordTags(query);
    FixedTagsAreTags();
    var all := [QueryTag(query)] + ErrorBase + WordTags(Take(QueryWords(query), 2));
    ConcatTags(QueryTag(query), ErrorBase, WordTags(Take(QueryWords(query), 2)));
    TakeAll(all, 8);
  }

  lemma TopUpTagsAreTags(query: string)
    ensures forall i :: 0 <= i < |TopUpTags(query)| ==> IsTag(TopUpTags(query)[i])
  {
    QueryTagIsTag(query);
    FixedTagsAreTags();
    assert IsTag(NoKeyBase[0]) && IsTag(NoKeyBase[1]) && IsTag(ErrorBase[2]);
  }

  /** Clean tags followed by tags are tags. */
  lemma AppendTags(clean: seq<string>, more: seq<string>)
    requires forall i :: 0 <= i < |clean| ==> IsCleanTag(clean[i])
    requires forall i :: 0 <= i < |more| ==> IsTag(more[i])
    ensures forall i :: 0 <= i < |clean + more| ==> IsTag((clean + more)[i])
  {
  }

  lemma {:induction false} ReplyHashtagsWellFormed(query: string, reply: string)
    ensures forall i :: 0 <= i < |ReplyHashtags(query, reply)| ==> IsTag(ReplyHashtags(query, reply)[i])
  {
    var kept := KeepTags(Split(Strip(reply), ", "));
    KeepTagsClean(Split(Strip(reply), ", "));
    if |kept| < 5 {
      TopUpTagsAreTags(query);
      AppendTags(kept, TopUpTags(query));
      TakeAll(kept + TopUpTags(query), 12);
    } else {
      TakeAll(kept, 12);
    }
  }

  /** Every path yields tags that start with `#` and hold no space. */
  lemma HashtagsWellFormed(query: string, hasKey: bool, reply: AiReply)
    ensures forall i :: 0 <= i < |Hashtags(query, hasKey, reply)| ==> IsTag(Hashtags(query, hasKey, reply)[i])
  {
    if !hasKey {
      NoKeyHashtagsWellFormed(query);
    } else if reply.Failed? {
      ErrorHashtagsWellFormed(query);
    } else {
      ReplyHashtagsWellFormed(query, reply.text);
    }
  }

  /** A reply listing at least five clean, trimmed tags separated by ", " (none holding
      a comma) yields exactly those tags, cut to twelve. */
  lemma ReplyHashtagsOfList(query: string, tags: seq<string>)
    requires |tags| >= 5
    requires forall i :: 0 <= i < |tags| ==> IsCleanTag(tags[i]) && Trimmed(tags[i]) && !HasChar(tags[i], ',')
    ensures ReplyHashtags(query, Join(", ", tags)) == Take(tags, 12)
  {
    var reply := Join(", ", tags);
    JoinTrimmed(", ", tags);
    StripTrimmed(reply);
    SplitJoin(", ", tags);
    KeepCleanTags(tags);
  }
}
