/** The post text itself (`ContentGenerator.get_content_length_words` and
    `ContentGenerator.generate_content`). */
module ContentGeneration {
  import opened PyText
  import opened Types

  /** `length_mapping`: the word budget of each length option. */
  const LengthMapping: map<string, nat> := map["Short" := 50, "Medium" := 150, "Long" := 300]

  /** `length_mapping.get(length, 150)`: 50 words for "Short", 300 for
      "Long", and the medium budget of 150 for "Medium" and for every other
      string. */
  function ContentLengthWords(length: string): (words: nat)
    ensures length == "Short" ==> words == 50
    ensures length == "Long" ==> words == 300
    ensures length != "Short" && length != "Long" ==> words == 150
  {
    if length in LengthMapping then LengthMapping[length] else 150
  }

  /** The three options get 50, 150 and 300 words; anything else (including a
      lower-case spelling) falls back to the medium budget. */
  lemma ContentLengthTable(length: string)
    ensures ContentLengthWords("Short") == 50
    ensures ContentLengthWords("Medium") == 150
    ensures ContentLengthWords("Long") == 300
    ensures ContentLengthWords(length) in {50, 150, 300}
    ensures ContentLengthWords(length) == 50 <==> length == "Short"
    ensures ContentLengthWords(length) == 300 <==> length == "Long"
  {
  }

  const Opening: string := "Exploring "

  /** The text returned when no OpenAI key is configured. */
  function NoKeyContent(query: string): string {
    Opening + query + NoKeyTail
  }

  /** The words both fallback texts share after the query. */
  const Shared: string := ": Key insights and trends "

  const NoKeyTail: string := Shared + "in" + " the industry. This topic is gaining significant attention and offers valuable opportunities for professionals."

  /** The text returned when the model call raises. */
  function ErrorContent(query: string): string {
    Opening + query + ErrorTail
  }

  const ErrorTail: string := Shared + "that" + " professionals should know about. This topic offers valuable opportunities for growth and innovation in the industry."

  /** `generate_content` as a function of the key's presence and the model's reply. */
  function Content(query: string, hasKey: bool, reply: AiReply): string {
    if !hasKey then NoKeyContent(query)
    else match reply
      case Failed => ErrorContent(query)
      case Reply(text) => Strip(text)
  }

  /** Both fallback texts open with "Exploring", the query verbatim and a colon,
      and they are different texts. */
  lemma FallbacksNameQuery(query: string)
    ensures var n := |Opening| + |query|;
      NoKeyContent(query)[..n] == Opening + query && NoKeyContent(query)[n] == ':' &&
      ErrorContent(query)[..n] == Opening + query && ErrorContent(query)[n] == ':'
    ensures NoKeyContent(query) != ErrorContent(query)
  {
    var n := |Opening| + |query|;
    var a := NoKeyContent(query);
    var b := ErrorContent(query);
    assert a == (Opening + query) + NoKeyTail && b == (Opening + query) + ErrorTail;
    assert a[..n] == Opening + query && b[..n] == Opening + query;
    assert a[n..] == NoKeyTail && b[n..] == ErrorTail;
    assert NoKeyTail[0] == Shared[0] == ':' && ErrorTail[0] == Shared[0];
    assert a[n + |Shared|] == NoKeyTail[|Shared|] == 'i';
    assert b[n + |Shared|] == ErrorTail[|Shared|] == 't';
  }

  /** The model's text is returned stripped, so it never starts or ends with
      whitespace, and it is empty exactly when the reply held only whitespace. */
  lemma ReplyContentTrimmed(query: string, text: string)
    ensures Trimmed(Content(query, true, Reply(text)))
    ensures Content(query, true, Reply(text)) == [] <==> AllSpace(text)
  {
    StripFacts(text);
  }

  /** A reply that is already trimmed comes back unchanged. */
  lemma TrimmedReplyKept(query: string, text: string)
    requires Trimmed(text)
    ensures Content(query, true, Reply(text)) == text
  {
    StripTrimmed(text);
  }

  /** The generated text is empty only when the model answered with whitespace. */
  lemma ContentEmptyIff(query: string, hasKey: bool, reply: AiReply)
    ensures Content(query, hasKey, reply) == [] <==> hasKey && reply.Reply? && AllSpace(reply.text)
  {
    if hasKey && reply.Reply? {
      StripFacts(reply.text);
    } else {
      assert |Content(query, hasKey, reply)| > |Opening|;
    }
  }
}
