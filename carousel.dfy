/** Carousel slides (`ContentGenerator.generate_carousel_slides`): without an
    OpenAI key the post is cut at ". " and the sentences are packed greedily
    into slides of under 200 characters; with a key the model's numbered or
    bulleted lines are parsed; when the call raises, the first five sentences
    are the slides. */
module Carousel {
  import opened PyText
  import opened Types

  /** The `< 200` bound of the packing loop. */
  const Width: nat := 200

  // ---------------------------------------------------------------------
  // greedy packing, on groups of sentences

  /** What `current_slide` holds once the sentences of `group` are in it:
      each sentence followed by ". ". */
  function Chunk(group: seq<string>): string {
    if group == [] then "" else Chunk(group[..|group| - 1]) + group[|group| - 1] + ". "
  }

  /** `if current_slide:` is the test for an open slide. */
  lemma ChunkEmpty(group: seq<string>)
    ensures Chunk(group) == "" <==> group == []
  {
  }

  lemma ChunkSnoc(group: seq<string>, s: string)
    ensures Chunk(group + [s]) == Chunk(group) + s + ". "
  {
    SnocFront(group, s);
  }

  /** The finished slides, as groups of sentences, and the slide being filled. */
  datatype Packing = Packing(done: seq<seq<string>>, open: seq<string>)

  /** One turn of the loop: the sentence joins the open slide while the open
      text and the sentence stay under `Width`; otherwise the open slide (if
      any) is finished and the sentence opens the next one. */
  function Step(p: Packing, sentence: string): Packing {
    if |Chunk(p.open)| + |sentence| < Width then Packing(p.done, p.open + [sentence])
    else Packing(if p.open != [] then p.done + [p.open] else p.done, [sentence])
  }

  function PackAll(sentences: seq<string>): Packing {
    if sentences == [] then Packing([], [])
    else Step(PackAll(sentences[..|sentences| - 1]), sentences[|sentences| - 1])
  }

  lemma PackAllSnoc(sentences: seq<string>, s: string)
    ensures PackAll(sentences + [s]) == Step(PackAll(sentences), s)
  {
    SnocFront(sentences, s);
  }

  lemma PackAllNext(sentences: seq<string>, i: nat)
    requires i < |sentences|
    ensures PackAll(sentences[..i + 1]) == Step(PackAll(sentences[..i]), sentences[i])
  {
    PackAllSnoc(sentences[..i], sentences[i]);
    PrefixNext(sentences, i);
  }

  /** The slide still open after the loop is finished too. */
  function Close(p: Packing): seq<seq<string>> {
    if p.open != [] then p.done + [p.open] else p.done
  }

  /** The sentence groups of the slides, in order. */
  function Groups(sentences: seq<string>): seq<seq<string>> {
    Close(PackAll(sentences))
  }

  function Flatten(groups: seq<seq<string>>): seq<string> {
    if groups == [] then [] else Flatten(groups[..|groups| - 1]) + groups[|groups| - 1]
  }

  lemma FlattenSnoc(groups: seq<seq<string>>, g: seq<string>)
    ensures Flatten(groups + [g]) == Flatten(groups) + g
  {
    SnocFront(groups, g);
  }

  /** Every sentence after the first of a group was added because it fit:
      the text before it and the sentence stayed under `Width`. */
  predicate Fits(g: seq<string>) {
    |g| <= 1 || (Fits(g[..|g| - 1]) && |Chunk(g[..|g| - 1])| + |g[|g| - 1]| < Width)
  }

  /** A packing of sentences into slides the greedy loop would produce: no slide
      is empty, every sentence after a slide's first one fit, and every slide's
      first sentence did not fit onto the slide before. */
  predicate Packed(groups: seq<seq<string>>) {
    groups == [] ||
    (var g := groups[|groups| - 1];
     Packed(groups[..|groups| - 1]) && g != [] && Fits(g) &&
     (|groups| >= 2 ==> |Chunk(groups[|groups| - 2])| + |g[0]| >= Width))
  }

  /** What holds of the loop's state after any prefix of the sentences. */
  predicate PackInv(p: Packing, sentences: seq<string>) {
    Packed(p.done) && Fits(p.open) &&
    (p.done != [] ==> p.open != [] && |Chunk(p.done[|p.done| - 1])| + |p.open[0]| >= Width) &&
    (sentences != [] ==> p.open != []) &&
    Flatten(p.done) + p.open == sentences
  }

  lemma FitsSnoc(g: seq<string>, s: string)
    ensures Fits(g + [s]) <==> Fits(g) && (g != [] ==> |Chunk(g)| + |s| < Width)
  {
    SnocFront(g, s);
  }

  lemma PackedSnoc(groups: seq<seq<string>>, g: seq<string>)
    ensures Packed(groups + [g]) <==>
      Packed(groups) && g != [] && Fits(g) &&
      (groups != [] ==> |Chunk(groups[|groups| - 1])| + |g[0]| >= Width)
  {
    SnocFront(groups, g);
  }

  lemma {:induction false} PackedAt(groups: seq<seq<string>>, k: int)
    requires Packed(groups) && 0 <= k < |groups|
    ensures groups[k] != [] && Fits(groups[k])
  {
    if k < |groups| - 1 {
      PackedAt(groups[..|groups| - 1], k);
    }
  }

  /** The sentence joins the open slide. */
  lemma StepJoinInv(p: Packing, sentences: seq<string>, s: string)
    requires PackInv(p, sentences) && |Chunk(p.open)| + |s| < Width
    ensures PackInv(Packing(p.done, p.open + [s]), sentences + [s])
  {
    FitsSnoc(p.open, s);
    if p.open != [] {
      assert (p.open + [s])[0] == p.open[0];
    }
    assert Flatten(p.done) + (p.open + [s]) == (Flatten(p.done) + p.open) + [s];
  }

  /** The open slide is finished and the sentence opens the next one. */
  lemma StepBreakInv(p: Packing, sentences: seq<string>, s: string)
    requires PackInv(p, sentences) && p.open != [] && |Chunk(p.open)| + |s| >= Width
    ensures PackInv(Packing(p.done + [p.open], [s]), sentences + [s])
  {
    PackedSnoc(p.done, p.open);
    FlattenSnoc(p.done, p.open);
    assert (p.done + [p.open])[|p.done|] == p.open;
  }

  lemma StepInv(p: Packing, sentences: seq<string>, s: string)
    requires PackInv(p, sentences)
    ensures PackInv(Step(p, s), sentences + [s])
  {
    if |Chunk(p.open)| + |s| < Width {
      StepJoinInv(p, sentences, s);
    } else if p.open != [] {
      StepBreakInv(p, sentences, s);
    } else {
      assert Step(p, s) == Packing([], [s]);
    }
  }

  lemma {:induction false} PackAllInv(sentences: seq<string>)
    ensures PackInv(PackAll(sentences), sentences)
  {
    if sentences != [] {
      var init := sentences[..|sentences| - 1];
      var s := sentences[|sentences| - 1];
      PackAllInv(init);
      StepInv(PackAll(init), init, s);
      SnocLast(sentences);
    }
  }

  /** The greedy packing keeps every sentence, in order, and is `Packed`. */
  lemma GroupsPacked(sentences: seq<string>)
    ensures Flatten(Groups(sentences)) == sentences
    ensures Packed(Groups(sentences))
  {
    var p := PackAll(sentences);
    PackAllInv(sentences);
    if p.open != [] {
      FlattenSnoc(p.done, p.open);
      PackedSnoc(p.done, p.open);
    }
  }

  lemma SnocInjective<T>(a: seq<T>, x: T, b: seq<T>, y: T)
    requires a + [x] == b + [y]
    ensures a == b && x == y
  {
    assert |a| == |b|;
    assert x == (a + [x])[|a|] == (b + [y])[|b|] == y;
    assert a == (a + [x])[..|a|] == (b + [y])[..|b|] == b;
  }

  /** A last slide of a single sentence is what the loop makes of a sentence that
      did not fit onto the slide before. */
  lemma UniqueAlone(front: seq<seq<string>>, s: string, init: seq<string>)
    requires front == Groups(init) && Packed(front + [[s]])
    ensures front + [[s]] == Groups(init + [s])
  {
    PackedSnoc(front, [s]);
    PackAllInv(init);
    PackAllSnoc(init, s);
    var p := PackAll(init);
    if p.open == [] {
      assert p.done == [] && front == [];
    } else {
      SnocInjective(p.done, p.open, front[..|front| - 1], front[|front| - 1]);
    }
  }

  /** A last sentence sharing the last slide is one that fit onto it. */
  lemma UniqueJoined(front: seq<seq<string>>, g: seq<string>, s: string, init: seq<string>)
    requires front + [g] == Groups(init) && g != [] && Packed(front + [g + [s]])
    ensures front + [g + [s]] == Groups(init + [s])
  {
    PackedSnoc(front, g + [s]);
    FitsSnoc(g, s);
    PackAllInv(init);
    PackAllSnoc(init, s);
    var p := PackAll(init);
    if p.open != [] {
      SnocInjective(p.done, p.open, front, g);
    }
  }

  /** `Packed` pins the packing down: the greedy one is the only packing of
      the sentences with that shape. */
  lemma {:induction false} PackedUnique(groups: seq<seq<string>>, sentences: seq<string>)
    requires Packed(groups) && Flatten(groups) == sentences
    ensures groups == Groups(sentences)
    decreases |sentences|, 1
  {
    if groups != [] {
      if |groups[|groups| - 1]| == 1 {
        UniqueLastAlone(groups, sentences);
      } else {
        UniqueLastJoined(groups, sentences);
      }
    }
  }

  lemma {:induction false} UniqueLastAlone(groups: seq<seq<string>>, sentences: seq<string>)
    requires Packed(groups) && Flatten(groups) == sentences
    requires groups != [] && |groups[|groups| - 1]| == 1
    ensures groups == Groups(sentences)
    decreases |sentences|, 0
  {
    var front := groups[..|groups| - 1];
    var s := groups[|groups| - 1][0];
    assert groups[|groups| - 1] == [s];
    SnocLast(groups);
    PackedSnoc(front, [s]);
    FlattenSnoc(front, [s]);
    var init := Flatten(front);
    assert sentences == init + [s];
    PackedUnique(front, init);
    UniqueAlone(front, s, init);
  }

  lemma {:induction false} UniqueLastJoined(groups: seq<seq<string>>, sentences: seq<string>)
    requires Packed(groups) && Flatten(groups) == sentences
    requires groups != [] && |groups[|groups| - 1]| >= 2
    ensures groups == Groups(sentences)
    decreases |sentences|, 0
  {
    var front := groups[..|groups| - 1];
    var g := groups[|groups| - 1];
    var g' := g[..|g| - 1];
    var s := g[|g| - 1];
    SnocLast(g);
    SnocLast(groups);
    PackedSnoc(front, g' + [s]);
    FitsSnoc(g', s);
    FlattenSnoc(front, g' + [s]);
    FlattenSnoc(front, g');
    var init := Flatten(front) + g';
    assert sentences == init + [s];
    assert g'[0] == g[0];
    PackedSnoc(front, g');
    PackedUnique(front + [g'], init);
    UniqueJoined(front, g', s, init);
  }

  // ---------------------------------------------------------------------
  // the slides of the packing

  /** `current_slide.strip()`. */
  function SlideText(group: seq<string>): string {
    Strip(Chunk(group))
  }

  function SlideTexts(groups: seq<seq<string>>): (slides: seq<string>)
    ensures |slides| == |groups|
  {
    if groups == [] then [] else SlideTexts(groups[..|groups| - 1]) + [SlideText(groups[|groups| - 1])]
  }

  lemma SlideTextsSnoc(groups: seq<seq<string>>, g: seq<string>)
    ensures SlideTexts(groups + [g]) == SlideTexts(groups) + [SlideText(g)]
  {
    SnocFront(groups, g);
  }

  lemma {:induction false} SlideTextsAt(groups: seq<seq<string>>)
    ensures forall k :: 0 <= k < |groups| ==> SlideTexts(groups)[k] == SlideText(groups[k])
  {
    if groups != [] {
      SlideTextsAt(groups[..|groups| - 1]);
    }
  }

  /** The slides of the no-key path: the packed sentence groups, stripped, at most ten. */
  function FallbackSlides(content: string): (slides: seq<string>)
    ensures |slides| <= 10
  {
    Take(SlideTexts(Groups(Split(content, ". "))), 10)
  }

  /** The no-key path: cut at ". ", pack, keep ten. */
  method SplitIntoSlides(content: string) returns (slides: seq<string>)
    ensures slides == FallbackSlides(content)
  {
    var sentences := Split(content, ". ");
    slides := PackSlides(sentences);
    slides := Take(slides, 10);
  }

  /** A sentence that fits is appended to the open slide's text. */
  lemma StepJoinText(p: Packing, sentence: string)
    requires |Chunk(p.open) + sentence| < Width
    ensures Chunk(Step(p, sentence).open) == Chunk(p.open) + sentence + ". "
    ensures Step(p, sentence).done == p.done
  {
    ChunkSnoc(p.open, sentence);
  }

  /** A sentence that does not fit finishes the open slide, if there is text in
      it, and starts the next one. */
  lemma StepBreakText(p: Packing, sentence: string)
    requires |Chunk(p.open) + sentence| >= Width
    ensures Chunk(Step(p, sentence).open) == sentence + ". "
    ensures SlideTexts(Step(p, sentence).done) ==
      if Chunk(p.open) != "" then SlideTexts(p.done) + [Strip(Chunk(p.open))] else SlideTexts(p.done)
  {
    ChunkEmpty(p.open);
    ChunkSnoc([], sentence);
    if p.open != [] {
      SlideTextsSnoc(p.done, p.open);
    }
  }

  /** The packing loop of the no-key path, on strings as the source runs it. */
  method PackSlides(sentences: seq<string>) returns (slides: seq<string>)
    ensures slides == SlideTexts(Groups(sentences))
  {
    slides := [];
    var current := "";
    ghost var p := Packing([], []);
    var i := 0;
    while i < |sentences|
      invariant 0 <= i <= |sentences|
      invariant p == PackAll(sentences[..i])
      invariant current == Chunk(p.open)
      invariant slides == SlideTexts(p.done)
    {
      var sentence := sentences[i];
      PackAllNext(sentences, i);
      if |current + sentence| < Width {
        StepJoinText(p, sentence);
        current := current + sentence + ". ";
      } else {
        StepBreakText(p, sentence);
        if current != "" {
          slides := slides + [Strip(current)];
        }
        current := sentence + ". ";
      }
      i := i + 1;
      p := PackAll(sentences[..i]);
    }
    ChunkEmpty(p.open);
    if current != "" {
      SlideTextsSnoc(p.done, p.open);
      slides := slides + [Strip(current)];
    }
    PrefixAll(sentences);
  }

  /** Stripping text that ends in ". " keeps the full stop as the last character. */
  lemma StripStop(u: string)
    ensures var r := Strip(u + ". "); r != [] && r[|r| - 1] == '.' && |r| <= |u| + 1
  {
    StripStartFacts(u);
    var v := StripStart(u);
    var w := u[..|u| - |v|];
    assert u == w + v;
    assert u + ". " == w + (v + ". ");
    StripStartPadded(w, v + ". ");
    assert v + ". " == (v + ".") + " ";
    StripEndPadded(v + ".", " ");
  }

  /** The shape of the slide text `t` of group `g`: non-empty, ending with the
      full stop after the group's last sentence, and at most `Width` characters
      long when the group holds several sentences. */
  predicate SlideShaped(t: string, g: seq<string>) {
    t != [] && t[|t| - 1] == '.' && (|g| >= 2 ==> |t| <= Width)
  }

  lemma GroupSlideShape(g: seq<string>)
    requires g != [] && Fits(g)
    ensures SlideShaped(SlideText(g), g)
  {
    var init := g[..|g| - 1];
    var last := g[|g| - 1];
    StripStop(Chunk(init) + last);
    assert Chunk(g) == (Chunk(init) + last) + ". ";
  }

  lemma PackedSlidesShape(groups: seq<seq<string>>)
    requires Packed(groups)
    ensures forall k :: 0 <= k < |groups| ==> SlideShaped(SlideTexts(groups)[k], groups[k])
  {
    SlideTextsAt(groups);
    forall k | 0 <= k < |groups| ensures SlideShaped(SlideTexts(groups)[k], groups[k]) {
      PackedAt(groups, k);
      GroupSlideShape(groups[k]);
    }
  }

  /** The shape of the greedy slides of any run of sentences. */
  lemma {:induction false} SentenceSlidesShape(sentences: seq<string>)
    ensures forall k :: 0 <= k < |Groups(sentences)| ==>
      SlideShaped(SlideTexts(Groups(sentences))[k], Groups(sentences)[k])
  {
    GroupsPacked(sentences);
    PackedSlidesShape(Groups(sentences));
  }

  /** Every fallback slide is non-empty and ends with the full stop that followed
      its last sentence; a slide of two or more sentences is at most `Width`
      characters long. */
  lemma {:induction false} FallbackSlidesShape(content: string)
    ensures forall k :: 0 <= k < |FallbackSlides(content)| ==>
      SlideShaped(FallbackSlides(content)[k], Groups(Split(content, ". "))[k])
  {
    var sentences := Split(content, ". ");
    SentenceSlidesShape(sentences);
    var all := SlideTexts(Groups(sentences));
    assert FallbackSlides(content) == all[..|FallbackSlides(content)|];
  }

  // ---------------------------------------------------------------------
  // parsing the model's reply

  /** What one line of the reply contributes: when the stripped line starts
      with a digit or a bullet, what follows its first '.', stripped, if anything. */
  function ParseLine(line: string): (slide: seq<string>)
    ensures |slide| <= 1
  {
    var t := Strip(line);
    if t != [] && (IsDigit(t[0]) || t[0] == '\U{2022}') then
      var c := Strip(AfterFirst(t, "."));
      if c != [] then [c] else []
    else []
  }

  function KeepSlides(lines: seq<string>): (slides: seq<string>)
    ensures |slides| <= |lines|
  {
    if lines == [] then [] else KeepSlides(lines[..|lines| - 1]) + ParseLine(lines[|lines| - 1])
  }

  lemma KeepSlidesSnoc(lines: seq<string>, line: string)
    ensures KeepSlides(lines + [line]) == KeepSlides(lines) + ParseLine(line)
  {
    SnocFront(lines, line);
  }

  /** The `for line in slides_text.split('\n')` loop. */
  method ParseSlides(lines: seq<string>) returns (slides: seq<string>)
    ensures slides == KeepSlides(lines)
  {
    slides := [];
    var i := 0;
    while i < |lines|
      invariant 0 <= i <= |lines|
      invariant slides == KeepSlides(lines[..i])
    {
      var line := Strip(lines[i]);
      if line != [] && (IsDigit(line[0]) || line[0] == '\U{2022}') {
        var slideContent := Strip(AfterFirst(line, "."));
        if slideContent != [] {
          slides := slides + [slideContent];
        }
      }
      PrefixNext(lines, i);
      KeepSlidesSnoc(lines[..i], lines[i]);
      i := i + 1;
    }
    PrefixAll(lines);
  }

  /** The reply path: the parsed slides, at most eight. */
  function ReplySlides(reply: string): (slides: seq<string>)
    ensures |slides| <= 8
  {
    Take(KeepSlides(Split(Strip(reply), "\n")), 8)
  }

  /** Every parsed slide is non-empty and trimmed. */
  lemma {:induction false} KeepSlidesTrimmed(lines: seq<string>)
    ensures forall k :: 0 <= k < |KeepSlides(lines)| ==> KeepSlides(lines)[k] != [] && Trimmed(KeepSlides(lines)[k])
  {
    if lines != [] {
      KeepSlidesTrimmed(lines[..|lines| - 1]);
      var t := Strip(lines[|lines| - 1]);
      StripFacts(AfterFirst(t, "."));
    }
  }

  /** The line the model is asked to write for one slide: a digit, ". ", the slide. */
  function NumberedLine(mark: char, slide: string): string {
    [mark] + ". " + slide
  }

  function NumberedLines(marks: seq<char>, slides: seq<string>): (lines: seq<string>)
    requires |marks| == |slides|
    ensures |lines| == |slides|
  {
    if slides == [] then []
    else NumberedLines(marks[..|marks| - 1], slides[..|slides| - 1]) + [NumberedLine(marks[|marks| - 1], slides[|slides| - 1])]
  }

  lemma {:induction false} NumberedLinesAt(marks: seq<char>, slides: seq<string>)
    requires |marks| == |slides|
    ensures forall k :: 0 <= k < |slides| ==> NumberedLines(marks, slides)[k] == NumberedLine(marks[k], slides[k])
  {
    if slides != [] {
      NumberedLinesAt(marks[..|marks| - 1], slides[..|slides| - 1]);
    }
  }

  /** A well-formed slide line parses back to its slide. */
  lemma ParseNumberedLine(mark: char, slide: string)
    requires IsDigit(mark) && slide != [] && Trimmed(slide)
    ensures ParseLine(NumberedLine(mark, slide)) == [slide]
  {
    var line := NumberedLine(mark, slide);
    assert Trimmed(line) by {
      assert line[|line| - 1] == slide[|slide| - 1];
    }
    StripTrimmed(line);
    assert line == [mark] + "." + (" " + slide);
    FirstOccurrence([mark], ".", " " + slide);
    assert AfterFirst(line, ".") == " " + slide;
    StripPadded(" ", slide, "");
    assert " " + slide + "" == " " + slide;
  }

  lemma {:induction false} KeepNumberedLines(marks: seq<char>, slides: seq<string>)
    requires |marks| == |slides|
    requires forall k :: 0 <= k < |slides| ==> IsDigit(marks[k]) && slides[k] != [] && Trimmed(slides[k])
    ensures KeepSlides(NumberedLines(marks, slides)) == slides
  {
    if slides != [] {
      var n := |slides|;
      var init := NumberedLines(marks[..n - 1], slides[..n - 1]);
      var line := NumberedLine(marks[n - 1], slides[n - 1]);
      assert NumberedLines(marks, slides) == init + [line];
      KeepNumberedLines(marks[..n - 1], slides[..n - 1]);
      ParseNumberedLine(marks[n - 1], slides[n - 1]);
      KeepSlidesSnoc(init, line);
      SnocLast(slides);
    }
  }

  /** A slide line starts with its digit and ends where its trimmed slide ends. */
  lemma NumberedLineEnds(mark: char, slide: string)
    requires IsDigit(mark) && slide != [] && Trimmed(slide)
    ensures var line := NumberedLine(mark, slide);
      line != [] && !IsSpace(line[0]) && !IsSpace(line[|line| - 1])
  {
    var line := NumberedLine(mark, slide);
    assert line[0] == mark;
    assert line[|line| - 1] == slide[|slide| - 1];
  }

  lemma NumberedLineNoNewline(mark: char, slide: string)
    requires IsDigit(mark) && !HasChar(slide, '\n')
    ensures !HasChar(NumberedLine(mark, slide), '\n')
  {
    var line := NumberedLine(mark, slide);
    forall i | 0 <= i < |line| ensures line[i] != '\n' {
      if i >= 3 {
        assert line[i] == slide[i - 3];
      }
    }
  }

  /** A reply whose lines carry no newline and whose first and last lines are
      trimmed and non-empty is parsed line by line, as written. */
  lemma {:induction false} ReplyOfLines(lines: seq<string>)
    requires |lines| >= 1
    requires lines[0] != [] && !IsSpace(lines[0][0])
    requires var last := lines[|lines| - 1]; last != [] && !IsSpace(last[|last| - 1])
    requires forall k :: 0 <= k < |lines| ==> !HasChar(lines[k], '\n')
    ensures ReplySlides(Join("\n", lines)) == Take(KeepSlides(lines), 8)
  {
    var reply := Join("\n", lines);
    JoinTrimmed("\n", lines);
    StripTrimmed(reply);
    SplitJoin("\n", lines);
  }

  /** A reply of numbered lines, one per slide and separated by newlines, parses
      back to the slides (at most eight of them). */
  lemma {:induction false} ReplySlidesOfList(marks: seq<char>, slides: seq<string>)
    requires |marks| == |slides|
    requires forall k :: 0 <= k < |slides| ==>
      IsDigit(marks[k]) && slides[k] != [] && Trimmed(slides[k]) && !HasChar(slides[k], '\n')
    ensures ReplySlides(Join("\n", NumberedLines(marks, slides))) == Take(slides, 8)
  {
    var lines := NumberedLines(marks, slides);
    KeepNumberedLines(marks, slides);
    if slides == [] {
      assert Join("\n", lines) == "";
      StripFacts("");
      assert Split("", "\n") == [""];
    } else {
      var n := |slides|;
      NumberedLinesAt(marks, slides);
      NumberedLineEnds(marks[0], slides[0]);
      NumberedLineEnds(marks[n - 1], slides[n - 1]);
      assert lines[0] == NumberedLine(marks[0], slides[0]);
      assert lines[n - 1] == NumberedLine(marks[n - 1], slides[n - 1]);
      forall k | 0 <= k < |lines| ensures !HasChar(lines[k], '\n') {
        NumberedLineNoNewline(marks[k], slides[k]);
      }
      ReplyOfLines(lines);
    }
  }

  // ---------------------------------------------------------------------
  // the error path and the whole operation

  /** When the model call raises: the first five sentences. */
  function ErrorSlides(content: string): (slides: seq<string>)
    ensures |slides| <= 5
  {
    Take(Split(content, ". "), 5)
  }

  /** The error slides hold no ". ", and when the post has at most five
      sentences, joining them with ". " gives the post back. */
  lemma ErrorSlidesFacts(content: string)
    ensures forall k :: 0 <= k < |ErrorSlides(content)| ==> !Contains(ErrorSlides(content)[k], ". ")
    ensures |Split(content, ". ")| <= 5 ==> Join(". ", ErrorSlides(content)) == content
  {
    SplitPiecesFree(content, ". ");
    JoinSplit(content, ". ");
  }

  /** `generate_carousel_slides` as a function of the key's presence and the model's reply. */
  function CarouselSlides(content: string, hasKey: bool, reply: AiReply): seq<string> {
    if !hasKey then FallbackSlides(content)
    else match reply
      case Failed => ErrorSlides(content)
      case Reply(text) => ReplySlides(text)
  }

  method GenerateCarouselSlides(content: string, hasKey: bool, reply: AiReply) returns (slides: seq<string>)
    ensures slides == CarouselSlides(content, hasKey, reply)
    ensures |slides| <= 10
  {
    if !hasKey {
      slides := SplitIntoSlides(content);
      return;
    }
    match reply
    case Failed =>
      slides := Take(Split(content, ". "), 5);
    case Reply(text) =>
      var parsed := ParseSlides(Split(Strip(text), "\n"));
      slides := Take(parsed, 8);
  }
}
