/** The string primitives of Python's `str` and JavaScript's `String` that the
    content generator and its front end rely on, stated over ASCII.  The
    functions carry only cheap facts; what they mean is stated by the lemmas
    beside them, which callers invoke where they need it. */
module PyText {
  import opened Wrappers

  /** The ASCII whitespace that Python's `str.strip()` and `str.split()` remove:
      space, tab, line feed, carriage return, vertical tab, form feed, and the
      four information separators U+001C to U+001F. */
  predicate IsSpace(c: char) {
    c == ' ' || c == '\t' || c == '\n' || c == '\r' || c == '\U{B}' || c == '\U{C}' ||
    ('\U{1C}' <= c <= '\U{1F}')
  }

  /** The ASCII whitespace that JavaScript's `String.prototype.trim()` removes:
      the six of Python's without the information separators. */
  predicate IsJsSpace(c: char) {
    c == ' ' || c == '\t' || c == '\n' || c == '\r' || c == '\U{B}' || c == '\U{C}'
  }

  /** Nothing but JavaScript whitespace. */
  predicate JsBlank(s: string) {
    forall i :: 0 <= i < |s| ==> IsJsSpace(s[i])
  }

  predicate AllSpace(s: string) {
    forall i :: 0 <= i < |s| ==> IsSpace(s[i])
  }

  predicate NoSpace(s: string) {
    forall i :: 0 <= i < |s| ==> !IsSpace(s[i])
  }

  /** No whitespace at either end: what `strip()` leaves behind. */
  predicate Trimmed(s: string) {
    s == [] || (!IsSpace(s[0]) && !IsSpace(s[|s| - 1]))
  }

  predicate IsDigit(c: char) {
    '0' <= c <= '9'
  }

  /** `c in s` / `s.includes(c)` for one character. */
  predicate HasChar(s: string, c: char) {
    exists i :: 0 <= i < |s| && s[i] == c
  }

  // ---------------------------------------------------------------------
  // strip / trim

  /** `lstrip()`: drop the leading whitespace. */
  function StripStart(s: string): string {
    if s != [] && IsSpace(s[0]) then StripStart(s[1..]) else s
  }

  /** `rstrip()`: drop the trailing whitespace. */
  function StripEnd(s: string): string {
    if s != [] && IsSpace(s[|s| - 1]) then StripEnd(s[..|s| - 1]) else s
  }

  /** Python's `str.strip()`. */
  function Strip(s: string): string {
    StripEnd(StripStart(s))
  }

  /** `lstrip()` removes a whitespace prefix and stops at the first other character. */
  lemma {:induction false} StripStartFacts(s: string)
    ensures var r := StripStart(s);
      |r| <= |s| && r == s[|s| - |r|..] && AllSpace(s[..|s| - |r|]) &&
      (r == [] || !IsSpace(r[0]))
  {
    if s != [] && IsSpace(s[0]) {
      StripStartFacts(s[1..]);
      var r := StripStart(s[1..]);
      assert s[..|s| - |r|] == [s[0]] + s[1..][..|s| - 1 - |r|];
    } else {
      assert s[..0] == [];
    }
  }

  /** `rstrip()` removes a whitespace suffix and stops at the last other character. */
  lemma {:induction false} StripEndFacts(s: string)
    ensures var r := StripEnd(s);
      |r| <= |s| && r == s[..|r|] && AllSpace(s[|r|..]) &&
      (r == [] || !IsSpace(r[|r| - 1]))
  {
    if s != [] && IsSpace(s[|s| - 1]) {
      StripEndFacts(s[..|s| - 1]);
      var r := StripEnd(s[..|s| - 1]);
      assert s[|r|..] == s[..|s| - 1][|r|..] + [s[|s| - 1]];
    } else {
      assert s[|s|..] == [];
    }
  }

  /** `lstrip()` removes everything exactly when everything is whitespace. */
  lemma StripStartEmpty(s: string)
    ensures StripStart(s) == [] <==> AllSpace(s)
  {
    StripStartFacts(s);
    var t := StripStart(s);
    if t == [] {
      assert s[..|s|] == s;
    } else {
      assert t[0] == s[|s| - |t|];
    }
  }

  /** `strip()` leaves a trimmed string that is empty exactly when the input was all whitespace. */
  lemma StripFacts(s: string)
    ensures Trimmed(Strip(s)) && |Strip(s)| <= |s|
    ensures Strip(s) == [] <==> AllSpace(s)
  {
    var t := StripStart(s);
    var r := StripEnd(t);
    StripStartFacts(s);
    StripEndFacts(t);
    StripStartEmpty(s);
    assert r != [] ==> r[0] == t[0];
    if r == [] {
      assert t[0..] == t;
    }
  }
  /** JavaScript's `String.prototype.trimStart()`. */
  function TrimStart(s: string): string {
    if s != [] && IsJsSpace(s[0]) then TrimStart(s[1..]) else s
  }

  /** JavaScript's `String.prototype.trimEnd()`. */
  function TrimEnd(s: string): string {
    if s != [] && IsJsSpace(s[|s| - 1]) then TrimEnd(s[..|s| - 1]) else s
  }

  /** JavaScript's `String.prototype.trim()`. */
  function Trim(s: string): string {
    TrimEnd(TrimStart(s))
  }

  /** `trimStart()` empties exactly the blank strings, and otherwise stops at a
      character that is not whitespace. */
  lemma {:induction false} TrimStartFacts(s: string)
    ensures TrimStart(s) == [] <==> JsBlank(s)
    ensures TrimStart(s) != [] ==> !IsJsSpace(TrimStart(s)[0])
  {
    if s != [] && IsJsSpace(s[0]) {
      TrimStartFacts(s[1..]);
      assert JsBlank(s) <==> JsBlank(s[1..]) by {
        if JsBlank(s[1..]) {
          forall i | 0 <= i < |s| ensures IsJsSpace(s[i]) {
            if i > 0 { assert s[i] == s[1..][i - 1]; }
          }
        }
      }
    }
  }

  /** `trimEnd()` never removes a first character that is not whitespace. */
  lemma {:induction false} TrimEndKeepsHead(t: string)
    requires t != [] && !IsJsSpace(t[0])
    ensures TrimEnd(t) != []
  {
    if IsJsSpace(t[|t| - 1]) {
      var u := t[..|t| - 1];
      assert u != [] && u[0] == t[0];
      TrimEndKeepsHead(u);
    }
  }

  /** `trim()` returns the empty string exactly for blank input. */
  lemma TrimEmptyIff(s: string)
    ensures Trim(s) == [] <==> JsBlank(s)
  {
    TrimStartFacts(s);
    if TrimStart(s) != [] {
      TrimEndKeepsHead(TrimStart(s));
    }
  }


  /** Whitespace on either side of a trimmed string is exactly what `strip()` removes. */
  lemma {:induction false} StripPadded(a: string, t: string, b: string)
    requires AllSpace(a) && AllSpace(b) && Trimmed(t)
    ensures Strip(a + t + b) == t
  {
    if t == [] {
      assert AllSpace(a + t + b) by {
        forall i | 0 <= i < |a + t + b| ensures IsSpace((a + t + b)[i]) {
          if i < |a| { assert (a + t + b)[i] == a[i]; } else { assert (a + t + b)[i] == b[i - |a|]; }
        }
      }
      StripFacts(a + t + b);
    } else {
      StripStartPadded(a, t + b);
      assert a + t + b == a + (t + b);
      StripEndPadded(t, b);
    }
  }

  lemma {:induction false} StripStartPadded(a: string, u: string)
    requires AllSpace(a) && (u == [] || !IsSpace(u[0]))
    ensures StripStart(a + u) == u
    decreases |a|
  {
    if a != [] {
      assert (a + u)[1..] == a[1..] + u;
      StripStartPadded(a[1..], u);
    } else {
      assert a + u == u;
    }
  }

  lemma {:induction false} StripEndPadded(t: string, b: string)
    requires AllSpace(b) && t != [] && !IsSpace(t[|t| - 1])
    ensures StripEnd(t + b) == t
    decreases |b|
  {
    if b != [] {
      assert (t + b)[..|t + b| - 1] == t + b[..|b| - 1];
      StripEndPadded(t, b[..|b| - 1]);
    } else {
      assert t + b == t;
    }
  }

  /** `strip()` leaves a trimmed string alone; in particular it is idempotent. */
  lemma StripTrimmed(t: string)
    requires Trimmed(t)
    ensures Strip(t) == t
  {
    StripPadded([], t, []);
    assert [] + t + [] == t;
  }

  // ---------------------------------------------------------------------
  // case mapping

  function LowerChar(c: char): char {
    if 'A' <= c <= 'Z' then (c as int + 32) as char else c
  }

  function UpperChar(c: char): char {
    if 'a' <= c <= 'z' then (c as int - 32) as char else c
  }

  predicate IsLowerCase(s: string) {
    forall i :: 0 <= i < |s| ==> !('A' <= s[i] <= 'Z')
  }

  /** `str.lower()` over ASCII. */
  function Lower(s: string): (r: string)
    ensures |r| == |s|
  {
    if s == [] then [] else [LowerChar(s[0])] + Lower(s[1..])
  }

  /** `lower()` replaces each upper-case letter by its lower-case partner and keeps
      everything else, position by position; the result has no upper-case letter. */
  lemma {:induction false} LowerAt(s: string)
    ensures forall i :: 0 <= i < |s| ==> Lower(s)[i] == LowerChar(s[i])
    ensures IsLowerCase(Lower(s))
  {
    if s != [] {
      LowerAt(s[1..]);
      assert Lower(s) == [LowerChar(s[0])] + Lower(s[1..]);
    }
  }

  /** Lower-casing keeps whitespace where it was, so it cannot untrim a string. */
  lemma LowerKeepsTrimmed(s: string)
    requires Trimmed(s)
    ensures Trimmed(Lower(s))
  {
    LowerAt(s);
  }

  /** A lower-case string is its own `lower()`. */
  lemma LowerOfLowerCase(s: string)
    requires IsLowerCase(s)
    ensures Lower(s) == s
  {
    LowerAt(s);
  }

  /** Lower-casing neither introduces nor removes a space. */
  lemma LowerKeepsSpaces(s: string)
    ensures HasChar(Lower(s), ' ') <==> HasChar(s, ' ')
  {
    LowerAt(s);
    if HasChar(Lower(s), ' ') {
      var i :| 0 <= i < |s| && Lower(s)[i] == ' ';
      assert s[i] == ' ';
    }
    if HasChar(s, ' ') {
      var i :| 0 <= i < |s| && s[i] == ' ';
      assert Lower(s)[i] == ' ';
    }
  }

  /** `str.capitalize()` over ASCII: the first character upper-cased, the rest lower-cased. */
  function Capitalize(s: string): (r: string)
    ensures |r| == |s|
  {
    if s == [] then [] else [UpperChar(s[0])] + Lower(s[1..])
  }

  /** Capitalising keeps whitespace where it was. */
  lemma CapitalizeKeepsNoSpace(s: string)
    requires NoSpace(s)
    ensures NoSpace(Capitalize(s))
  {
    if s != [] {
      LowerAt(s[1..]);
      assert forall i :: 1 <= i < |s| ==> Capitalize(s)[i] == LowerChar(s[1..][i - 1]);
    }
  }

  // ---------------------------------------------------------------------
  // split(), split(sep), join, replace

  /** The longest prefix of `s` that holds no whitespace. */
  function WordPrefix(s: string): (w: string)
    ensures |w| <= |s|
  {
    if s == [] || IsSpace(s[0]) then [] else [s[0]] + WordPrefix(s[1..])
  }

  lemma {:induction false} WordPrefixFacts(s: string)
    ensures var w := WordPrefix(s);
      w == s[..|w|] && NoSpace(w) && (|w| == |s| || IsSpace(s[|w|]))
  {
    if !(s == [] || IsSpace(s[0])) {
      WordPrefixFacts(s[1..]);
    }
  }

  /** Python's `str.split()` with no separator. */
  function Words(s: string): seq<string>
    decreases |s|
  {
    if s == [] then []
    else if IsSpace(s[0]) then Words(s[1..])
    else
      var w := WordPrefix(s);
      WordPrefixFacts(s);
      [w] + Words(s[|w|..])
  }

  /** `split()` yields the maximal runs of non-whitespace: each word is non-empty and
      holds no whitespace, and there are none exactly when the input is all whitespace. */
  lemma {:induction false} WordsFacts(s: string)
    ensures forall i :: 0 <= i < |Words(s)| ==> Words(s)[i] != [] && NoSpace(Words(s)[i])
    ensures Words(s) == [] <==> AllSpace(s)
    decreases |s|
  {
    if s == [] {
    } else if IsSpace(s[0]) {
      WordsFacts(s[1..]);
      assert forall i :: 1 <= i < |s| ==> s[i] == s[1..][i - 1];
    } else {
      var w := WordPrefix(s);
      WordPrefixFacts(s);
      WordsFacts(s[|w|..]);
      assert w[0] == s[0];
      var ws := Words(s);
      assert ws == [w] + Words(s[|w|..]);
      assert forall i :: 1 <= i < |ws| ==> ws[i] == Words(s[|w|..])[i - 1];
    }
  }

  /** `sep` occurs in `s` starting at index `k`. */
  predicate OccursAt(s: string, sep: string, k: nat) {
    k + |sep| <= |s| && s[k..k + |sep|] == sep
  }

  ghost predicate Contains(s: string, sep: string) {
    exists k: nat :: OccursAt(s, sep, k)
  }

  /** The first occurrence of `sep` in `s` at or after `from`, as `str.find` reports it. */
  function FindFrom(s: string, sep: string, from: nat): (r: Option<nat>)
    requires from <= |s|
    ensures r.Some? ==> from <= r.value && OccursAt(s, sep, r.value)
    decreases |s| - from
  {
    if from + |sep| > |s| then None
    else if s[from..from + |sep|] == sep then Some(from)
    else FindFrom(s, sep, from + 1)
  }

  /** `FindFrom` reports the leftmost occurrence: there is none before it. */
  lemma {:induction false} FindFromFirst(s: string, sep: string, from: nat)
    requires from <= |s|
    ensures var r := FindFrom(s, sep, from);
      forall k: nat :: from <= k && (r.None? || k < r.value) ==> !OccursAt(s, sep, k)
    decreases |s| - from
  {
    if from + |sep| <= |s| && s[from..from + |sep|] != sep {
      FindFromFirst(s, sep, from + 1);
    }
  }

  /** Python's `s.split(sep)` for a non-empty separator: the pieces between the
      successive leftmost, non-overlapping occurrences of `sep`. */
  function Split(s: string, sep: string): (parts: seq<string>)
    requires sep != []
    ensures |parts| >= 1
    decreases |s|
  {
    match FindFrom(s, sep, 0)
    case None => [s]
    case Some(i) => [s[..i]] + Split(s[i + |sep|..], sep)
  }

  /** One step of `Split`: the piece before the first separator, then the split of the rest. */
  lemma {:induction false} SplitStep(s: string, sep: string, i: nat)
    requires sep != [] && FindFrom(s, sep, 0) == Some(i)
    ensures i + |sep| <= |s|
    ensures Split(s, sep) == [s[..i]] + Split(s[i + |sep|..], sep)
  {
    assert OccursAt(s, sep, i);
    var rest := s[i + |sep|..];
    var parts := Split(s, sep);
    assert parts == [s[..i]] + Split(rest, sep);
  }

  /** No piece of a split holds the separator. */
  lemma {:induction false} SplitPiecesFree(s: string, sep: string)
    requires sep != []
    ensures forall i :: 0 <= i < |Split(s, sep)| ==> !Contains(Split(s, sep)[i], sep)
    decreases |s|
  {
    match FindFrom(s, sep, 0)
    case None =>
      BeforeFirstFree(s, sep, |s|);
      assert s[..|s|] == s;
    case Some(i) =>
      BeforeFirstFree(s, sep, i);
      var rest := s[i + |sep|..];
      SplitPiecesFree(rest, sep);
      SplitStep(s, sep, i);
      ConsFree(s[..i], Split(rest, sep), sep);
  }

  /** What comes before the first occurrence (or all of `s`, when there is none)
      does not hold the separator. */
  lemma BeforeFirstFree(s: string, sep: string, i: nat)
    requires sep != [] && i <= |s|
    requires FindFrom(s, sep, 0) == (if i == |s| then None else Some(i))
    ensures !Contains(s[..i], sep)
  {
    FindFromFirst(s, sep, 0);
    var head := s[..i];
    forall k: nat | OccursAt(head, sep, k) ensures false {
      assert s[k..k + |sep|] == head[k..k + |sep|];
      assert OccursAt(s, sep, k);
    }
  }

  lemma ConsFree(head: string, parts: seq<string>, sep: string)
    requires !Contains(head, sep)
    requires forall i :: 0 <= i < |parts| ==> !Contains(parts[i], sep)
    ensures forall i :: 0 <= i < |[head] + parts| ==> !Contains(([head] + parts)[i], sep)
  {
    forall i | 0 <= i < |[head] + parts| ensures !Contains(([head] + parts)[i], sep) {
      if i > 0 {
        assert ([head] + parts)[i] == parts[i - 1];
      }
    }
  }

  /** JavaScript's `parts.join(sep)` (Python's `sep.join(parts)`). */
  function Join(sep: string, parts: seq<string>): string {
    if parts == [] then ""
    else if |parts| == 1 then parts[0]
    else parts[0] + sep + Join(sep, parts[1..])
  }

  lemma JoinCons(sep: string, head: string, parts: seq<string>)
    requires |parts| >= 1
    ensures Join(sep, [head] + parts) == head + sep + Join(sep, parts)
  {
    assert ([head] + parts)[1..] == parts;
  }

  /** Joining the pieces of a split with the same separator gives back the original. */
  lemma {:induction false} JoinSplit(s: string, sep: string)
    requires sep != []
    ensures Join(sep, Split(s, sep)) == s
    decreases |s|
  {
    match FindFrom(s, sep, 0)
    case None =>
    case Some(i) =>
      SplitStep(s, sep, i);
      var rest := s[i + |sep|..];
      var parts := Split(rest, sep);
      JoinSplit(rest, sep);
      JoinCons(sep, s[..i], parts);
      assert s == s[..i] + sep + rest;
  }

  /** When no piece holds the separator's first character, splitting the joined
      string recovers the pieces exactly. */
  lemma {:induction false} SplitJoin(sep: string, parts: seq<string>)
    requires sep != [] && |parts| >= 1
    requires forall i :: 0 <= i < |parts| ==> !HasChar(parts[i], sep[0])
    ensures Split(Join(sep, parts), sep) == parts
  {
    var s := Join(sep, parts);
    if |parts| == 1 {
      NoOccurrence(s, sep);
      assert parts == [s];
    } else {
      var p := parts[0];
      var rest := Join(sep, parts[1..]);
      assert s == p + sep + rest;
      FirstOccurrence(p, sep, rest);
      assert s[..|p|] == p;
      assert s[|p| + |sep|..] == rest;
      assert Split(s, sep) == [p] + Split(rest, sep);
      SplitJoin(sep, parts[1..]);
      assert parts == [p] + parts[1..];
    }
  }

  lemma NoOccurrence(s: string, sep: string)
    requires sep != [] && !HasChar(s, sep[0])
    ensures FindFrom(s, sep, 0) == None
  {
    match FindFrom(s, sep, 0)
    case None =>
    case Some(k) =>
  }

  lemma FirstOccurrence(p: string, sep: string, rest: string)
    requires sep != [] && !HasChar(p, sep[0])
    ensures FindFrom(p + sep + rest, sep, 0) == Some(|p|)
  {
    var s := p + sep + rest;
    assert OccursAt(s, sep, |p|) by {
      assert s[|p|..|p| + |sep|] == sep;
    }
    FindFromFirst(s, sep, 0);
    match FindFrom(s, sep, 0)
    case None =>
    case Some(k) =>
  }

  /** A joined string begins with the first piece and ends with the last one. */
  lemma {:induction false} JoinEnds(sep: string, parts: seq<string>)
    requires |parts| >= 1
    ensures var s := Join(sep, parts); var last := parts[|parts| - 1];
      |parts[0]| <= |s| && s[..|parts[0]|] == parts[0] &&
      |last| <= |s| && s[|s| - |last|..] == last
  {
    if |parts| > 1 {
      JoinEnds(sep, parts[1..]);
      var s := Join(sep, parts);
      assert s == parts[0] + sep + Join(sep, parts[1..]);
      assert parts[1..][|parts[1..]| - 1] == parts[|parts| - 1];
    }
  }

  /** Joining pieces whose outer ends are not whitespace gives a trimmed string. */
  lemma JoinTrimmed(sep: string, parts: seq<string>)
    requires |parts| >= 1
    requires parts[0] != [] && !IsSpace(parts[0][0])
    requires var last := parts[|parts| - 1]; last != [] && !IsSpace(last[|last| - 1])
    ensures Trimmed(Join(sep, parts))
  {
    JoinEnds(sep, parts);
    var s := Join(sep, parts);
    var last := parts[|parts| - 1];
    assert s[0] == s[..|parts[0]|][0];
    assert s[|s| - 1] == s[|s| - |last|..][|last| - 1];
  }

  /** Python's `s.split(sep, 1)[-1]`: what follows the first `sep`, or all of `s`. */
  function AfterFirst(s: string, sep: string): string {
    match FindFrom(s, sep, 0)
    case None => s
    case Some(i) => s[i + |sep|..]
  }

  /** `s.replace(' ', '')`. */
  function RemoveSpaces(s: string): (r: string)
    ensures |r| <= |s|
  {
    if s == [] then []
    else (if s[0] == ' ' then [] else [s[0]]) + RemoveSpaces(s[1..])
  }

  /** `replace(' ', '')` leaves no space behind and keeps a string without spaces as it is. */
  lemma {:induction false} RemoveSpacesFacts(s: string)
    ensures !HasChar(RemoveSpaces(s), ' ')
    ensures !HasChar(s, ' ') ==> RemoveSpaces(s) == s
  {
    if s != [] {
      RemoveSpacesFacts(s[1..]);
      var head: string := if s[0] == ' ' then [] else [s[0]];
      var r := RemoveSpaces(s);
      assert r == head + RemoveSpaces(s[1..]);
      assert forall i :: |head| <= i < |r| ==> r[i] == RemoveSpaces(s[1..])[i - |head|];
      if !HasChar(s, ' ') {
        assert !HasChar(s[1..], ' ') by {
          forall i | 0 <= i < |s[1..]| ensures s[1..][i] != ' ' {
            assert s[1..][i] == s[i + 1];
          }
        }
        assert s == [s[0]] + s[1..];
      }
    }
  }

  // ---------------------------------------------------------------------
  // sequence identities, proved once for every element type

  lemma SnocFront<T>(xs: seq<T>, x: T)
    ensures (xs + [x])[..|xs|] == xs && (xs + [x])[|xs|] == x
  {
  }

  lemma SnocLast<T>(xs: seq<T>)
    requires xs != []
    ensures xs == xs[..|xs| - 1] + [xs[|xs| - 1]]
  {
  }

  lemma PrefixNext<T>(xs: seq<T>, i: int)
    requires 0 <= i < |xs|
    ensures xs[..i + 1] == xs[..i] + [xs[i]]
  {
  }

  lemma PrefixAll<T>(xs: seq<T>)
    ensures xs[..|xs|] == xs
  {
  }

  /** Python's slice `xs[:n]`. */
  function Take<T>(xs: seq<T>, n: nat): (r: seq<T>)
    ensures |r| == if |xs| <= n then |xs| else n
    ensures r == xs[..|r|]
  {
    if |xs| <= n then xs else xs[..n]
  }

  /** The decimal text of a count, as `String(n)` or template interpolation writes it. */
  function DecimalText(n: nat): (t: string)
    decreases n
  {
    if n < 10 then [('0' as int + n) as char] else DecimalText(n / 10) + [('0' as int + n % 10) as char]
  }

  /** The count a string of digits denotes. */
  function DecimalValue(t: string): nat {
    if t == [] then 0
    else DecimalValue(t[..|t| - 1]) * 10 + (if IsDigit(t[|t| - 1]) then t[|t| - 1] as int - '0' as int else 0)
  }

  /** The decimal text is made of digits, has no leading zero, and denotes the count. */
  lemma {:induction false} DecimalRoundTrip(n: nat)
    ensures var t := DecimalText(n); t != [] && (forall i :: 0 <= i < |t| ==> IsDigit(t[i]))
    ensures DecimalText(n)[0] == '0' ==> n == 0
    ensures DecimalValue(DecimalText(n)) == n
    decreases n
  {
    if n >= 10 {
      DecimalRoundTrip(n / 10);
      var t := DecimalText(n);
      assert t[..|t| - 1] == DecimalText(n / 10);
    }
  }
}
