/**
 * The article viewer of the frontend: every visible text node is split into
 * whitespace runs and words, each word wrapped in a `span.word`; a click on a
 * word marks the whole sentence around it with one `mark.notare-mark`.
 * The document is abstracted to the text nodes in tree order (for the
 * tokenizer) and, per block element, to the texts of its word spans and
 * whether each span lies inside a mark (for the click).
 */
module ArticleViewer {
  import opened Wrappers
  import opened Strings

  /** JavaScript's `\s` (WhiteSpace and LineTerminator), also what `trim()` removes. */
  predicate IsSpace(c: char)
  {
    var n := c as int;
    (0x09 <= n <= 0x0D) || n == 0x20 || n == 0xA0 || n == 0x1680 || (0x2000 <= n <= 0x200A)
    || n == 0x2028 || n == 0x2029 || n == 0x202F || n == 0x205F || n == 0x3000 || n == 0xFEFF
  }

  predicate AllSpace(p: string)
  {
    forall i :: 0 <= i < |p| ==> IsSpace(p[i])
  }

  predicate NoSpace(p: string)
  {
    forall i :: 0 <= i < |p| ==> !IsSpace(p[i])
  }

  /** The text has a character that is not whitespace. */
  predicate HasText(s: string)
  {
    !AllSpace(s)
  }

  /** `s.trim()` is truthy (non-empty) exactly when the text has a non-whitespace character. */
  lemma TrimTruthyIffHasText(s: string)
    ensures Trim(s, IsSpace) != [] <==> HasText(s)
  {
    TrimEmptyIffAllDropped(s, IsSpace);
  }

  // ---------------------------------------------------------------------------
  // Tokenizer
  // ---------------------------------------------------------------------------

  /** The parts joined back together. */
  function Concat(parts: seq<string>): string
  {
    if parts == [] then [] else parts[0] + Concat(parts[1..])
  }

  lemma ConcatCons(a: string, rest: seq<string>)
    ensures Concat([a] + rest) == a + Concat(rest)
  {
    assert ([a] + rest)[1..] == rest;
  }

  /**
   * The shape of what `split(/(\s+)/)` returns: an odd number of parts that
   * alternate between text without whitespace (even positions; only the first
   * and the last may be empty) and non-empty whitespace runs (odd positions).
   */
  ghost predicate Alternating(parts: seq<string>)
  {
    && |parts| % 2 == 1
    && (forall i :: 0 <= i < |parts| && i % 2 == 0 ==> NoSpace(parts[i]))
    && (forall i :: 0 <= i < |parts| && i % 2 == 1 ==> parts[i] != [] && AllSpace(parts[i]))
    && (forall i :: 0 < i < |parts| - 1 && i % 2 == 0 ==> parts[i] != [])
  }

  lemma ExtendRun(c: char, rest: seq<string>)
    requires IsSpace(c) && Alternating(rest) && |rest| > 1 && rest[0] == ""
    ensures Alternating(["", [c] + rest[1]] + rest[2..])
  {
    var parts := ["", [c] + rest[1]] + rest[2..];
    assert |parts| == |rest|;
    assert forall i :: 1 < i < |parts| ==> parts[i] == rest[i];
    assert AllSpace(rest[1]);
  }

  lemma AppendAssoc(a: string, b: string, c: string)
    ensures (a + b) + c == a + (b + c)
  {
  }

  lemma ConcatCons2(x: string, y: string, rest: seq<string>)
    ensures Concat([x, y] + rest) == x + y + Concat(rest)
  {
    ConcatCons(y, rest);
    assert [x, y] + rest == [x] + ([y] + rest);
    ConcatCons(x, [y] + rest);
    AppendAssoc(x, y, Concat(rest));
  }

  lemma ExtendRunConcat(c: char, run: string, tail: seq<string>)
    ensures Concat(["", [c] + run] + tail) == [c] + Concat(["", run] + tail)
  {
    ConcatCons2("", [c] + run, tail);
    ConcatCons2("", run, tail);
    assert "" + ([c] + run) == [c] + run && "" + run == run;
    AppendAssoc([c], run, Concat(tail));
  }

  lemma SplitOffTwo(parts: seq<string>)
    requires |parts| > 1
    ensures parts == [parts[0], parts[1]] + parts[2..]
  {
  }

  lemma StartRun(c: char, rest: seq<string>)
    requires IsSpace(c) && Alternating(rest) && (rest[0] != "" || |rest| == 1)
    ensures Alternating(["", [c]] + rest)
  {
    var parts := ["", [c]] + rest;
    assert forall i :: 1 < i < |parts| ==> parts[i] == rest[i - 2];
    assert forall i :: 1 < i < |parts| ==> (i % 2 == 0 <==> (i - 2) % 2 == 0);
  }

  lemma StartRunConcat(c: char, rest: seq<string>)
    ensures Concat(["", [c]] + rest) == [c] + Concat(rest)
  {
    ConcatCons2("", [c], rest);
  }

  lemma ExtendWord(c: char, rest: seq<string>)
    requires !IsSpace(c) && Alternating(rest)
    ensures Alternating([[c] + rest[0]] + rest[1..])
  {
    var parts := [[c] + rest[0]] + rest[1..];
    assert forall i :: 0 < i < |parts| ==> parts[i] == rest[i];
    assert NoSpace(rest[0]);
  }

  lemma ExtendWordConcat(c: char, rest: seq<string>)
    requires rest != []
    ensures Concat([[c] + rest[0]] + rest[1..]) == [c] + Concat(rest)
  {
    var word, tail := rest[0], rest[1..];
    assert rest == [word] + tail;
    ConcatCons(word, tail);
    ConcatCons([c] + word, tail);
    AppendAssoc([c], word, Concat(tail));
  }

  /** `s.split(/(\s+)/)`: alternating parts that join back to `s`. */
  function Split(s: string): (parts: seq<string>)
    ensures Alternating(parts)
    ensures Concat(parts) == s
    decreases |s|
  {
    if s == [] then [""]
    else
      var rest := Split(s[1..]);
      var c := s[0];
      assert s == [c] + s[1..];
      if IsSpace(c) then
        if rest[0] == "" && |rest| > 1 then
          ExtendRun(c, rest);
          SplitOffTwo(rest);
          ExtendRunConcat(c, rest[1], rest[2..]);
          ["", [c] + rest[1]] + rest[2..]
        else
          StartRun(c, rest);
          StartRunConcat(c, rest);
          ["", [c]] + rest
      else
        ExtendWord(c, rest);
        ExtendWordConcat(c, rest);
        [[c] + rest[0]] + rest[1..]
  }

  /** What one part becomes: a plain text node or a `span.word`. */
  datatype Piece = PlainText(text: string) | WordSpan(text: string)

  /** `/^\s+$/.test(p)`: the part is a non-empty whitespace run. */
  predicate IsWhitespaceRun(p: string)
  {
    p != [] && AllSpace(p)
  }

  function Classify(p: string): Piece
  {
    if IsWhitespaceRun(p) then PlainText(p) else WordSpan(p)
  }

  function ClassifyAll(parts: seq<string>): seq<Piece>
  {
    if parts == [] then [] else [Classify(parts[0])] + ClassifyAll(parts[1..])
  }

  /** The text of a fragment: its pieces' texts in order. */
  function TextOf(pieces: seq<Piece>): string
  {
    if pieces == [] then [] else pieces[0].text + TextOf(pieces[1..])
  }

  lemma {:induction false} ClassifyAllKeepsText(parts: seq<string>)
    ensures TextOf(ClassifyAll(parts)) == Concat(parts)
    ensures |ClassifyAll(parts)| == |parts|
    ensures forall i :: 0 <= i < |parts| ==> ClassifyAll(parts)[i] == Classify(parts[i])
  {
    if parts != [] {
      ClassifyAllKeepsText(parts[1..]);
      assert ClassifyAll(parts)[1..] == ClassifyAll(parts[1..]);
    }
  }

  /**
   * The fragment that replaces a text node: whitespace runs stay text
   * nodes and every other part, empty edge parts included, becomes a word
   * span; the word spans are exactly the even positions.
   */
  function Tokenize(s: string): (pieces: seq<Piece>)
    ensures |pieces| % 2 == 1
    ensures forall i :: 0 <= i < |pieces| ==> (pieces[i].WordSpan? <==> i % 2 == 0)
    ensures forall i :: 0 <= i < |pieces| && pieces[i].WordSpan? ==> NoSpace(pieces[i].text)
    ensures forall i :: 0 <= i < |pieces| && pieces[i].PlainText? ==> IsWhitespaceRun(pieces[i].text)
  {
    var parts := Split(s);
    ClassifyAllKeepsText(parts);
    assert forall i :: 0 <= i < |parts| && i % 2 == 0 && parts[i] != [] ==> !IsSpace(parts[i][0]);
    ClassifyAll(parts)
  }

  /** Wrapping words never changes the text: the fragment reads exactly as the text node did. */
  lemma TokenizeKeepsText(s: string)
    ensures TextOf(Tokenize(s)) == s
  {
    ClassifyAllKeepsText(Split(s));
  }

  // ---------------------------------------------------------------------------
  // Which text nodes are tokenized
  // ---------------------------------------------------------------------------

  /** A text node met by the tree walker: the tag name of its parent element, if any, and its text. */
  datatype DomText = DomText(parentTag: Option<string>, content: string)

  const SkippedParents: seq<string> := ["SCRIPT", "STYLE", "MARK"]

  /**
   * A text node is tokenized unless its parent is SCRIPT, STYLE or MARK, or
   * its text is only whitespace, that is, its trimmed text is empty.
   */
  predicate Tokenizable(n: DomText)
    ensures Tokenizable(n) <==>
              && !(n.parentTag.Some? && n.parentTag.value in ["SCRIPT", "STYLE", "MARK"])
              && Trim(n.content, IsSpace) != []
  {
    TrimTruthyIffHasText(n.content);
    && !(n.parentTag.Some? && n.parentTag.value in SkippedParents)
    && HasText(n.content)
  }

  /** The text nodes of `walk` that are tokenized, in document order. */
  function TokenizableNodes(walk: seq<DomText>): seq<DomText>
  {
    if walk == [] then []
    else TokenizableNodes(walk[..|walk| - 1]) + (if Tokenizable(walk[|walk| - 1]) then [walk[|walk| - 1]] else [])
  }

  /** A node is kept exactly when it occurs in the walk and is tokenizable. */
  lemma {:induction false} TokenizableNodesMembers(walk: seq<DomText>, n: DomText)
    ensures n in TokenizableNodes(walk) <==> n in walk && Tokenizable(n)
  {
    if walk != [] {
      var init := walk[..|walk| - 1];
      TokenizableNodesMembers(init, n);
      assert walk == init + [walk[|walk| - 1]];
    }
  }

  /** The tree walk of the effect: collects the text nodes to tokenize. */
  method CollectTextNodes(walk: seq<DomText>) returns (textNodes: seq<DomText>)
    ensures textNodes == TokenizableNodes(walk)
    ensures forall n :: n in textNodes <==> n in walk && Tokenizable(n)
  {
    textNodes := [];
    var i := 0;
    while i < |walk|
      invariant 0 <= i <= |walk|
      invariant textNodes == TokenizableNodes(walk[..i])
    {
      var tn := walk[i];
      assert walk[..i + 1][..i] == walk[..i];
      var skipped := tn.parentTag.Some? && tn.parentTag.value in SkippedParents;
      TrimTruthyIffHasText(tn.content);
      if !skipped && Trim(tn.content, IsSpace) != [] {
        textNodes := textNodes + [tn];
      }
      i := i + 1;
    }
    assert walk[..i] == walk;
    forall n ensures n in textNodes <==> n in walk && Tokenizable(n) {
      TokenizableNodesMembers(walk, n);
    }
  }

  // ---------------------------------------------------------------------------
  // Sentence range around a clicked word
  // ---------------------------------------------------------------------------

  /**
   * A word ends a sentence when its last character is '.', '!' or '?';
   * such a word is not empty and ends in a character the tokenizer keeps
   * inside a word span, never in whitespace.
   */
  predicate IsBoundary(w: string)
    ensures IsBoundary(w) ==> w != [] && !IsSpace(w[|w| - 1])
  {
    w != [] && w[|w| - 1] in {'.', '!', '?'}
  }

  /** The first word of the sentence holding word `i`. */
  function SentenceStart(words: seq<string>, i: nat): (s: nat)
    requires i < |words|
    ensures s <= i
    ensures s == 0 || IsBoundary(words[s - 1])
    ensures forall k :: s <= k < i ==> !IsBoundary(words[k])
    decreases i
  {
    if i == 0 || IsBoundary(words[i - 1]) then i else SentenceStart(words, i - 1)
  }

  /** The last word of the sentence holding word `i`. */
  function SentenceEnd(words: seq<string>, i: nat): (e: nat)
    requires i < |words|
    ensures i <= e < |words|
    ensures e == |words| - 1 || IsBoundary(words[e])
    ensures forall k :: i <= k < e ==> !IsBoundary(words[k])
    decreases |words| - i
  {
    if i == |words| - 1 || IsBoundary(words[i]) then i else SentenceEnd(words, i + 1)
  }

  /** The start of a sentence is the only index with its three properties. */
  lemma StartIsUnique(words: seq<string>, i: nat, s: nat)
    requires i < |words| && s <= i
    requires s == 0 || IsBoundary(words[s - 1])
    requires forall k :: s <= k < i ==> !IsBoundary(words[k])
    ensures s == SentenceStart(words, i)
  {
  }

  /** The end of a sentence is the only index with its three properties. */
  lemma EndIsUnique(words: seq<string>, i: nat, e: nat)
    requires i <= e < |words|
    requires e == |words| - 1 || IsBoundary(words[e])
    requires forall k :: i <= k < e ==> !IsBoundary(words[k])
    ensures e == SentenceEnd(words, i)
  {
  }

  /** Every word of a sentence lies in the same sentence: clicking any of them selects the same range. */
  lemma SameSentence(words: seq<string>, i: nat, j: nat)
    requires i < |words|
    requires SentenceStart(words, i) <= j <= SentenceEnd(words, i)
    ensures SentenceStart(words, j) == SentenceStart(words, i)
    ensures SentenceEnd(words, j) == SentenceEnd(words, i)
  {
    var s, e := SentenceStart(words, i), SentenceEnd(words, i);
    StartIsUnique(words, j, s);
    EndIsUnique(words, j, e);
  }

  /**
   * The two loops of the click handler: walk back to the word after the
   * previous boundary and forward to the next boundary (or the last word).
   */
  method SentenceRange(words: seq<string>, idx: nat) returns (start: nat, end: nat)
    requires idx < |words|
    ensures start <= idx <= end < |words|
    ensures start == 0 || IsBoundary(words[start - 1])
    ensures forall k :: start <= k < idx ==> !IsBoundary(words[k])
    ensures end == |words| - 1 || IsBoundary(words[end])
    ensures forall k :: idx <= k < end ==> !IsBoundary(words[k])
    ensures IsBoundary(words[idx]) ==> end == idx
    ensures start == SentenceStart(words, idx) && end == SentenceEnd(words, idx)
  {
    start := idx;
    while start > 0 && !IsBoundary(words[start - 1])
      invariant start <= idx
      invariant forall k :: start <= k < idx ==> !IsBoundary(words[k])
    {
      start := start - 1;
    }
    end := idx;
    while end < |words| - 1 && !IsBoundary(words[end])
      invariant idx <= end < |words|
      invariant forall k :: idx <= k < end ==> !IsBoundary(words[k])
    {
      end := end + 1;
    }
    StartIsUnique(words, idx, start);
    EndIsUnique(words, idx, end);
  }

  // ---------------------------------------------------------------------------
  // Marking the clicked sentence
  // ---------------------------------------------------------------------------

  /**
   * The word list of a block: the positions of its word spans whose text is
   * not blank, in document order.
   */
  function WordPositions(spans: seq<string>): (ps: seq<nat>)
    ensures forall k :: 0 <= k < |ps| ==> ps[k] < |spans| && HasText(spans[ps[k]])
    ensures forall i :: 0 <= i < |spans| && HasText(spans[i]) ==> i in ps
    ensures forall k, l :: 0 <= k < l < |ps| ==> ps[k] < ps[l]
  {
    if spans == [] then []
    else
      var n := |spans| - 1;
      var init := WordPositions(spans[..n]);
      assert forall i :: 0 <= i < n ==> spans[..n][i] == spans[i];
      if HasText(spans[n]) then init + [n] else init
  }

  /** `indexOf`: the first position of `x`, or -1 when it is absent. */
  function IndexOf(ps: seq<nat>, x: nat): (r: int)
    ensures -1 <= r < |ps|
    ensures r == -1 <==> x !in ps
    ensures r >= 0 ==> ps[r] == x && x !in ps[..r]
  {
    if ps == [] then -1
    else if ps[0] == x then 0
    else
      var k := IndexOf(ps[1..], x);
      assert k >= 0 ==> ps[..k + 1] == [ps[0]] + ps[1..][..k];
      if k == -1 then -1 else k + 1
  }

  /** The texts of the spans at the given positions. */
  function TextsAt(spans: seq<string>, ps: seq<nat>): seq<string>
    requires forall k :: 0 <= k < |ps| ==> ps[k] < |spans|
  {
    seq(|ps|, k requires 0 <= k < |ps| => spans[ps[k]])
  }

  /**
   * The first and last span of the sentence around the non-blank span `k`:
   * both are non-blank and surround `k`.
   */
  function SentenceSpans(spans: seq<string>, k: nat): (r: (nat, nat))
    requires k < |spans| && HasText(spans[k])
    ensures r.0 <= k <= r.1 < |spans|
    ensures HasText(spans[r.0]) && HasText(spans[r.1])
  {
    var words := WordPositions(spans);
    var idx := IndexOf(words, k);
    var texts := TextsAt(spans, words);
    (words[SentenceStart(texts, idx)], words[SentenceEnd(texts, idx)])
  }

  /** Every non-blank span of a sentence selects that same sentence. */
  lemma SameSentenceSpans(spans: seq<string>, k: nat, j: nat)
    requires k < |spans| && HasText(spans[k])
    requires j < |spans| && HasText(spans[j])
    requires SentenceSpans(spans, k).0 <= j <= SentenceSpans(spans, k).1
    ensures SentenceSpans(spans, j) == SentenceSpans(spans, k)
  {
    var words := WordPositions(spans);
    var texts := TextsAt(spans, words);
    var ik, ij := IndexOf(words, k), IndexOf(words, j);
    SameSentence(texts, ik, ij);
  }

  /** Where a click landed. */
  datatype Click = OnNonWord | OnWordOutsideBlock | OnWord(span: nat)

  /** What the click did. */
  datatype ClickOutcome = Ignored | AlreadyMarked | Marked(first: nat, last: nat)

  /**
   * A block element (p, li, blockquote, h1-h3): the texts of its word spans
   * in document order, whether each one is inside a mark, and the ranges the
   * viewer has wrapped in `notare-mark` marks, oldest first.
   */
  class Block {
    const spans: seq<string>
    const inMark: array<bool>
    var marks: seq<(nat, nat)>

    ghost predicate Valid()
    {
      inMark.Length == |spans|
    }

    constructor(spans: seq<string>, marked: seq<bool>)
      requires |marked| == |spans|
      ensures Valid() && fresh(inMark)
      ensures this.spans == spans && inMark[..] == marked && marks == []
    {
      this.spans := spans;
      inMark := new bool[|marked|](i requires 0 <= i < |marked| => marked[i]);
      marks := [];
    }

    /**
     * The click handler: a click off a word, outside a block or on a blank
     * span does nothing; otherwise, unless the sentence's first word is
     * already inside a mark, the spans from its first to its last word are
     * wrapped in one new mark and no other span changes.
     */
    method OnClick(target: Click) returns (outcome: ClickOutcome)
      requires Valid()
      requires target.OnWord? ==> target.span < |spans|
      modifies inMark, this`marks
      ensures outcome.Ignored? <==> !target.OnWord? || !HasText(spans[target.span])
      ensures !outcome.Marked? ==> inMark[..] == old(inMark[..]) && marks == old(marks)
      ensures !outcome.Ignored? ==>
                var range := SentenceSpans(spans, target.span);
                && (outcome.AlreadyMarked? <==> old(inMark[range.0]))
                && (outcome.Marked? ==> outcome == Marked(range.0, range.1))
      ensures outcome.Marked? ==>
                && (forall i :: 0 <= i < inMark.Length ==>
                      inMark[i] == if outcome.first <= i <= outcome.last then true else old(inMark[i]))
                && marks == old(marks) + [(outcome.first, outcome.last)]
    {
      if !target.OnWord? {
        outcome := Ignored;
        return;
      }
      var words := WordPositions(spans);
      var idx := IndexOf(words, target.span);
      if idx == -1 {
        outcome := Ignored;
        return;
      }
      var start, end := SentenceRange(TextsAt(spans, words), idx);
      var first, last := words[start], words[end];
      if inMark[first] {
        outcome := AlreadyMarked;
        return;
      }
      forall i | first <= i <= last {
        inMark[i] := true;
      }
      marks := marks + [(first, last)];
      outcome := Marked(first, last);
    }
  }
}
