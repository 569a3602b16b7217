/** The greedy splitter of the `non_diarised` pipeline (app/services/jdr/text_chunker.py). */
module TextChunker {
  import opened Wrappers
  import opened PyText

  // ----- Natural boundaries -------------------------------------------------------------

  /** The natural boundaries, best first. */
  datatype Boundary = Paragraph | SentenceEnd | Space

  /** A boundary of kind `b` starts at index `i` of `w`. */
  predicate At(b: Boundary, w: string, i: int) {
    match b
    case Paragraph => 0 <= i && i + 1 < |w| && w[i] == '\n' && w[i + 1] == '\n'
    case SentenceEnd => 0 <= i && i + 1 < |w| && w[i] in {'.', '!', '?', '\U{2026}'} && IsSpace(w[i + 1])
    case Space => 0 <= i < |w| && w[i] == ' '
  }

  function Width(b: Boundary): nat {
    if b.Space? then 1 else 2
  }

  /** `rfind` results below 1 are ignored for paragraphs and spaces; a sentence may end anywhere. */
  function FirstIndex(b: Boundary): nat {
    if b.SentenceEnd? then 0 else 1
  }

  /** The rightmost boundary of kind `b` that starts before `n`, or -1. */
  function RFind(b: Boundary, w: string, n: nat): (r: int)
    ensures r == -1 || (0 <= r < n && At(b, w, r))
    ensures forall i | r < i < n :: !At(b, w, i)
  {
    if n == 0 then -1 else if At(b, w, n - 1) then n - 1 else RFind(b, w, n - 1)
  }

  /** The window holds a usable boundary of kind `b`. */
  predicate Has(b: Boundary, w: string) {
    RFind(b, w, |w|) >= FirstIndex(b)
  }

  predicate HasBoundary(w: string) {
    Has(Paragraph, w) || Has(SentenceEnd, w) || Has(Space, w)
  }

  function CutAfter(b: Boundary, w: string): int {
    RFind(b, w, |w|) + Width(b)
  }

  /** Where `FindCutPoint` cuts a text longer than `maxChars`. */
  function CutPoint(text: string, maxChars: nat): (cut: int)
    requires 0 < maxChars < |text|
    ensures 1 <= cut <= maxChars
  {
    var w := text[..maxChars];
    if Has(Paragraph, w) then CutAfter(Paragraph, w)
    else if Has(SentenceEnd, w) then CutAfter(SentenceEnd, w)
    else if Has(Space, w) then CutAfter(Space, w)
    else maxChars
  }

  /**
   * The last match of the sentence pattern. Matches found left to right do not overlap; the
   * last one is nevertheless the rightmost occurrence, because no whitespace character ends a
   * sentence.
   */
  method LastSentenceEnd(window: string) returns (end: Option<nat>)
    ensures end == if Has(SentenceEnd, window) then Some(CutAfter(SentenceEnd, window)) else None
  {
    var i := 0;
    end := None;
    ghost var last := -1;
    while i < |window|
      invariant 0 <= i <= |window|
      invariant end == if last == -1 then None else Some(last + 2)
      invariant last == -1 || (0 <= last < i && At(SentenceEnd, window, last))
      invariant forall k | last < k < i :: !At(SentenceEnd, window, k)
    {
      if At(SentenceEnd, window, i) {
        end, last := Some(i + 2), i;
        i := i + 2;
      } else {
        i := i + 1;
      }
    }
    assert last == RFind(SentenceEnd, window, |window|);
  }

  method FindCutPoint(text: string, maxChars: nat) returns (cut: int)
    requires 0 < maxChars < |text|
    ensures cut == CutPoint(text, maxChars)
  {
    var window := text[..maxChars];
    var para := RFind(Paragraph, window, |window|);
    if para >= 1 { return para + 2; }
    var sentence := LastSentenceEnd(window);
    if sentence.Some? { return sentence.value; }
    var space := RFind(Space, window, |window|);
    if space >= 1 { return space + 1; }
    return maxChars;
  }

  /**
   * The cut follows the rightmost boundary of the best kind in the window; failing all three,
   * it is the hard cut, and only then can it separate two non-whitespace characters.
   */
  lemma CutIsAtBestBoundary(text: string, maxChars: nat)
    requires 0 < maxChars < |text|
    ensures var w := text[..maxChars]; var cut := CutPoint(text, maxChars);
            || (!HasBoundary(w) && cut == maxChars)
            || (exists b: Boundary ::
                  && FirstIndex(b) <= cut - Width(b) && At(b, w, cut - Width(b))
                  && (forall i | cut - Width(b) < i < |w| :: !At(b, w, i))
                  && (b.SentenceEnd? ==> !Has(Paragraph, w))
                  && (b.Space? ==> !Has(Paragraph, w) && !Has(SentenceEnd, w)))
    ensures !IsSpace(text[CutPoint(text, maxChars) - 1]) ==> !HasBoundary(text[..maxChars])
  {
    var w := text[..maxChars];
    var cut := CutPoint(text, maxChars);
    if HasBoundary(w) {
      var b := if Has(Paragraph, w) then Paragraph else if Has(SentenceEnd, w) then SentenceEnd else Space;
      assert At(b, w, cut - Width(b)) && FirstIndex(b) <= cut - Width(b);
      assert text[cut - 1] == w[cut - 1];
    }
  }

  // ----- The documented boundary --------------------------------------------------------

  /** The rightmost whitespace character before `n`, or -1. */
  function LastSpace(w: string, n: nat): (r: int)
    requires n <= |w|
    ensures r == -1 || (0 <= r < n && IsSpace(w[r]))
    ensures forall i | r < i < n :: !IsSpace(w[i])
  {
    if n == 0 then -1 else if IsSpace(w[n - 1]) then n - 1 else LastSpace(w, n - 1)
  }

  /** The cut as the module documents it: the third boundary is any whitespace. */
  function DocumentedCut(text: string, maxChars: nat): int
    requires 0 < maxChars < |text|
  {
    var w := text[..maxChars];
    var r := LastSpace(w, |w|);
    if Has(Paragraph, w) then CutAfter(Paragraph, w)
    else if Has(SentenceEnd, w) then CutAfter(SentenceEnd, w)
    else if r >= 1 then r + 1
    else maxChars
  }

  /**
   * The code looks for the space character only. It cuts as documented if and only if a better
   * boundary decides, or the last whitespace of the window is a space, or there is none that
   * counts, or it ends a window without a space.
   */
  lemma CutIsAsDocumentedIff(text: string, maxChars: nat)
    requires 0 < maxChars < |text|
    ensures var w := text[..maxChars]; var r := LastSpace(w, |w|);
            CutPoint(text, maxChars) == DocumentedCut(text, maxChars)
            <==> Has(Paragraph, w) || Has(SentenceEnd, w) || r < 1 || w[r] == ' '
                 || (r == maxChars - 1 && !Has(Space, w))
  {
    var w := text[..maxChars];
    var r, space := LastSpace(w, |w|), RFind(Space, w, |w|);
    assert space <= r;
    if r >= 0 && w[r] == ' ' { assert At(Space, w, r); }
  }

  /** A tab in the window is passed over and a word is split. */
  lemma TabIsNotABoundary()
    ensures CutPoint("aaa\tbbbb", 5) == 5
    ensures IsSpace("aaa\tbbbb"[3]) && !IsSpace("aaa\tbbbb"[4]) && !IsSpace("aaa\tbbbb"[5])
  {
    var w := "aaa\tbbbb"[..5];
    assert w == "aaa\tb";
    forall b, i | 0 <= i < 5 ensures !At(b, w, i) {
      assert w[0] == 'a' && w[1] == 'a' && w[2] == 'a' && w[3] == '\t' && w[4] == 'b';
    }
  }

  // ----- The splitting loop -------------------------------------------------------------

  /** The loop's invariant text: non-empty and without surrounding whitespace. */
  ghost predicate Loopable(s: string) {
    s != "" && Stripped(s)
  }

  /** The head of a round is never empty: the `if head` test of the loop cannot fail. */
  lemma HeadOf(s: string, cut: int)
    requires Loopable(s) && 1 <= cut <= |s|
    ensures var n := Trailing(s[..cut]);
            1 <= n <= cut && Strip(s[..cut]) == s[..n] && Loopable(s[..n]) && (forall i | n <= i < cut :: IsSpace(s[i]))
  {
    var left := s[..cut];
    var n := Trailing(left);
    assert !IsSpace(left[0]);
    assert SkipFrom(left, 0) == 0 && left[0..] == left;
    assert Strip(left) == left[..n] == s[..n];
    assert s[..n][n - 1] == left[n - 1] == s[n - 1];
    forall i | n <= i < cut ensures IsSpace(s[i]) { assert left[i] == s[i]; }
  }

  /** What remains after a cut inside the text is never empty: the loop cannot run dry. */
  lemma RestOf(s: string, cut: int)
    requires Loopable(s) && 1 <= cut < |s|
    ensures var n := cut + Leading(s[cut..]);
            cut <= n < |s| && LStrip(s[cut..]) == s[n..] && Loopable(s[n..]) && (forall i | cut <= i < n :: IsSpace(s[i]))
  {
    var right := s[cut..];
    var n := Leading(right);
    assert right[|right| - 1] == s[|s| - 1];
    assert right[n] == s[cut + n];
    assert right[n..] == s[cut + n..];
    forall i | cut <= i < cut + n ensures IsSpace(s[i]) { assert right[i - cut] == s[i]; }
  }

  lemma Around(s: string, i: nat, cut: nat, j: nat)
    requires i <= cut <= j <= |s|
    requires forall k | i <= k < cut :: IsSpace(s[k])
    requires forall k | cut <= k < j :: IsSpace(s[k])
    ensures Blank(s[i..j]) && s == s[..i] + s[i..j] + s[j..]
    ensures s[i..j] == "" ==> i == cut == j
  {}

  /** The whitespace a cut drops between the head and what remains. */
  lemma GapOf(s: string, cut: int) returns (gap: string)
    requires Loopable(s) && 1 <= cut < |s|
    ensures Blank(gap)
    ensures s == Strip(s[..cut]) + gap + LStrip(s[cut..])
    ensures gap == "" ==> Strip(s[..cut]) == s[..cut] && !IsSpace(s[cut - 1])
  {
    var i, j := Trailing(s[..cut]), cut + Leading(s[cut..]);
    HeadOf(s, cut);
    RestOf(s, cut);
    Around(s, i, cut, j);
    gap := s[i..j];
    assert gap == "" ==> s[..i][i - 1] == s[cut - 1];
  }

  /** The chunks of a text the loop starts from. */
  function Split(s: string, maxChars: nat): seq<string>
    requires Loopable(s) && 0 < maxChars
    decreases |s|
  {
    if |s| <= maxChars then [s]
    else
      var cut := CutPoint(s, maxChars);
      RestOf(s, cut);
      [Strip(s[..cut])] + Split(LStrip(s[cut..]), maxChars)
  }

  /** One round of the loop, as the loop needs it. */
  lemma Round(s: string, maxChars: nat)
    requires Loopable(s) && 0 < maxChars < |s|
    ensures var cut := CutPoint(s, maxChars); var rest := LStrip(s[cut..]);
            && Strip(s[..cut]) != ""
            && Loopable(rest) && |rest| < |s|
            && Split(s, maxChars) == [Strip(s[..cut])] + Split(rest, maxChars)
  {
    HeadOf(s, CutPoint(s, maxChars));
    RestOf(s, CutPoint(s, maxChars));
  }

  /** The short branch, by which the loop always leaves. */
  lemma LastRound(s: string, maxChars: nat)
    requires Loopable(s) && 0 < maxChars && |s| <= maxChars
    ensures Split(s, maxChars) == [Strip(s)]
  {
    StripOfStripped(s);
  }

  lemma Regroup(done: seq<string>, head: string, todo: seq<string>)
    ensures done + ([head] + todo) == (done + [head]) + todo
  {}

  function Chunks(text: string, maxChars: nat): seq<string>
    requires 0 < maxChars
  {
    if Strip(text) == "" then [] else Split(Strip(text), maxChars)
  }

  /** `chunks[0] gaps[0] chunks[1] gaps[1] ... chunks[n]` put end to end. */
  function Weave(chunks: seq<string>, gaps: seq<string>): string
    requires |chunks| == |gaps| + 1
  {
    if gaps == [] then chunks[0] else chunks[0] + gaps[0] + Weave(chunks[1..], gaps[1..])
  }

  /** What a list of chunks promises about the text it was cut from. */
  ghost predicate Decomposes(s: string, chunks: seq<string>, gaps: seq<string>, maxChars: nat) {
    && |chunks| == |gaps| + 1
    && s == Weave(chunks, gaps)
    && (forall g | g in gaps :: Blank(g))
    && (forall c | c in chunks :: c != "" && Stripped(c) && |c| <= maxChars)
    // nothing was dropped between two chunks only where a full window had no boundary
    && (forall i | 0 <= i < |gaps| && gaps[i] == "" :: |chunks[i]| == maxChars && !HasBoundary(chunks[i]))
  }

  /** Putting one more chunk and gap in front of a decomposition. */
  lemma PutInFront(head: string, gap: string, s: string, chunks: seq<string>, gaps: seq<string>, maxChars: nat)
    requires Decomposes(s, chunks, gaps, maxChars)
    requires Blank(gap) && Loopable(head) && |head| <= maxChars
    requires gap == "" ==> |head| == maxChars && !HasBoundary(head)
    ensures Decomposes(head + gap + s, [head] + chunks, [gap] + gaps, maxChars)
  {
    var cs, gs := [head] + chunks, [gap] + gaps;
    assert cs[1..] == chunks && gs[1..] == gaps;
    forall i | 0 <= i < |gs| && gs[i] == ""
      ensures |cs[i]| == maxChars && !HasBoundary(cs[i])
    {
      if i > 0 { assert gs[i] == gaps[i - 1] && cs[i] == chunks[i - 1]; }
    }
  }

  lemma {:induction false} SplitDecomposes(s: string, maxChars: nat) returns (gaps: seq<string>)
    requires Loopable(s) && 0 < maxChars
    ensures Decomposes(s, Split(s, maxChars), gaps, maxChars)
    decreases |s|
  {
    gaps := [];
    if |s| > maxChars {
      var cut := CutPoint(s, maxChars);
      HeadOf(s, cut);
      RestOf(s, cut);
      var gap := GapOf(s, cut);
      var head, rest := Strip(s[..cut]), LStrip(s[cut..]);
      var more := SplitDecomposes(rest, maxChars);
      if gap == "" { CutIsAtBestBoundary(s, maxChars); }
      PutInFront(head, gap, rest, Split(rest, maxChars), more, maxChars);
      gaps := [gap] + more;
    }
  }

  /**
   * Main theorem of the chunker: unless the text is blank, the stripped text is its chunks
   * interleaved with whitespace, and every chunk is non-empty, stripped and short enough.
   */
  lemma ChunksDecompose(text: string, maxChars: nat)
    requires 0 < maxChars
    ensures Chunks(text, maxChars) == [] <==> Blank(text)
    ensures !Blank(text) ==>
              exists gaps :: Decomposes(Strip(text), Chunks(text, maxChars), gaps, maxChars)
  {
    if Strip(text) != "" {
      var gaps := SplitDecomposes(Strip(text), maxChars);
    }
  }

  function AllWords(chunks: seq<string>): seq<string> {
    if chunks == [] then [] else Words(chunks[0]) + AllWords(chunks[1..])
  }

  function EmptyGaps(gaps: seq<string>): (n: nat)
    ensures n == 0 <==> "" !in gaps
  {
    if gaps == [] then 0 else (if gaps[0] == "" then 1 else 0) + EmptyGaps(gaps[1..])
  }

  lemma BlankInFront(gap: string, b: string)
    requires gap != "" && Blank(gap)
    ensures Words(gap + b) == Words(b)
  {
    assert IsSpace(gap[|gap| - 1]);
    WordsAppend(gap, b);
    WordsOfBlank(gap);
  }

  lemma GapBetween(a: string, c: string)
    requires c != "" && IsSpace(c[0])
    ensures Words(a + c) == Words(a) + Words(c)
  {
    WordsAppend(a, c);
  }

  /** Two texts with a gap between them: the words of both, unless the gap is empty and two words become one. */
  lemma WordsAround(a: string, gap: string, b: string)
    requires Loopable(a) && Blank(gap) && b != "" && !IsSpace(b[0])
    ensures gap != "" ==> Words(a + gap + b) == Words(a) + Words(b)
    ensures gap == "" ==> |Words(a + gap + b)| == |Words(a)| + |Words(b)| - 1
  {
    if gap == "" {
      assert a + gap + b == a + b;
      WordsJoin(a, b);
    } else {
      var c := gap + b;
      assert a + gap + b == a + c && c[0] == gap[0];
      BlankInFront(gap, b);
      GapBetween(a, c);
    }
  }

  lemma {:induction false} WordsOfWeave(chunks: seq<string>, gaps: seq<string>)
    requires |chunks| == |gaps| + 1
    requires (forall i | 0 <= i < |gaps| :: Blank(gaps[i])) && (forall i | 0 <= i < |chunks| :: Loopable(chunks[i]))
    ensures |Words(Weave(chunks, gaps))| == |AllWords(chunks)| - EmptyGaps(gaps)
    ensures EmptyGaps(gaps) == 0 ==> Words(Weave(chunks, gaps)) == AllWords(chunks)
    ensures Weave(chunks, gaps) != "" && !IsSpace(Weave(chunks, gaps)[0])
    decreases gaps
  {
    if gaps == [] {
      assert chunks[1..] == [];
    } else {
      var rest, more := chunks[1..], gaps[1..];
      forall i | 0 <= i < |rest| ensures Loopable(rest[i]) { assert rest[i] == chunks[i + 1]; }
      forall i | 0 <= i < |more| ensures Blank(more[i]) { assert more[i] == gaps[i + 1]; }
      WordsOfWeave(rest, more);
      assert Loopable(chunks[0]) && Blank(gaps[0]);
      WordsAround(chunks[0], gaps[0], Weave(rest, more));
    }
  }

  /**
   * However the gaps are chosen, the chunks say every word of the text, whole and in order,
   * exactly when none of them is empty.
   */
  lemma WordsSurviveIffNoGapEmpty(text: string, maxChars: nat, gaps: seq<string>)
    requires 0 < maxChars && Decomposes(Strip(text), Chunks(text, maxChars), gaps, maxChars)
    ensures AllWords(Chunks(text, maxChars)) == Words(text) <==> "" !in gaps
  {
    var chunks := Chunks(text, maxChars);
    forall i | 0 <= i < |chunks| ensures Loopable(chunks[i]) { assert chunks[i] in chunks; }
    forall i | 0 <= i < |gaps| ensures Blank(gaps[i]) { assert gaps[i] in gaps; }
    WordsOfWeave(chunks, gaps);
    WordsOfStrip(text);
  }

  /**
   * A stretch of `maxChars` characters from position `i` in which a word would have to be cut:
   * it starts with a character that is no whitespace, has no boundary, and neither its last
   * character nor the one after it is whitespace.
   */
  predicate Tight(s: string, i: nat, maxChars: nat) {
    && 0 < maxChars && i + maxChars < |s| && !IsSpace(s[i])
    && !HasBoundary(s[i..i + maxChars]) && !IsSpace(s[i + maxChars - 1]) && !IsSpace(s[i + maxChars])
  }

  /** Where in the text a chunk before an empty gap lies. */
  lemma {:induction false} ChunkBeforeEmptyGap(chunks: seq<string>, gaps: seq<string>, i: nat) returns (p: nat)
    requires |chunks| == |gaps| + 1 && i < |gaps| && gaps[i] == ""
    requires forall k | 0 <= k < |chunks| :: Loopable(chunks[k])
    ensures var s := Weave(chunks, gaps);
            p + |chunks[i]| < |s| && s[p..p + |chunks[i]|] == chunks[i] && !IsSpace(s[p + |chunks[i]|])
    decreases i
  {
    var rest, more := chunks[1..], gaps[1..];
    var tail := Weave(rest, more);
    forall k | 0 <= k < |rest| ensures Loopable(rest[k]) { assert rest[k] == chunks[k + 1]; }
    if i == 0 {
      p := 0;
      WeaveStarts(rest, more);
      assert Weave(chunks, gaps) == chunks[0] + tail;
    } else {
      assert rest[i - 1] == chunks[i] && more[i - 1] == gaps[i];
      var q := ChunkBeforeEmptyGap(rest, more, i - 1);
      p := |chunks[0] + gaps[0]| + q;
      Shifted(chunks[0] + gaps[0], tail, q, |chunks[i]|);
    }
  }

  lemma WeaveStarts(chunks: seq<string>, gaps: seq<string>)
    requires |chunks| == |gaps| + 1 && Loopable(chunks[0])
    ensures Weave(chunks, gaps) != "" && !IsSpace(Weave(chunks, gaps)[0])
  {}

  lemma Shifted(head: string, tail: string, q: nat, n: nat)
    requires q + n < |tail|
    ensures (head + tail)[|head| + q..|head| + q + n] == tail[q..q + n]
    ensures (head + tail)[|head| + q + n] == tail[q + n]
  {}

  /** An empty gap comes from a tight stretch of the text. */
  lemma EmptyGapIsTight(s: string, chunks: seq<string>, gaps: seq<string>, maxChars: nat, i: nat) returns (p: nat)
    requires Decomposes(s, chunks, gaps, maxChars) && 0 < maxChars && i < |gaps| && gaps[i] == ""
    ensures Tight(s, p, maxChars)
  {
    forall k | 0 <= k < |chunks| ensures Loopable(chunks[k]) { assert chunks[k] in chunks; }
    p := ChunkBeforeEmptyGap(chunks, gaps, i);
    var c := chunks[i];
    assert |c| == maxChars && s[p..p + maxChars] == c;
    assert s[p] == c[0] && s[p + maxChars - 1] == c[maxChars - 1];
  }

  /** Without a tight stretch in the stripped text no word is cut. */
  lemma WordsSurviveWithoutTightStretch(text: string, maxChars: nat)
    requires 0 < maxChars && forall i: nat :: !Tight(Strip(text), i, maxChars)
    ensures AllWords(Chunks(text, maxChars)) == Words(text)
    ensures forall gaps | Decomposes(Strip(text), Chunks(text, maxChars), gaps, maxChars) :: "" !in gaps
  {
    ChunksDecompose(text, maxChars);
    var s, chunks := Strip(text), Chunks(text, maxChars);
    forall gaps | Decomposes(s, chunks, gaps, maxChars) ensures "" !in gaps {
      if "" in gaps {
        var i :| 0 <= i < |gaps| && gaps[i] == "";
        var p := EmptyGapIsTight(s, chunks, gaps, maxChars, i);
      }
    }
    if Blank(text) {
      WordsOfBlank(text);
    } else {
      var gaps :| Decomposes(s, chunks, gaps, maxChars);
      WordsSurviveIffNoGapEmpty(text, maxChars, gaps);
    }
  }

  lemma {:induction false} AllWordsFit(chunks: seq<string>, maxChars: nat)
    requires forall i | 0 <= i < |chunks| :: |chunks[i]| <= maxChars
    ensures forall w | w in AllWords(chunks) :: |w| <= maxChars
    decreases chunks
  {
    if chunks != [] {
      WordsFit(chunks[0]);
      AllWordsFit(chunks[1..], maxChars);
    }
  }

  /** Whatever the text, words can only survive if each of them fits into a chunk. */
  lemma SurvivingWordsFit(text: string, maxChars: nat)
    requires 0 < maxChars && AllWords(Chunks(text, maxChars)) == Words(text)
    ensures forall w | w in Words(text) :: |w| <= maxChars
  {
    ChunksDecompose(text, maxChars);
    var chunks := Chunks(text, maxChars);
    forall i | 0 <= i < |chunks| ensures |chunks[i]| <= maxChars { assert chunks[i] in chunks; }
    AllWordsFit(chunks, maxChars);
  }

  /** The only whitespace of the text is the space character. */
  predicate Plain(s: string) {
    forall i | 0 <= i < |s| && IsSpace(s[i]) :: s[i] == ' '
  }

  lemma TightIsLongWord(s: string, i: nat, maxChars: nat)
    requires Plain(s) && Tight(s, i, maxChars)
    ensures exists w | w in Words(s) :: |w| > maxChars
  {
    var w := s[i..i + maxChars];
    forall k | i <= k < i + maxChars + 1 ensures !IsSpace(s[k]) {
      if i < k < i + maxChars && IsSpace(s[k]) { assert w[k - i] == ' ' && At(Space, w, k - i); }
    }
    RunInWord(s, i, i + maxChars + 1);
  }

  lemma StripIsPlain(text: string)
    requires Plain(text)
    ensures Plain(Strip(text))
  {
    var l, s := LStrip(text), Strip(text);
    forall i | 0 <= i < |s| && IsSpace(s[i]) ensures s[i] == ' ' {
      assert s[i] == l[i] == text[Leading(text) + i];
    }
  }

  /**
   * The chunks of a text without tabs and line breaks say all its words, whole and in order, if
   * and only if no word is longer than a chunk may be.
   */
  lemma PlainWordsSurviveIff(text: string, maxChars: nat)
    requires 0 < maxChars && Plain(text)
    ensures AllWords(Chunks(text, maxChars)) == Words(text) <==> forall w | w in Words(text) :: |w| <= maxChars
  {
    if AllWords(Chunks(text, maxChars)) == Words(text) {
      SurvivingWordsFit(text, maxChars);
    } else if forall w | w in Words(text) :: |w| <= maxChars {
      StripIsPlain(text);
      WordsOfStrip(text);
      forall i: nat ensures !Tight(Strip(text), i, maxChars) {
        if Tight(Strip(text), i, maxChars) { TightIsLongWord(Strip(text), i, maxChars); }
      }
      WordsSurviveWithoutTightStretch(text, maxChars);
    }
  }

  method ChunkText(text: string, maxChars: int) returns (r: Result<seq<string>, string>)
    ensures r.Failure? <==> maxChars <= 0
    ensures r.Success? ==> r.value == Chunks(text, maxChars)
  {
    if maxChars <= 0 {
      return Failure("max_chars must be > 0");
    }
    var stripped := Strip(text);
    if stripped == "" {
      return Success([]);
    }
    ghost var whole := Split(stripped, maxChars);
    var chunks: seq<string> := [];
    var remaining := stripped;
    ghost var todo := whole;
    ghost var leftByBreak := false;
    while remaining != ""
      invariant Loopable(remaining) && !leftByBreak
      invariant todo == Split(remaining, maxChars) && whole == chunks + todo
      decreases |remaining|
    {
      if |remaining| <= maxChars {
        LastRound(remaining, maxChars);
        chunks := chunks + [Strip(remaining)];
        leftByBreak := true;
        break;
      }
      Round(remaining, maxChars);
      var cut := FindCutPoint(remaining, maxChars);
      var head := Strip(remaining[..cut]);
      todo := Split(LStrip(remaining[cut..]), maxChars);
      Regroup(chunks, head, todo);
      if head != "" {
        chunks := chunks + [head];
      }
      remaining := LStrip(remaining[cut..]);
    }
    assert leftByBreak;
    return Success(chunks);
  }
}
