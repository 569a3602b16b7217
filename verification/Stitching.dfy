/**
 * Transcription in pieces (app/jobs/jdr.py, app/services/jdr/audio.py): the audio is cut into
 * pieces of equal length, each is transcribed alone, and the segments are put back on one
 * time line.
 */
module Stitching {
  import opened SessionModel

  /** What the adapter returns for one audio file; times count from the start of that file. */
  datatype Heard = Heard(segments: seq<Segment>, language: string, modelUsed: string, provider: string)

  datatype Answer = Understood(heard: Heard) | Broken(cause: Cause)

  function Moved(g: Segment, shift: real): Segment {
    g.(start := g.start + shift, end := g.end + shift)
  }

  function Shifted(segments: seq<Segment>, shift: real): (r: seq<Segment>)
    ensures |r| == |segments|
  {
    seq(|segments|, i requires 0 <= i < |segments| => Moved(segments[i], shift))
  }

  /** Pieces of `length` seconds each, the first of which starts at `at`, on one time line. */
  function Stitched(pieces: seq<Heard>, at: real, length: real): seq<Segment> {
    if pieces == [] then [] else Shifted(pieces[0].segments, at) + Stitched(pieces[1..], at + length, length)
  }

  /** Where the piece after `n` more pieces starts. */
  function Offset(at: real, n: nat, length: real): real {
    at + n as real * length
  }

  lemma OffsetStep(at: real, n: nat, length: real)
    ensures Offset(at, 0, length) == at
    ensures Offset(at, n + 1, length) == Offset(at + length, n, length) == Offset(at, n, length) + length
    ensures 0.0 <= length ==> at <= Offset(at, n, length)
  {
    assert (n + 1) as real * length == n as real * length + length;
  }

  /** Later non-empty metadata wins. */
  function LastNonEmpty(values: seq<string>, before: string): string {
    if values == [] then before
    else LastNonEmpty(values[1..], if values[0] != "" then values[0] else before)
  }

  function Languages(pieces: seq<Heard>): seq<string> {
    seq(|pieces|, i requires 0 <= i < |pieces| => pieces[i].language)
  }

  function Models(pieces: seq<Heard>): seq<string> {
    seq(|pieces|, i requires 0 <= i < |pieces| => pieces[i].modelUsed)
  }

  function Providers(pieces: seq<Heard>): seq<string> {
    seq(|pieces|, i requires 0 <= i < |pieces| => pieces[i].provider)
  }

  function Whole(pieces: seq<Heard>, length: real): Heard {
    Heard(Stitched(pieces, 0.0, length), LastNonEmpty(Languages(pieces), ""),
          LastNonEmpty(Models(pieces), ""), LastNonEmpty(Providers(pieces), ""))
  }

  /** Pieces do not influence each other: replacing one changes its own stretch of the result only. */
  lemma {:induction false} StitchedAppend(a: seq<Heard>, b: seq<Heard>, at: real, length: real)
    ensures Stitched(a + b, at, length) == Stitched(a, at, length) + Stitched(b, Offset(at, |a|, length), length)
    decreases a
  {
    if a == [] {
      assert a + b == b;
    } else {
      assert (a + b)[1..] == a[1..] + b;
      OffsetStep(at, |a| - 1, length);
      StitchedAppend(a[1..], b, at + length, length);
    }
  }

  lemma {:induction false} LastNonEmptySnoc(values: seq<string>, v: string, before: string)
    ensures LastNonEmpty(values + [v], before) == if v != "" then v else LastNonEmpty(values, before)
  {
    if values == [] {
      assert (values + [v])[1..] == [];
    } else {
      assert (values + [v])[1..] == values[1..] + [v];
      LastNonEmptySnoc(values[1..], v, if values[0] != "" then values[0] else before);
    }
  }

  /** One more piece at the end: what one round of the loop adds. */
  lemma WholeSnoc(pieces: seq<Heard>, next: Heard, length: real)
    ensures Whole(pieces + [next], length).segments
         == Whole(pieces, length).segments + Shifted(next.segments, Offset(0.0, |pieces|, length))
    ensures Whole(pieces + [next], length).language == if next.language != "" then next.language else Whole(pieces, length).language
    ensures Whole(pieces + [next], length).modelUsed == if next.modelUsed != "" then next.modelUsed else Whole(pieces, length).modelUsed
    ensures Whole(pieces + [next], length).provider == if next.provider != "" then next.provider else Whole(pieces, length).provider
  {
    StitchedAppend(pieces, [next], 0.0, length);
    assert [next][1..] == [];
    assert Languages(pieces + [next]) == Languages(pieces) + [next.language];
    LastNonEmptySnoc(Languages(pieces), next.language, "");
    assert Models(pieces + [next]) == Models(pieces) + [next.modelUsed];
    LastNonEmptySnoc(Models(pieces), next.modelUsed, "");
    assert Providers(pieces + [next]) == Providers(pieces) + [next.provider];
    LastNonEmptySnoc(Providers(pieces), next.provider, "");
  }

  /** A recording that fits in one piece is transcribed as if it had not been cut. */
  lemma OnePieceIsSingleShot(heard: Heard, length: real)
    ensures Whole([heard], length) == heard
  {
    WholeSnoc([], heard, length);
    assert [] + [heard] == [heard];
    OffsetStep(0.0, 0, length);
    assert Shifted(heard.segments, 0.0) == heard.segments;
  }

  /** How many segments the pieces hold together. */
  function SegmentCount(pieces: seq<Heard>): nat {
    if pieces == [] then 0 else |pieces[0].segments| + SegmentCount(pieces[1..])
  }

  lemma CountStep(pieces: seq<Heard>, i: nat)
    requires 0 < i <= |pieces|
    ensures SegmentCount(pieces[..i]) == |pieces[0].segments| + SegmentCount(pieces[1..][..i - 1])
  {
    assert pieces[..i][1..] == pieces[1..][..i - 1];
  }

  lemma {:induction false} StitchedIndex(pieces: seq<Heard>, at: real, length: real, i: nat, k: nat)
    requires i < |pieces| && k < |pieces[i].segments|
    ensures var whole := Stitched(pieces, at, length); var n := SegmentCount(pieces[..i]) + k;
            n < |whole| && whole[n] == Moved(pieces[i].segments[k], Offset(at, i, length))
    decreases pieces
  {
    if i == 0 {
      assert pieces[..0] == [];
      OffsetStep(at, 0, length);
    } else {
      StitchedIndex(pieces[1..], at + length, length, i - 1, k);
      CountStep(pieces, i);
      OffsetStep(at, i - 1, length);
    }
  }

  /** Segment `k` of piece `i` is in its place, with the length of the pieces before it added to both its times. */
  lemma {:induction false} StitchedAt(pieces: seq<Heard>, length: real, i: nat, k: nat)
    requires i < |pieces| && k < |pieces[i].segments|
    ensures var whole := Whole(pieces, length).segments; var g := pieces[i].segments[k];
            var n := SegmentCount(pieces[..i]) + k; var before := i as real * length;
            n < |whole| && whole[n] == Segment(g.speaker, g.start + before, g.end + before, g.text)
  {
    StitchedIndex(pieces, 0.0, length, i, k);
  }

  // ----- The time line ------------------------------------------------------------------

  ghost predicate Starts(segments: seq<Segment>, lo: real, hi: real) {
    forall i | 0 <= i < |segments| :: lo <= segments[i].start < hi
  }

  ghost predicate InOrder(segments: seq<Segment>) {
    forall i, j | 0 <= i < j < |segments| :: segments[i].start <= segments[j].start
  }

  lemma OrderAppend(a: seq<Segment>, b: seq<Segment>, lo: real, mid: real, hi: real)
    requires InOrder(a) && Starts(a, lo, mid) && InOrder(b) && Starts(b, mid, hi) && lo <= mid <= hi
    ensures InOrder(a + b) && Starts(a + b, lo, hi)
  {}

  /** If every piece is in order and inside its own length, so is the whole, whatever the pieces hold. */
  lemma {:induction false} StitchedInOrder(pieces: seq<Heard>, at: real, length: real)
    requires 0.0 <= length
    requires forall i | 0 <= i < |pieces| :: InOrder(pieces[i].segments) && Starts(pieces[i].segments, 0.0, length)
    ensures InOrder(Stitched(pieces, at, length))
    ensures Starts(Stitched(pieces, at, length), at, Offset(at, |pieces|, length))
    decreases pieces
  {
    if pieces != [] {
      var rest := pieces[1..];
      forall i | 0 <= i < |rest| ensures InOrder(rest[i].segments) && Starts(rest[i].segments, 0.0, length) {
        assert rest[i] == pieces[i + 1];
      }
      StitchedInOrder(rest, at + length, length);
      OffsetStep(at, |rest|, length);
      OffsetStep(at + length, |rest|, length);
      HeadInOrder(pieces[0].segments, at, length);
      OrderAppend(Shifted(pieces[0].segments, at), Stitched(rest, at + length, length),
                  at, at + length, Offset(at, |pieces|, length));
    }
  }

  lemma HeadInOrder(segments: seq<Segment>, at: real, length: real)
    requires InOrder(segments) && Starts(segments, 0.0, length)
    ensures InOrder(Shifted(segments, at)) && Starts(Shifted(segments, at), at, at + length)
  {}

  // ----- Cutting and stitching ----------------------------------------------------------

  /** The segments that start in `[lo, hi)`, counted from `lo`. */
  function Cut(t: seq<Segment>, lo: real, hi: real): seq<Segment> {
    if t == [] then []
    else if lo <= t[0].start < hi then [Moved(t[0], -lo)] + Cut(t[1..], lo, hi)
    else Cut(t[1..], lo, hi)
  }

  /** What an ideal model hears in `n` pieces of a recording of `t`. */
  function Cuts(t: seq<Segment>, at: real, n: nat, length: real): seq<Heard>
    decreases n
  {
    if n == 0 then [] else [Heard(Cut(t, at, at + length), "", "", "")] + Cuts(t, at + length, n - 1, length)
  }

  /** How many leading segments start before `hi`. */
  function Before(t: seq<Segment>, hi: real): (n: nat)
    ensures n <= |t|
    ensures forall i | 0 <= i < n :: t[i].start < hi
    ensures n < |t| ==> t[n].start >= hi
  {
    if t == [] || t[0].start >= hi then 0 else 1 + Before(t[1..], hi)
  }

  lemma {:induction false} CutAppend(a: seq<Segment>, b: seq<Segment>, lo: real, hi: real)
    ensures Cut(a + b, lo, hi) == Cut(a, lo, hi) + Cut(b, lo, hi)
  {
    if a == [] {
      assert a + b == b;
    } else {
      assert (a + b)[1..] == a[1..] + b;
      CutAppend(a[1..], b, lo, hi);
    }
  }

  lemma {:induction false} CutAll(t: seq<Segment>, lo: real, hi: real)
    requires Starts(t, lo, hi)
    ensures Shifted(Cut(t, lo, hi), lo) == t
  {
    if t != [] {
      CutAll(t[1..], lo, hi);
      assert Moved(Moved(t[0], -lo), lo) == t[0];
      assert Shifted(Cut(t, lo, hi), lo) == [t[0]] + Shifted(Cut(t[1..], lo, hi), lo);
    }
  }

  lemma {:induction false} CutNone(t: seq<Segment>, lo: real, hi: real)
    requires forall i | 0 <= i < |t| :: !(lo <= t[i].start < hi)
    ensures Cut(t, lo, hi) == []
  {
    if t != [] { CutNone(t[1..], lo, hi); }
  }

  lemma {:induction false} CutsSkip(a: seq<Segment>, b: seq<Segment>, at: real, n: nat, length: real)
    requires 0.0 <= length && forall i | 0 <= i < |a| :: a[i].start < at
    ensures Cuts(a + b, at, n, length) == Cuts(b, at, n, length)
    decreases n
  {
    if n > 0 {
      CutAppend(a, b, at, at + length);
      CutNone(a, at, at + length);
      assert Cut(a + b, at, at + length) == Cut(b, at, at + length);
      CutsSkip(a, b, at + length, n - 1, length);
    }
  }

  lemma SplitInOrder(t: seq<Segment>, m: nat, lo: real, mid: real, hi: real)
    requires InOrder(t) && Starts(t, lo, hi) && m == Before(t, mid)
    ensures Starts(t[..m], lo, mid) && InOrder(t[m..]) && Starts(t[m..], mid, hi)
  {}

  lemma CutOff(a: seq<Segment>, rest: seq<Segment>, at: real, n: nat, length: real)
    requires 0.0 <= length && Starts(a, at, at + length)
    requires forall i | 0 <= i < |rest| :: at + length <= rest[i].start
    ensures Shifted(Cut(a + rest, at, at + length), at) == a
    ensures Cuts(a + rest, at + length, n, length) == Cuts(rest, at + length, n, length)
  {
    CutAppend(a, rest, at, at + length);
    CutAll(a, at, at + length);
    CutNone(rest, at, at + length);
    assert Cut(a + rest, at, at + length) == Cut(a, at, at + length);
    CutsSkip(a, rest, at + length, n, length);
  }

  /** The first piece of an ordered recording holds what is said before its end, and the others do not. */
  lemma FirstPiece(t: seq<Segment>, at: real, n: nat, length: real) returns (rest: seq<Segment>)
    requires 0.0 <= length && InOrder(t) && Starts(t, at, Offset(at, n + 1, length))
    ensures Shifted(Cut(t, at, at + length), at) + rest == t
    ensures InOrder(rest) && Starts(rest, at + length, Offset(at + length, n, length))
    ensures Cuts(t, at + length, n, length) == Cuts(rest, at + length, n, length)
  {
    OffsetStep(at, n, length);
    var m := Before(t, at + length);
    SplitInOrder(t, m, at, at + length, Offset(at + length, n, length));
    rest := t[m..];
    assert t == t[..m] + rest;
    CutOff(t[..m], rest, at, n, length);
  }

  lemma StitchedCons(first: Heard, rest: seq<Heard>, at: real, length: real)
    ensures Stitched([first] + rest, at, length) == Shifted(first.segments, at) + Stitched(rest, at + length, length)
  {
    assert ([first] + rest)[1..] == rest;
  }

  /**
   * Round trip: stitching undoes cutting. What is said in a recording comes back with its
   * times, however many pieces it was cut into.
   */
  lemma {:induction false} StitchingUndoesCutting(t: seq<Segment>, at: real, n: nat, length: real)
    requires 0.0 <= length && InOrder(t) && Starts(t, at, Offset(at, n, length))
    ensures Stitched(Cuts(t, at, n, length), at, length) == t
    decreases n
  {
    if n == 0 {
      OffsetStep(at, 0, length);
    } else {
      var rest := FirstPiece(t, at, n - 1, length);
      StitchingUndoesCutting(rest, at + length, n - 1, length);
      StitchedCons(Heard(Cut(t, at, at + length), "", "", ""), Cuts(t, at + length, n - 1, length), at, length);
    }
  }
}
