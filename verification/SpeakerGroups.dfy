/** Merging consecutive segments of one speaker for the Markdown export (app/services/jdr/markdown.py). */
module SpeakerGroups {
  import opened Wrappers
  import opened PyText

  /** A time read from JSON: absent, a number, or something `float()` refuses (such as null). */
  datatype Time = Missing | At(seconds: real) | Malformed

  datatype Seg = Seg(speaker: Option<string>, start: Time, end: Time, text: Option<string>)

  // ----- The specification --------------------------------------------------------------

  /** An absent time counts as zero. */
  function Seconds(t: Time): real {
    if t.At? then t.seconds else 0.0
  }

  predicate Comparable(last: Seg, next: Seg) {
    last.speaker == next.speaker && !last.end.Malformed? && !next.start.Malformed?
  }

  predicate Mergeable(last: Seg, next: Seg, maxGap: real) {
    Comparable(last, next) && Seconds(next.start) - Seconds(last.end) < maxGap
  }

  function Text(g: Seg): string {
    if g.text.Some? then g.text.value else ""
  }

  /** The end of a merged segment; null when neither part has one. */
  function MergedEnd(last: Time, next: Time): Time {
    if !next.Missing? then next else if last.Missing? then Malformed else last
  }

  function Merged(last: Seg, next: Seg): Seg {
    last.(end := MergedEnd(last.end, next.end), text := Some(Strip(RStrip(Text(last)) + " " + LStrip(Text(next)))))
  }

  function GroupFrom(last: Seg, rest: seq<Seg>, maxGap: real): (r: seq<Seg>)
    ensures r != [] && r[0].start == last.start && r[0].speaker == last.speaker
    decreases rest
  {
    if rest == [] then [last]
    else if Mergeable(last, rest[0], maxGap) then GroupFrom(Merged(last, rest[0]), rest[1..], maxGap)
    else [last] + GroupFrom(rest[0], rest[1..], maxGap)
  }

  function Grouped(segments: seq<Seg>, maxGap: real): seq<Seg> {
    if segments == [] then [] else GroupFrom(segments[0], segments[1..], maxGap)
  }

  lemma Regroup(a: seq<Seg>, g: Seg, b: seq<Seg>)
    ensures a + ([g] + b) == (a + [g]) + b
  {}

  lemma GroupStep(current: Seg, segments: seq<Seg>, i: nat, maxGap: real)
    requires i < |segments|
    ensures GroupFrom(current, segments[i..], maxGap)
         == if Mergeable(current, segments[i], maxGap) then GroupFrom(Merged(current, segments[i]), segments[i + 1..], maxGap)
            else [current] + GroupFrom(segments[i], segments[i + 1..], maxGap)
  {
    assert segments[i..][0] == segments[i] && segments[i..][1..] == segments[i + 1..];
  }

  /** The same from index `i` on: what the loop still has to do. */
  ghost function GroupAt(last: Seg, segments: seq<Seg>, i: nat, maxGap: real): seq<Seg>
    requires i <= |segments|
    decreases |segments| - i
  {
    if i == |segments| then [last]
    else if Mergeable(last, segments[i], maxGap) then GroupAt(Merged(last, segments[i]), segments, i + 1, maxGap)
    else [last] + GroupAt(segments[i], segments, i + 1, maxGap)
  }

  lemma {:induction false} GroupAtIsGroupFrom(last: Seg, segments: seq<Seg>, i: nat, maxGap: real)
    requires i <= |segments|
    ensures GroupAt(last, segments, i, maxGap) == GroupFrom(last, segments[i..], maxGap)
    decreases |segments| - i
  {
    if i < |segments| {
      GroupStep(last, segments, i, maxGap);
      GroupAtIsGroupFrom(if Mergeable(last, segments[i], maxGap) then Merged(last, segments[i]) else segments[i], segments, i + 1, maxGap);
    }
  }

  /** The result the loop arrives at from the groups it has, the last of which may still grow. */
  ghost function Outcome(out: seq<Seg>, segments: seq<Seg>, i: nat, maxGap: real): seq<Seg>
    requires out != [] && i <= |segments|
  {
    out[..|out| - 1] + GroupAt(out[|out| - 1], segments, i, maxGap)
  }

  lemma MergeRound(out: seq<Seg>, segments: seq<Seg>, i: nat, maxGap: real)
    requires out != [] && i < |segments| && Mergeable(out[|out| - 1], segments[i], maxGap)
    ensures Outcome(out[|out| - 1 := Merged(out[|out| - 1], segments[i])], segments, i + 1, maxGap)
         == Outcome(out, segments, i, maxGap)
  {
    var n := |out| - 1;
    assert out[n := Merged(out[n], segments[i])][..n] == out[..n];
  }

  lemma AppendRound(out: seq<Seg>, segments: seq<Seg>, i: nat, maxGap: real)
    requires out != [] && i < |segments| && !Mergeable(out[|out| - 1], segments[i], maxGap)
    ensures Outcome(out + [segments[i]], segments, i + 1, maxGap) == Outcome(out, segments, i, maxGap)
  {
    var n := |out| - 1;
    assert (out + [segments[i]])[..n + 1] == out && out == out[..n] + [out[n]];
    Regroup(out[..n], out[n], GroupAt(segments[i], segments, i + 1, maxGap));
  }

  lemma FirstRound(segments: seq<Seg>, maxGap: real)
    requires segments != []
    ensures Outcome([segments[0]], segments, 1, maxGap) == Grouped(segments, maxGap)
  {
    GroupAtIsGroupFrom(segments[0], segments, 1, maxGap);
    assert [segments[0]][..0] == [];
  }

  lemma LastRound(out: seq<Seg>, segments: seq<Seg>, maxGap: real)
    requires out != []
    ensures Outcome(out, segments, |segments|, maxGap) == out
  {}

  method GroupConsecutiveSpeakerSegments(segments: seq<Seg>, maxGap: real) returns (out: seq<Seg>)
    ensures out == Grouped(segments, maxGap)
  {
    if segments == [] { return []; }
    out := [segments[0]];
    FirstRound(segments, maxGap);
    for i := 1 to |segments|
      invariant out != [] && Outcome(out, segments, i, maxGap) == Grouped(segments, maxGap)
    {
      var seg := segments[i];
      var last := out[|out| - 1];
      if Mergeable(last, seg, maxGap) {
        MergeRound(out, segments, i, maxGap);
        out := out[|out| - 1 := Merged(last, seg)];
      } else {
        AppendRound(out, segments, i, maxGap);
        out := out + [seg];
      }
    }
    LastRound(out, segments, maxGap);
  }

  // ----- A group is a run of segments ---------------------------------------------------

  function AllWords(run: seq<Seg>): seq<string> {
    if run == [] then [] else Words(Text(run[0])) + AllWords(run[1..])
  }

  /** The last end anybody in the run gives. */
  function LastEnd(run: seq<Seg>): Time {
    if run == [] then Missing
    else
      var later := LastEnd(run[1..]);
      if later.Missing? then run[0].end else later
  }

  /** Where a run of segments ends; null when several give no end. */
  function EndOf(run: seq<Seg>): Time {
    if LastEnd(run).Missing? && |run| > 1 then Malformed else LastEnd(run)
  }

  /** The stripped texts that are not blank, with single spaces between them. */
  function Spoken(run: seq<Seg>): string {
    if run == [] then ""
    else
      var before, text := Spoken(run[..|run| - 1]), Strip(Text(run[|run| - 1]));
      if before == "" then text else if text == "" then before else before + " " + text
  }

  /** One speaker, from the start of the first segment to the last end given. */
  ghost predicate Spans(g: Seg, run: seq<Seg>) {
    && run != []
    && g.start == run[0].start
    && (forall i | 0 <= i < |run| :: run[i].speaker == g.speaker)
    && g.end == EndOf(run)
  }

  /** The texts joined, with all their words; a segment alone stays as it is. */
  ghost predicate Tells(g: Seg, run: seq<Seg>) {
    && run != []
    && (if |run| == 1 then g == run[0] else g.text == Some(Spoken(run)))
    && Words(Text(g)) == AllWords(run)
  }

  /** What one output group says about the run of input segments it stands for. */
  ghost predicate StandsFor(g: Seg, run: seq<Seg>) {
    Spans(g, run) && Tells(g, run)
  }

  /** The silence between an end and a start is shorter than `maxGap`; an absent time counts as zero, and null is no time. */
  predicate Bridged(end: Time, start: Time, maxGap: real) {
    match (end, start)
    case (At(e), At(s)) => s - e < maxGap
    case (At(e), Missing) => 0.0 - e < maxGap
    case (Missing, At(s)) => s < maxGap
    case (Missing, Missing) => 0.0 < maxGap
    case _ => false
  }

  /** Each segment of the run starts before the silence after those before it gets too long. */
  ghost predicate Unbroken(run: seq<Seg>, maxGap: real) {
    forall k | 1 <= k < |run| :: Bridged(EndOf(run[..k]), run[k].start, maxGap)
  }

  /** Between two groups of one speaker the silence is too long. */
  ghost predicate KeptApart(groups: seq<Seg>, maxGap: real) {
    forall i | 0 <= i < |groups| - 1 ::
      groups[i].speaker == groups[i + 1].speaker ==> !Bridged(groups[i].end, groups[i + 1].start, maxGap)
  }

  lemma MergeableIff(last: Seg, next: Seg, maxGap: real)
    ensures Mergeable(last, next, maxGap) <==> last.speaker == next.speaker && Bridged(last.end, next.start, maxGap)
  {}

  function Flat(runs: seq<seq<Seg>>): seq<Seg> {
    if runs == [] then [] else runs[0] + Flat(runs[1..])
  }

  lemma {:induction false} AllWordsAppend(a: seq<Seg>, b: seq<Seg>)
    ensures AllWords(a + b) == AllWords(a) + AllWords(b)
  {
    if a == [] {
      assert a + b == b;
    } else {
      assert (a + b)[1..] == a[1..] + b;
      AllWordsAppend(a[1..], b);
    }
  }

  lemma {:induction false} LastEndSnoc(run: seq<Seg>, next: Seg)
    ensures LastEnd(run + [next]) == if next.end.Missing? then LastEnd(run) else next.end
  {
    if run == [] {
      assert (run + [next])[1..] == [];
    } else {
      assert (run + [next])[1..] == run[1..] + [next];
      LastEndSnoc(run[1..], next);
    }
  }

  lemma MergeKeepsWords(a: string, b: string)
    ensures Words(Strip(RStrip(a) + " " + LStrip(b))) == Words(a) + Words(b)
  {
    var c := " " + LStrip(b);
    assert RStrip(a) + " " + LStrip(b) == RStrip(a) + c;
    WordsOfStrip(RStrip(a) + c);
    WordsAppend(RStrip(a), c);
    assert c[1..] == LStrip(b);
    WordsOfRStrip(a);
    WordsOfLStrip(b);
  }

  lemma {:induction false} SpokenIsStripped(run: seq<Seg>)
    ensures Stripped(Spoken(run))
    decreases run
  {
    if run != [] {
      var before, text := Spoken(run[..|run| - 1]), Strip(Text(run[|run| - 1]));
      SpokenIsStripped(run[..|run| - 1]);
      if before != "" && text != "" {
        assert (before + " " + text)[0] == before[0] && (before + " " + text)[|before| + |text|] == text[|text| - 1];
      }
    }
  }

  /** The merged text, from the text of a group and of the segment that joins it. */
  lemma SpokenGrows(g: Seg, run: seq<Seg>, next: Seg)
    requires run != [] && if |run| == 1 then g == run[0] else g.text == Some(Spoken(run))
    ensures Merged(g, next).text == Some(Spoken(run + [next]))
  {
    assert (run + [next])[..|run|] == run;
    SpokenIsStripped(run);
    StripOfStripped(Spoken(run));
    if |run| == 1 { assert run[..0] == [] && Spoken(run) == Strip(Text(g)); }
    StripOfSeam(Text(g), Text(next));
  }

  lemma UnbrokenGrows(run: seq<Seg>, next: Seg, maxGap: real)
    requires Unbroken(run, maxGap) && Bridged(EndOf(run), next.start, maxGap)
    ensures Unbroken(run + [next], maxGap)
  {
    forall k | 1 <= k < |run + [next]| ensures Bridged(EndOf((run + [next])[..k]), (run + [next])[k].start, maxGap) {
      assert (run + [next])[..k] == run[..k] && run[..|run|] == run;
    }
  }

  lemma TellsGrow(g: Seg, run: seq<Seg>, next: Seg)
    requires Tells(g, run)
    ensures Tells(Merged(g, next), run + [next])
  {
    AllWordsAppend(run, [next]);
    assert [next][1..] == [];
    MergeKeepsWords(Text(g), Text(next));
    SpokenGrows(g, run, next);
  }

  lemma SpansGrow(g: Seg, run: seq<Seg>, next: Seg)
    requires Spans(g, run) && next.speaker == g.speaker
    ensures Spans(Merged(g, next), run + [next])
  {
    LastEndSnoc(run, next);
  }

  /** One more segment joins a run. */
  lemma RunGrows(g: Seg, run: seq<Seg>, next: Seg, maxGap: real)
    requires StandsFor(g, run) && Unbroken(run, maxGap) && Mergeable(g, next, maxGap)
    ensures StandsFor(Merged(g, next), run + [next]) && Unbroken(run + [next], maxGap)
  {
    SpansGrow(g, run, next);
    TellsGrow(g, run, next);
    MergeableIff(g, next, maxGap);
    UnbrokenGrows(run, next, maxGap);
  }

  ghost predicate StandForAll(groups: seq<Seg>, runs: seq<seq<Seg>>, maxGap: real) {
    |groups| == |runs| && forall i | 0 <= i < |groups| :: StandsFor(groups[i], runs[i]) && Unbroken(runs[i], maxGap)
  }

  lemma OneMoreRun(run: seq<Seg>, more: seq<seq<Seg>>, g: Seg, groups: seq<Seg>, maxGap: real)
    requires StandsFor(g, run) && Unbroken(run, maxGap) && StandForAll(groups, more, maxGap)
    ensures Flat([run] + more) == run + Flat(more) && StandForAll([g] + groups, [run] + more, maxGap)
  {
    assert ([run] + more)[1..] == more;
  }

  /** The next segment joins the run, which the rest of the groups then continue. */
  lemma JoinsRun(run: seq<Seg>, rest: seq<Seg>)
    requires rest != []
    ensures run + [rest[0]] + rest[1..] == run + rest
  {}

  /** The next segment starts a run of its own. */
  lemma StartsRun(g: Seg, run: seq<Seg>, rest: seq<Seg>, more: seq<seq<Seg>>, maxGap: real)
    requires StandsFor(g, run) && Unbroken(run, maxGap) && rest != [] && !Mergeable(g, rest[0], maxGap)
    requires Flat(more) == [rest[0]] + rest[1..] && StandForAll(GroupFrom(rest[0], rest[1..], maxGap), more, maxGap)
    ensures Flat([run] + more) == run + rest && StandForAll(GroupFrom(g, rest, maxGap), [run] + more, maxGap)
  {
    OneMoreRun(run, more, g, GroupFrom(rest[0], rest[1..], maxGap), maxGap);
    assert [rest[0]] + rest[1..] == rest;
  }

  lemma {:induction false} GroupFromPartitions(g: Seg, run: seq<Seg>, rest: seq<Seg>, maxGap: real)
    returns (runs: seq<seq<Seg>>)
    requires StandsFor(g, run) && Unbroken(run, maxGap)
    ensures Flat(runs) == run + rest && StandForAll(GroupFrom(g, rest, maxGap), runs, maxGap)
    decreases rest
  {
    if rest == [] {
      OneMoreRun(run, [], g, [], maxGap);
      runs := [run];
    } else if Mergeable(g, rest[0], maxGap) {
      RunGrows(g, run, rest[0], maxGap);
      runs := GroupFromPartitions(Merged(g, rest[0]), run + [rest[0]], rest[1..], maxGap);
      JoinsRun(run, rest);
    } else {
      SingleRun(rest[0], maxGap);
      var more := GroupFromPartitions(rest[0], [rest[0]], rest[1..], maxGap);
      runs := [run] + more;
      StartsRun(g, run, rest, more, maxGap);
    }
  }

  lemma SingleRun(g: Seg, maxGap: real)
    ensures StandsFor(g, [g]) && Unbroken([g], maxGap)
  {
    assert [g][1..] == [] && LastEnd([g]) == g.end;
  }

  /** The groups stand for consecutive runs of the segments, and no two neighbours could be one group. */
  ghost predicate Partitions(groups: seq<Seg>, segments: seq<Seg>, runs: seq<seq<Seg>>, maxGap: real) {
    Flat(runs) == segments && StandForAll(groups, runs, maxGap) && KeptApart(groups, maxGap)
  }

  /**
   * The groups partition the input into consecutive runs of one speaker: each starts with its
   * first segment, ends with the last end given in it, and says its texts in order. Exactly the
   * silences shorter than `maxGap` are bridged: those inside a run, not those between two
   * groups of one speaker.
   */
  lemma GroupsPartition(segments: seq<Seg>, maxGap: real)
    ensures exists runs :: Partitions(Grouped(segments, maxGap), segments, runs, maxGap)
  {
    if segments == [] {
      assert Partitions(Grouped(segments, maxGap), segments, [], maxGap);
    } else {
      SingleRun(segments[0], maxGap);
      var runs := GroupFromPartitions(segments[0], [segments[0]], segments[1..], maxGap);
      assert [segments[0]] + segments[1..] == segments;
      GroupsAreApart(segments, maxGap);
      assert Partitions(Grouped(segments, maxGap), segments, runs, maxGap);
    }
  }

  lemma GroupsAreApart(segments: seq<Seg>, maxGap: real)
    requires segments != []
    ensures KeptApart(Grouped(segments, maxGap), maxGap)
  {
    var groups := Grouped(segments, maxGap);
    GroupFromSettles(segments[0], segments[1..], maxGap);
    forall i | 0 <= i < |groups| - 1 && groups[i].speaker == groups[i + 1].speaker
      ensures !Bridged(groups[i].end, groups[i + 1].start, maxGap)
    {
      MergeableIff(groups[i], groups[i + 1], maxGap);
    }
  }

  predicate Timed(segments: seq<Seg>) {
    forall i | 0 <= i < |segments| :: segments[i].start.At? && segments[i].end.At?
  }

  lemma {:induction false} TimedEnd(run: seq<Seg>)
    requires run != [] && Timed(run)
    ensures EndOf(run) == LastEnd(run) == run[|run| - 1].end
    decreases run
  {
    if |run| > 1 { TimedEnd(run[1..]); }
  }

  lemma {:induction false} TimedRuns(segments: seq<Seg>, runs: seq<seq<Seg>>)
    requires Timed(segments) && Flat(runs) == segments
    ensures forall i | 0 <= i < |runs| :: Timed(runs[i])
    decreases runs
  {
    if runs != [] {
      var rest := Flat(runs[1..]);
      forall k | 0 <= k < |runs[0]| ensures segments[k] == runs[0][k] {}
      forall k | 0 <= k < |rest| ensures segments[|runs[0]| + k] == rest[k] {}
      TimedRuns(rest, runs[1..]);
      forall i | 0 <= i < |runs| ensures Timed(runs[i]) { if i > 0 { assert runs[i] == runs[1..][i - 1]; } }
    }
  }

  /** Within a run each segment starts less than `maxGap` after the end of the one before it. */
  predicate ShortSilences(run: seq<Seg>, maxGap: real)
    requires Timed(run)
  {
    forall k, m | 0 <= k < |run| && 0 <= m < |run| && m == k + 1 :: run[m].start.seconds - run[k].end.seconds < maxGap
  }

  /** Two neighbours of one speaker are at least `maxGap` apart. */
  predicate LongSilences(groups: seq<Seg>, maxGap: real)
    requires Timed(groups)
  {
    forall i, k | 0 <= i < |groups| && 0 <= k < |groups| && k == i + 1 && groups[i].speaker == groups[k].speaker ::
      groups[k].start.seconds - groups[i].end.seconds >= maxGap
  }

  lemma TimedUnbroken(run: seq<Seg>, maxGap: real)
    requires Timed(run) && Unbroken(run, maxGap)
    ensures ShortSilences(run, maxGap)
  {
    forall k, m | 0 <= k < |run| && 0 <= m < |run| && m == k + 1
      ensures run[m].start.seconds - run[k].end.seconds < maxGap
    {
      TimedEnd(run[..m]);
      assert Bridged(EndOf(run[..m]), run[m].start, maxGap);
    }
  }

  /** In seconds, as stored transcriptions give every time. */
  lemma StoredSilences(segments: seq<Seg>, runs: seq<seq<Seg>>, maxGap: real)
    requires Timed(segments) && Partitions(Grouped(segments, maxGap), segments, runs, maxGap)
    ensures Timed(Grouped(segments, maxGap)) && LongSilences(Grouped(segments, maxGap), maxGap)
    ensures forall i | 0 <= i < |runs| :: Timed(runs[i]) && ShortSilences(runs[i], maxGap)
  {
    TimedRuns(segments, runs);
    forall i | 0 <= i < |runs| ensures ShortSilences(runs[i], maxGap) {
      assert Timed(runs[i]) && Unbroken(runs[i], maxGap);
      TimedUnbroken(runs[i], maxGap);
    }
    var groups := Grouped(segments, maxGap);
    forall i | 0 <= i < |groups| ensures groups[i].start.At? && groups[i].end.At? {
      assert StandsFor(groups[i], runs[i]) && Timed(runs[i]);
      TimedEnd(runs[i]);
    }
  }

  /** No word is lost, added or moved. */
  lemma {:induction false} RunsKeepWords(groups: seq<Seg>, runs: seq<seq<Seg>>, maxGap: real)
    requires StandForAll(groups, runs, maxGap)
    ensures AllWords(groups) == AllWords(Flat(runs))
    decreases groups
  {
    if groups != [] {
      assert StandsFor(groups[0], runs[0]);
      RunsKeepWords(groups[1..], runs[1..], maxGap);
      AllWordsAppend(runs[0], Flat(runs[1..]));
    }
  }

  lemma GroupingKeepsWords(segments: seq<Seg>, maxGap: real)
    ensures AllWords(Grouped(segments, maxGap)) == AllWords(segments)
  {
    GroupsPartition(segments, maxGap);
    var runs :| Partitions(Grouped(segments, maxGap), segments, runs, maxGap);
    RunsKeepWords(Grouped(segments, maxGap), runs, maxGap);
  }

  // ----- Nothing is left to merge -------------------------------------------------------

  ghost predicate Settled(groups: seq<Seg>, maxGap: real) {
    forall i | 0 <= i < |groups| - 1 :: !Mergeable(groups[i], groups[i + 1], maxGap)
  }

  lemma {:induction false} GroupFromSettles(last: Seg, rest: seq<Seg>, maxGap: real)
    ensures Settled(GroupFrom(last, rest, maxGap), maxGap)
    decreases rest
  {
    if rest != [] {
      if Mergeable(last, rest[0], maxGap) {
        GroupFromSettles(Merged(last, rest[0]), rest[1..], maxGap);
      } else {
        GroupFromSettles(rest[0], rest[1..], maxGap);
        var more := GroupFrom(rest[0], rest[1..], maxGap);
        assert GroupFrom(last, rest, maxGap) == [last] + more;
      }
    }
  }

  lemma {:induction false} SettledStays(groups: seq<Seg>, maxGap: real)
    requires Settled(groups, maxGap)
    ensures Grouped(groups, maxGap) == groups
    decreases groups
  {
    if |groups| > 1 {
      var rest := groups[1..];
      forall i | 0 <= i < |rest| - 1 ensures !Mergeable(rest[i], rest[i + 1], maxGap) {
        assert rest[i] == groups[i + 1] && rest[i + 1] == groups[i + 2];
      }
      SettledStays(rest, maxGap);
      assert !Mergeable(groups[0], groups[0 + 1], maxGap);
    }
  }

  /** No two neighbours of the result can be merged, so grouping again changes nothing. */
  lemma GroupingIsIdempotent(segments: seq<Seg>, maxGap: real)
    ensures Settled(Grouped(segments, maxGap), maxGap)
    ensures Grouped(Grouped(segments, maxGap), maxGap) == Grouped(segments, maxGap)
  {
    if segments != [] { GroupFromSettles(segments[0], segments[1..], maxGap); }
    SettledStays(Grouped(segments, maxGap), maxGap);
  }

  // ----- Moving the whole session in time -----------------------------------------------

  function Later(t: Time, delta: real): Time {
    if t.At? then At(t.seconds + delta) else t
  }

  function Moved(g: Seg, delta: real): Seg {
    g.(start := Later(g.start, delta), end := Later(g.end, delta))
  }

  function AllMoved(segments: seq<Seg>, delta: real): (r: seq<Seg>)
    ensures |r| == |segments|
  {
    if segments == [] then [] else [Moved(segments[0], delta)] + AllMoved(segments[1..], delta)
  }

  /** The open group after the next segment. */
  function Open(last: Seg, next: Seg, maxGap: real): Seg {
    if Mergeable(last, next, maxGap) then Merged(last, next) else next
  }

  /** Which segments join the group before them. */
  function Joins(last: Seg, rest: seq<Seg>, maxGap: real): seq<bool>
    decreases rest
  {
    if rest == [] then []
    else [Mergeable(last, rest[0], maxGap)] + Joins(Open(last, rest[0], maxGap), rest[1..], maxGap)
  }

  /** If two times are compared, both are given or both are absent. */
  predicate Alike(last: Seg, next: Seg) {
    Comparable(last, next) ==> (last.end.Missing? <==> next.start.Missing?)
  }

  /** That holds for every comparison the grouping makes. */
  predicate Anchored(last: Seg, rest: seq<Seg>, maxGap: real)
    decreases rest
  {
    rest == [] || (Alike(last, rest[0]) && Anchored(Open(last, rest[0], maxGap), rest[1..], maxGap))
  }

  lemma StepMoves(last: Seg, next: Seg, maxGap: real, delta: real)
    requires Alike(last, next)
    ensures Mergeable(Moved(last, delta), Moved(next, delta), maxGap) == Mergeable(last, next, maxGap)
    ensures Open(Moved(last, delta), Moved(next, delta), maxGap) == Moved(Open(last, next, maxGap), delta)
  {}

  /** A shift by which comparing a given with an absent time comes out differently. */
  lemma StepFlips(last: Seg, next: Seg, maxGap: real) returns (delta: real)
    requires !Alike(last, next)
    ensures Mergeable(Moved(last, delta), Moved(next, delta), maxGap) != Mergeable(last, next, maxGap)
  {
    var gap := Seconds(next.start) - Seconds(last.end);
    var flip := if gap < maxGap then maxGap - gap else maxGap - gap - 1.0;
    delta := if last.end.Missing? then flip else -flip;
  }

  lemma AllMovedStep(rest: seq<Seg>, delta: real)
    requires rest != []
    ensures AllMoved(rest, delta) != [] && AllMoved(rest, delta)[0] == Moved(rest[0], delta)
    ensures AllMoved(rest, delta)[1..] == AllMoved(rest[1..], delta)
  {}

  lemma {:induction false} AnchoredJoins(last: Seg, rest: seq<Seg>, maxGap: real, delta: real)
    requires Anchored(last, rest, maxGap)
    ensures Joins(Moved(last, delta), AllMoved(rest, delta), maxGap) == Joins(last, rest, maxGap)
    decreases rest
  {
    if rest != [] {
      AllMovedStep(rest, delta);
      StepMoves(last, rest[0], maxGap, delta);
      AnchoredJoins(Open(last, rest[0], maxGap), rest[1..], maxGap, delta);
    }
  }

  lemma AllMovedCons(g: Seg, rest: seq<Seg>, delta: real)
    ensures AllMoved([g] + rest, delta) == [Moved(g, delta)] + AllMoved(rest, delta)
  {
    assert ([g] + rest)[1..] == rest;
  }

  lemma {:induction false} AnchoredMoves(last: Seg, rest: seq<Seg>, maxGap: real, delta: real)
    requires Anchored(last, rest, maxGap)
    ensures GroupFrom(Moved(last, delta), AllMoved(rest, delta), maxGap) == AllMoved(GroupFrom(last, rest, maxGap), delta)
    decreases rest
  {
    if rest == [] {
      AllMovedCons(last, [], delta);
    } else {
      AllMovedStep(rest, delta);
      StepMoves(last, rest[0], maxGap, delta);
      AnchoredMoves(Open(last, rest[0], maxGap), rest[1..], maxGap, delta);
      AllMovedCons(last, GroupFrom(rest[0], rest[1..], maxGap), delta);
    }
  }

  lemma JoinsStep(last: Seg, rest: seq<Seg>, maxGap: real)
    requires rest != []
    ensures Joins(last, rest, maxGap) != [] && Joins(last, rest, maxGap)[0] == Mergeable(last, rest[0], maxGap)
    ensures Joins(last, rest, maxGap)[1..] == Joins(Open(last, rest[0], maxGap), rest[1..], maxGap)
  {}

  lemma {:induction false} UnanchoredShift(last: Seg, rest: seq<Seg>, maxGap: real) returns (delta: real)
    requires !Anchored(last, rest, maxGap)
    ensures Joins(Moved(last, delta), AllMoved(rest, delta), maxGap) != Joins(last, rest, maxGap)
    decreases rest
  {
    if !Alike(last, rest[0]) {
      delta := StepFlips(last, rest[0], maxGap);
    } else {
      delta := UnanchoredShift(Open(last, rest[0], maxGap), rest[1..], maxGap);
      StepMoves(last, rest[0], maxGap, delta);
    }
    AllMovedStep(rest, delta);
    JoinsStep(last, rest, maxGap);
    JoinsStep(Moved(last, delta), AllMoved(rest, delta), maxGap);
  }

  ghost predicate JoinsStay(segments: seq<Seg>, maxGap: real, delta: real)
    requires segments != []
  {
    Joins(Moved(segments[0], delta), AllMoved(segments[1..], delta), maxGap) == Joins(segments[0], segments[1..], maxGap)
  }

  /**
   * Moving a session in time leaves the grouping as it is, for every shift, exactly when no
   * given time is ever compared with an absent one.
   */
  lemma ShiftKeepsGroupingIff(segments: seq<Seg>, maxGap: real)
    requires segments != []
    ensures (forall delta :: JoinsStay(segments, maxGap, delta)) <==> Anchored(segments[0], segments[1..], maxGap)
  {
    if Anchored(segments[0], segments[1..], maxGap) {
      forall delta ensures JoinsStay(segments, maxGap, delta) {
        AnchoredJoins(segments[0], segments[1..], maxGap, delta);
      }
    } else {
      var delta := UnanchoredShift(segments[0], segments[1..], maxGap);
      assert !JoinsStay(segments, maxGap, delta);
    }
  }

  /** As long as no given time is compared with an absent one, grouping commutes with every shift. */
  lemma GroupingCommutesWithShift(segments: seq<Seg>, maxGap: real, delta: real)
    requires segments != [] ==> Anchored(segments[0], segments[1..], maxGap)
    ensures Grouped(AllMoved(segments, delta), maxGap) == AllMoved(Grouped(segments, maxGap), delta)
  {
    if segments != [] {
      AllMovedStep(segments, delta);
      AnchoredMoves(segments[0], segments[1..], maxGap, delta);
    }
  }

  /** Stored transcriptions give every time, so none is ever compared with an absent one. */
  lemma {:induction false} GivenTimesAreAnchored(last: Seg, rest: seq<Seg>, maxGap: real)
    requires last.end.At? && forall i | 0 <= i < |rest| :: rest[i].start.At? && rest[i].end.At?
    ensures Anchored(last, rest, maxGap)
    decreases rest
  {
    if rest != [] {
      GivenTimesAreAnchored(Open(last, rest[0], maxGap), rest[1..], maxGap);
    }
  }

  lemma StoredGroupingCommutesWithShift(segments: seq<Seg>, maxGap: real, delta: real)
    requires Timed(segments)
    ensures Grouped(AllMoved(segments, delta), maxGap) == AllMoved(Grouped(segments, maxGap), delta)
  {
    if segments != [] { GivenTimesAreAnchored(segments[0], segments[1..], maxGap); }
    GroupingCommutesWithShift(segments, maxGap, delta);
  }
}
