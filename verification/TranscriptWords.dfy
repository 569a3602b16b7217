/** From the segments of a transcription to the chunks of a non_diarised session (app/jobs/jdr.py): no word is lost. */
module TranscriptWords {
  import opened PyText
  import opened SessionModel
  import TextChunker

  /** The words of all segments, in order. */
  function Spoken(segments: seq<Segment>): seq<string> {
    if segments == [] then [] else Spoken(segments[..|segments| - 1]) + Words(segments[|segments| - 1].text)
  }

  lemma OneSpace(a: string, b: string)
    ensures Words(a + " " + b) == Words(a) + Words(b)
  {
    var c := " " + b;
    assert a + " " + b == a + c && c[1..] == b;
    WordsAppend(a, c);
  }

  /** Joining the stripped, non-empty texts keeps every word. */
  lemma {:induction false} JoinedKeepsWords(segments: seq<Segment>)
    ensures Words(Joined(segments)) == Spoken(segments)
    decreases segments
  {
    if segments != [] {
      var before, last := segments[..|segments| - 1], segments[|segments| - 1];
      JoinedKeepsWords(before);
      WordsOfStrip(last.text);
      var text := Strip(last.text);
      if text != "" && Joined(before) != "" { OneSpace(Joined(before), text); }
    }
  }

  /** The characters of the stripped, non-empty texts, with one more for each of them. */
  function Room(segments: seq<Segment>): nat {
    if segments == [] then 0
    else
      var text := Strip(segments[|segments| - 1].text);
      Room(segments[..|segments| - 1]) + if text == "" then 0 else |text| + 1
  }

  /** There is exactly one character between two texts. */
  lemma {:induction false} JoinedFits(segments: seq<Segment>)
    ensures if Joined(segments) == "" then Room(segments) == 0 else |Joined(segments)| + 1 == Room(segments)
    decreases segments
  {
    if segments != [] { JoinedFits(segments[..|segments| - 1]); }
  }

  function Texts(chunks: seq<Chunk>): seq<string> {
    seq(|chunks|, i requires 0 <= i < |chunks| => chunks[i].text)
  }

  /** The transcription of a session without chunks is committed, as the chunks of the joined text. */
  lemma CommitsChunks(s: Sys, segments: seq<Segment>)
    requires s.row.chunks == []
    ensures var done := TranscriptCommitted(s, NonDiarised, segments);
            done.Some? && Texts(done.value.row.chunks) == TextChunker.Chunks(Joined(segments), s.chunkMax)
  {}

  /**
   * The chunks a transcription leaves say every word of its segments, whole and in order, if no
   * stretch of the joined text is too tight for a boundary; and, however the gaps between them
   * are chosen, exactly when none is empty.
   */
  lemma ChunksSayTranscript(s: Sys, segments: seq<Segment>)
    requires s.row.chunks == []
    ensures var done := TranscriptCommitted(s, NonDiarised, segments); var text := Strip(Joined(segments));
            && done.Some?
            && ((forall i: nat :: !TextChunker.Tight(text, i, s.chunkMax)) ==>
                  TextChunker.AllWords(Texts(done.value.row.chunks)) == Spoken(segments))
            && forall gaps | TextChunker.Decomposes(text, Texts(done.value.row.chunks), gaps, s.chunkMax) ::
                 TextChunker.AllWords(Texts(done.value.row.chunks)) == Spoken(segments) <==> "" !in gaps
  {
    var text := Joined(segments);
    CommitsChunks(s, segments);
    JoinedKeepsWords(segments);
    if forall i: nat :: !TextChunker.Tight(Strip(text), i, s.chunkMax) {
      TextChunker.WordsSurviveWithoutTightStretch(text, s.chunkMax);
    }
    forall gaps | TextChunker.Decomposes(Strip(text), TextChunker.Chunks(text, s.chunkMax), gaps, s.chunkMax)
      ensures TextChunker.AllWords(TextChunker.Chunks(text, s.chunkMax)) == Words(text) <==> "" !in gaps
    {
      TextChunker.WordsSurviveIffNoGapEmpty(text, s.chunkMax, gaps);
    }
  }

  lemma {:induction false} JoinedIsPlain(segments: seq<Segment>)
    requires forall i | 0 <= i < |segments| :: TextChunker.Plain(segments[i].text)
    ensures TextChunker.Plain(Joined(segments))
    decreases segments
  {
    if segments != [] {
      JoinedIsPlain(segments[..|segments| - 1]);
      TextChunker.StripIsPlain(segments[|segments| - 1].text);
    }
  }

  /** For segments without tabs and line breaks: if and only if no spoken word is longer than a chunk may be. */
  lemma PlainTranscriptSurvivesIff(s: Sys, segments: seq<Segment>)
    requires s.row.chunks == [] && forall i | 0 <= i < |segments| :: TextChunker.Plain(segments[i].text)
    ensures var done := TranscriptCommitted(s, NonDiarised, segments);
            && done.Some?
            && (TextChunker.AllWords(Texts(done.value.row.chunks)) == Spoken(segments)
                <==> forall w | w in Spoken(segments) :: |w| <= s.chunkMax)
  {
    CommitsChunks(s, segments);
    JoinedKeepsWords(segments);
    JoinedIsPlain(segments);
    TextChunker.PlainWordsSurviveIff(Joined(segments), s.chunkMax);
  }

  /** A transcription without any word leaves no chunk. */
  lemma SilenceLeavesNoChunk(s: Sys, segments: seq<Segment>)
    requires s.row.chunks == [] && Spoken(segments) == []
    ensures var done := TranscriptCommitted(s, NonDiarised, segments);
            done.Some? && done.value.row.chunks == [] && done.value.row.state.Transcribed?
  {
    JoinedKeepsWords(segments);
    NoWordsIsBlank(Joined(segments));
    TextChunker.ChunksDecompose(Joined(segments), s.chunkMax);
  }

  lemma {:induction false} NoWordsIsBlank(text: string)
    requires Words(text) == []
    ensures Blank(text)
    decreases text
  {
    if text != "" {
      assert IsSpace(text[0]);
      NoWordsIsBlank(text[1..]);
      forall i | 0 <= i < |text| ensures IsSpace(text[i]) {
        if i > 0 { assert text[i] == text[1..][i - 1]; }
      }
    }
  }
}
