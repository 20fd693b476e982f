/** Where exactly once fails: a chunk cut at a risky place and committed whole, because its decoder reports no segment
    timings. A take gets there when the backend is switched while it records (src/application.rs:984-1037). */
module SlicedWords {
  import opened Wrappers
  import opened Numbers
  import opened Sequences
  import opened Text
  import opened Chunking
  import opened AudioBuffers
  import opened Recording
  import opened Dictation
  import opened ExactlyOnce

  /** A trusted answer to the chunk that leaves the committed text wrong. */
  ghost predicate Mangles(ws: seq<Word>, st: ChunkedDictation, job: ChunkJob, reply: Reply, freshId: nat, polish: Polish) {
    var frame := AtLeastOne(job.chunk.snapshot.channels);
    var (st', at) := Digested(st, job, reply, freshId, polish);
    && Timeline(ws, frame)
    && Committed(ws, st.results, job.chunk.regionStart, frame)
    && TrustedChunk(ws, job, reply)
    && at.Some? && !Committed(ws, st'.results, at.value, frame)
  }

  /** One word, begun just before the cut and ending after it. */
  function CrossingWord(chunk: ChunkCut): Word {
    Word((chunk.cut - 1) as real, (chunk.cut + AtLeastOne(chunk.snapshot.channels)) as real, "cut")
  }

  /** What a decoder without timings makes of it: one segment over the whole clip, with the part it could hear. */
  function WholeClip(chunk: ChunkCut): Outcome {
    Outcome(0, None, "c", "c", 0.0, false, [Segment(0, ToUnsigned(CutMs(chunk)), "c")], None, ChunkSecs(chunk))
  }

  /** Words that the audio before the chunk holds. */
  ghost predicate Settled(before: seq<Word>, chunk: ChunkCut) {
    var frame := AtLeastOne(chunk.snapshot.channels);
    && Timeline(before, frame) && Clean(before, chunk.regionStart, frame)
    && forall k :: 0 <= k < |before| ==> before[k].start < chunk.regionStart as real
  }

  lemma CrossingWordStartsLate(chunk: ChunkCut)
    requires GoodChunk(chunk)
    ensures (chunk.regionStart + AtLeastOne(chunk.snapshot.channels)) as real + 1.0 <= CrossingWord(chunk).start
  {
    var rate, c := chunk.snapshot.rate, AtLeastOne(chunk.snapshot.channels);
    assert c * (20 * rate) == 20 * (c * rate) && c * rate >= c by {
      AtLeastItself(c, rate);
    }
  }

  lemma CrossingWordIsSliced(before: seq<Word>, chunk: ChunkCut)
    requires GoodChunk(chunk) && Settled(before, chunk)
    ensures
      var ws, frame := before + [CrossingWord(chunk)], AtLeastOne(chunk.snapshot.channels);
      && Timeline(ws, frame) && Clean(ws, chunk.regionStart, frame)
      && Before(ws, chunk.regionStart as real) == |before| && Before(ws, chunk.cut as real) == |before| + 1
  {
    var ws := before + [CrossingWord(chunk)];
    CrossingWordStartsLate(chunk);
    BeforeIs(ws, chunk.regionStart as real, |before|);
    BeforeIs(ws, chunk.cut as real, |before| + 1);
  }

  /** The whole-clip answer keeps the contract of a risky cut: its segment reaches the guard and starts before the word
      it got wrong. */
  lemma WholeClipIsTrusted(before: seq<Word>, job: ChunkJob)
    requires GoodChunk(job.chunk) && Settled(before, job.chunk) && !job.chunk.verifiedQuiet
    ensures TrustedChunk(before + [CrossingWord(job.chunk)], job, Decoded(WholeClip(job.chunk)))
  {
    var chunk, o := job.chunk, WholeClip(job.chunk);
    var ws := before + [CrossingWord(chunk)];
    CrossingWordIsSliced(before, chunk);
    CrossingWordStartsLate(chunk);
    ChunkIsLong(chunk);
    assert FirstReaching(o.segments, CutMs(chunk) - TAIL_GUARD_MS) == Some(0);
    assert AllWords(SegmentTexts(o.segments[..0])) == [] == TextsOf(ws[|before|..|before|]);
    assert SamplesAt(0.0, chunk.snapshot.rate, chunk.snapshot.channels) == 0.0;
    assert HeardUpTo(ws, chunk, o.segments, 0, |before|);
  }

  lemma PartIsNotTheWord()
    ensures Words("c") == ["c"] && ["c"] != ["cut"]
  {
    assert "" + ['c'] == "c" && "c"[1..] == "";
    assert Words("c") == Split("c", "") == ["c"];
    assert "c"[0..] == "c" && |"c"| != |"cut"|;
    assert ["c"][0] != ["cut"][0];
  }

  /** The answer is committed whole. */
  lemma WholeClipIsKept(st: ChunkedDictation, job: ChunkJob, polish: Polish)
    requires GoodChunk(job.chunk) && !Guarded(job)
    ensures
      var o := WholeClip(job.chunk);
      Digested(st, job, Decoded(o), 0, polish) == (st.(results := st.results + [o]), Some(job.chunk.cut))
  {
    ChunkIsLong(job.chunk);
    CutCommitsWhole(job.chunk);
  }

  /** After what was committed before comes the part of the word, not the word. */
  lemma PartIsCommitted(before: seq<Word>, results: seq<Outcome>, chunk: ChunkCut)
    requires AllWords(RawTexts(results)) == TextsOf(before)
    ensures AllWords(RawTexts(results + [WholeClip(chunk)])) != TextsOf(before + [CrossingWord(chunk)])
  {
    WordsOfOneMore(results, WholeClip(chunk));
    PartIsNotTheWord();
    TextsOfConcat(before, [CrossingWord(chunk)]);
    assert Last(TextsOf(before) + ["c"]) != Last(TextsOf(before) + ["cut"]);
  }

  /** Any risky chunk whose decoder reports no timings can be mangled, whatever was committed before it. */
  lemma UnguardedIsMangled(before: seq<Word>, st: ChunkedDictation, job: ChunkJob, polish: Polish)
    requires GoodChunk(job.chunk) && !Guarded(job) && Settled(before, job.chunk)
    requires Committed(before, st.results, job.chunk.regionStart, AtLeastOne(job.chunk.snapshot.channels))
    ensures Mangles(before + [CrossingWord(job.chunk)], st, job, Decoded(WholeClip(job.chunk)), 0, polish)
  {
    var ws := before + [CrossingWord(job.chunk)];
    CrossingWordIsSliced(before, job.chunk);
    BeforeIs(before, job.chunk.regionStart as real, |before|);
    assert ws[..|before|] == before == before[..|before|] && ws[..|ws|] == ws;
    WholeClipIsTrusted(before, job);
    WholeClipIsKept(st, job, polish);
    PartIsCommitted(before, st.results, job.chunk);
  }

  lemma GuardedIsNotMangled(ws: seq<Word>, st: ChunkedDictation, job: ChunkJob, reply: Reply, freshId: nat, polish: Polish)
    requires GoodChunk(job.chunk) && Guarded(job)
    ensures !Mangles(ws, st, job, reply, freshId, polish)
  {
    if Mangles(ws, st, job, reply, freshId, polish) {
      DigestedIsExact(ws, st, job, reply, freshId, polish);
      assert false;
    }
  }

  lemma FirstChunkIsMangled(job: ChunkJob, polish: Polish)
    requires GoodChunk(job.chunk) && !Guarded(job)
    ensures
      Mangles([CrossingWord(job.chunk)], ChunkedDictation(0, [], false, false), job, Decoded(WholeClip(job.chunk)), 0, polish)
  {
    var frame, st := AtLeastOne(job.chunk.snapshot.channels), ChunkedDictation(0, [], false, false);
    BeforeIs([], job.chunk.regionStart as real, 0);
    assert Timeline([], frame) && Committed([], st.results, job.chunk.regionStart, frame);
    UnguardedIsMangled([], st, job, polish);
    assert [] + [CrossingWord(job.chunk)] == [CrossingWord(job.chunk)];
  }

  /** A chunk's commit is exact for every trusted answer if and only if its cut was verified quiet or its decoder reports
      timings, so that what the cut may have sliced is held back. */
  lemma MangledExactlyWhenUnguarded(job: ChunkJob, polish: Polish)
    requires GoodChunk(job.chunk)
    ensures Guarded(job) <==> forall ws, st, reply, freshId :: !Mangles(ws, st, job, reply, freshId, polish)
  {
    if Guarded(job) {
      forall ws, st, reply, freshId
        ensures !Mangles(ws, st, job, reply, freshId, polish)
      {
        GuardedIsNotMangled(ws, st, job, reply, freshId, polish);
      }
    } else {
      FirstChunkIsMangled(job, polish);
    }
  }

  // ----- A run that gets there -----

  const RATE := 16_000
  const LOUD := 0.1

  /** Forty seconds of speech without a pause. */
  function LoudTake(): seq<real> {
    seq(40 * RATE, _ => LOUD)
  }

  /** The measure agrees with the root mean square on slices of one level. */
  ghost predicate MeasuresLoud(rms: Measure) {
    forall s :: s != [] && AllLoud(s) ==> rms(s) == LOUD
  }

  predicate AllLoud(s: seq<real>) {
    forall k :: 0 <= k < |s| ==> s[k] == LOUD
  }

  function LoudBuffer(): Buffer {
    Buffer(LoudTake(), 0, RATE, 1)
  }

  lemma LoudIsNeverVerified(rms: Measure, scan: Scan, choice: CutChoice)
    requires MeasuresLoud(rms) && scan.Valid() && scan.quietWindow > 0
    requires AllLoud(scan.region)
    requires ChosenCut(rms, scan, AnalyzedLevels(rms, scan.region, scan.frameLen)) == Some(choice)
    ensures !choice.verifiedQuiet
  {
    if choice.verifiedQuiet {
      var w := VerifiedWindow(rms, scan, AnalyzedLevels(rms, scan.region, scan.frameLen), choice);
      LoudSlice(rms, scan.region, w.start, w.start + scan.quietWindow);
      ThresholdIsLow(rms, scan.region, scan.frameLen);
      assert false;
    }
  }

  lemma ThresholdIsLow(rms: Measure, samples: seq<real>, frameLen: nat)
    ensures AnalyzedLevels(rms, samples, frameLen).silenceThreshold < LOUD
  {
  }

  lemma LoudSlice(rms: Measure, s: seq<real>, from: nat, to: nat)
    requires MeasuresLoud(rms) && AllLoud(s) && from < to <= |s|
    ensures rms(s[from..to]) == LOUD
  {
    assert AllLoud(s[from..to]);
  }

  lemma LoudTakeIsFull()
    ensures WorthScanning(LoudBuffer(), CHUNK_MIN_SECS, CHUNK_MAX_SECS)
    ensures |LoudTake()| >= WholeFrames(CHUNK_MAX_SECS, RATE, 1)
  {
    assert SomeFrames(CHUNK_QUIET_WINDOW_SECS, RATE, 1) <= 16_000;
    assert WholeFrames(CHUNK_MIN_SECS, RATE, 1) == 320_000 && WholeFrames(CHUNK_MAX_SECS, RATE, 1) == 640_000;
  }

  /** The longest region without a pause is cut where it is not verified quiet. */
  lemma LoudTakeIsCutAtRisk(rms: Measure)
    requires MeasuresLoud(rms)
    ensures
      var chunk := Peek(rms, LoudBuffer(), CHUNK_MIN_SECS, CHUNK_MAX_SECS);
      chunk.Some? && !chunk.value.verifiedQuiet
  {
    var b := LoudBuffer();
    var scan := ScanOf(b, CHUNK_MIN_SECS, CHUNK_MAX_SECS);
    LoudTakeIsFull();
    FullRegionIsCut(rms, b, CHUNK_MIN_SECS, CHUNK_MAX_SECS);
    LoudIsNeverVerified(rms, scan, ChosenCut(rms, scan, AnalyzedLevels(rms, b.raw, scan.frameLen)).value);
  }
}
