/** The promise of chunked dictation: whatever is spoken appears in the final transcript exactly once
    and in order, however pushes, peeks, replies, failures, retries and other takes interleave.

    The words of a take are given with their positions on the take's own sample timeline. A decoder is
    trusted only with what a decoder can know: it is faithful away from a risky cut, and it reports a
    segment reaching the guard zone when a word does. */
module ExactlyOnce {
  import opened Wrappers
  import opened Numbers
  import opened Sequences
  import opened Text
  import opened Chunking
  import opened AudioBuffers
  import opened Recording
  import opened Dictation

  /** A spoken word; positions are in interleaved samples since the start of the take. */
  datatype Word = Word(start: real, end: real, text: string)

  /** Words are ordered and disjoint, and each lasts at least one source frame. */
  ghost predicate Timeline(ws: seq<Word>, frame: nat) {
    && (forall k :: 0 <= k < |ws| ==> 0.0 <= ws[k].start && ws[k].start + frame as real <= ws[k].end)
    && (forall j, k :: 0 <= j < k < |ws| ==> ws[j].end <= ws[k].start)
  }

  function TextsOf(ws: seq<Word>): seq<string> {
    if ws == [] then [] else [ws[0].text] + TextsOf(ws[1..])
  }

  /** How many words start before `x`. */
  function Before(ws: seq<Word>, x: real): (n: nat)
    ensures n <= |ws|
    ensures forall k :: 0 <= k < n ==> ws[k].start < x
    ensures n < |ws| ==> ws[n].start >= x
  {
    if ws == [] || ws[0].start >= x then 0 else 1 + Before(ws[1..], x)
  }

  lemma BeforeIs(ws: seq<Word>, x: real, n: nat)
    requires n <= |ws|
    requires forall k :: 0 <= k < n ==> ws[k].start < x
    requires n < |ws| ==> ws[n].start >= x
    ensures Before(ws, x) == n
  {
  }

  /** No word crosses the mark by more than one frame. */
  ghost predicate Clean(ws: seq<Word>, mark: nat, frame: nat) {
    forall k :: 0 <= k < |ws| && ws[k].start < mark as real ==> ws[k].end <= (mark + frame) as real
  }

  /** The results hold exactly the words that start before the mark. */
  ghost predicate Committed(ws: seq<Word>, results: seq<Outcome>, mark: nat, frame: nat) {
    && AllWords(RawTexts(results)) == TextsOf(ws[..Before(ws, mark as real)])
    && Clean(ws, mark, frame)
    && forall k :: 0 <= k < |results| ==> results[k].incomplete.None?
  }

  // ----- What decoders are trusted with -----

  /** A segment time of a chunk as a position on the take's timeline. */
  function At(chunk: ChunkCut, ms: real): real {
    chunk.regionStart as real + SamplesAt(ms, chunk.snapshot.rate, chunk.snapshot.channels)
  }

  /** Rounding a segment start to a sample may move it by half a sample, except at whole kilohertz. */
  function Slack(rate: nat): real {
    if rate % 1000 == 0 then 0.0 else 0.5
  }

  /** The first `n` words are heard before segment `h`, and `h` starts no later than the next word. */
  ghost predicate HeardUpTo(ws: seq<Word>, chunk: ChunkCut, segments: seq<Segment>, h: nat, n: nat) {
    var n0, n1 := Before(ws, chunk.regionStart as real), Before(ws, chunk.cut as real);
    && h < |segments| && n0 <= n <= n1
    && AllWords(SegmentTexts(segments[..h])) == TextsOf(ws[n0..n])
    && (forall k :: n0 <= k < n ==> exists j :: 0 <= j < h && ws[k].end <= At(chunk, segments[j].end as real))
    && (forall k :: n <= k < n1 ==> At(chunk, segments[h].start as real) + Slack(chunk.snapshot.rate) <= ws[k].start)
  }

  /** Fully faithful: the text holds the words of the region, and none crosses the cut. */
  ghost predicate Faithful(ws: seq<Word>, chunk: ChunkCut, rawText: string) {
    var n0, n1 := Before(ws, chunk.regionStart as real), Before(ws, chunk.cut as real);
    && n0 <= n1
    && Words(rawText) == TextsOf(ws[n0..n1])
    && forall k :: n0 <= k < n1 ==> ws[k].end <= chunk.cut as real
  }

  /** At a risky cut the decoder is faithful up to the guard: either no segment and no word reaches
      the guard, or the words before the first segment reaching it are heard. */
  ghost predicate FaithfulUpToGuard(ws: seq<Word>, chunk: ChunkCut, o: Outcome) {
    var held := FirstReaching(o.segments, CutMs(chunk) - TAIL_GUARD_MS);
    if held.None? then Faithful(ws, chunk, o.rawText)
    else exists n :: HeardUpTo(ws, chunk, o.segments, held.value, n)
  }

  /** The contract of a chunk decode, provided no word crosses the start of its region. What a decoder can be trusted
      with depends on the audio only: on whether the cut was verified quiet, not on which decoder it is. */
  ghost predicate TrustedChunk(ws: seq<Word>, job: ChunkJob, reply: Reply) {
    Clean(ws, job.chunk.regionStart, AtLeastOne(job.chunk.snapshot.channels)) ==>
      match reply
      case Decoded(o) =>
        && o.incomplete.None?
        && o.durationSecs == ChunkSecs(job.chunk)
        && if job.chunk.verifiedQuiet then Faithful(ws, job.chunk, o.rawText) else FaithfulUpToGuard(ws, job.chunk, o)
      case NoSpeech(_) => Before(ws, job.chunk.cut as real) == Before(ws, job.chunk.regionStart as real)
      case _ => true
  }

  /** The contract of a tail decode: all words from the mark on. */
  ghost predicate TrustedTail(ws: seq<Word>, take: RetryTake, reply: Reply) {
    var mark := |take.drained|;
    Clean(ws, mark, AtLeastOne(take.audio.channels)) ==>
      match reply
      case Decoded(o) => o.incomplete.None? && Words(o.rawText) == TextsOf(ws[Before(ws, mark as real)..])
      case NoSpeech(_) => Before(ws, mark as real) == |ws|
      case _ => true
  }

  /** The words of every take, by the generation that recorded it. */
  type Truth = nat -> seq<Word>

  /** An event respects the contracts: microphones report a positive rate and carry the take's words,
      and decoders reply as trusted. */
  ghost predicate Trusted(truth: Truth, s: App, e: Event) {
    match e
    case Start(mic, _) =>
      CanAcquire(s, Mini) && mic.Opened? ==> mic.rate > 0 && Timeline(truth(s.generation + 1), AtLeastOne(mic.channels))
    case ChunkReply(i, reply, _) =>
      i < |s.chunkJobs| ==> TrustedChunk(truth(s.chunkJobs[i].generation), s.chunkJobs[i], reply)
    case TakeReply(i, reply) =>
      i < |s.takeJobs| ==> TrustedTail(truth(s.takeJobs[i].take.id), s.takeJobs[i].take, reply)
    case _ => true
  }

  ghost predicate TrustedRun(rms: Measure, polish: Polish, truth: Truth, s: App, events: seq<Event>)
    decreases |events|
  {
    events != [] ==>
      Trusted(truth, s, events[0]) && TrustedRun(rms, polish, truth, Step(rms, polish, s, events[0]), events[1..])
  }

  /** A chunk whose commit waits for what it may have sliced, or that cannot have sliced anything. */
  predicate Guarded(job: ChunkJob) {
    job.chunk.verifiedQuiet || job.timed
  }

  /** A tick hands a chunk cut at a risky place to a decoder without segment timings. */
  predicate Risks(rms: Measure, s: App, e: Event) {
    && e.Tick? && !e.timed && MayChunk(s)
    && var chunk := Peek(rms, s.buffer, CHUNK_MIN_SECS, CHUNK_MAX_SECS);
       chunk.Some? && !chunk.value.verifiedQuiet
  }

  ghost predicate NeverRisks(rms: Measure, polish: Polish, s: App, events: seq<Event>)
    decreases |events|
  {
    events != [] ==> !Risks(rms, s, events[0]) && NeverRisks(rms, polish, Step(rms, polish, s, events[0]), events[1..])
  }

  // ----- What holds along a run -----

  ghost predicate TakeTrue(ws: seq<Word>, take: RetryTake) {
    var frame := AtLeastOne(take.audio.channels);
    Timeline(ws, frame) && Committed(ws, take.chunks, |take.drained|, frame)
  }

  /** A complete take holds all its words, each once, in order; an incomplete one a prefix of them. */
  ghost predicate ExactWords(ws: seq<Word>, o: Outcome) {
    if o.incomplete.None? then Words(o.rawText) == TextsOf(ws) else PrefixWords(ws, o)
  }

  ghost predicate PrefixWords(ws: seq<Word>, o: Outcome) {
    exists n :: 0 <= n <= |ws| && Words(o.rawText) == TextsOf(ws[..n])
  }

  /** The take being dictated: its committed text is a prefix of what was said. */
  ghost predicate DictationTrue(truth: Truth, s: App) {
    s.owner == Mini ==>
      && s.buffer.rate > 0
      && Timeline(truth(s.generation), AtLeastOne(s.buffer.channels))
      && (s.chunked.Some? ==>
            Committed(truth(s.generation), s.chunked.value.results, s.buffer.consumed, AtLeastOne(s.buffer.channels)))
  }

  ghost predicate TakesTrue(truth: Truth, s: App) {
    && (s.retryTake.Some? ==> TakeTrue(truth(s.retryTake.value.id), s.retryTake.value))
    && (forall i :: 0 <= i < |s.takeJobs| ==> TakeTrue(truth(s.takeJobs[i].take.id), s.takeJobs[i].take))
    && (forall i :: 0 <= i < |s.finished| ==> ExactWords(truth(s.finished[i].take.id), s.finished[i].outcome))
    && (forall i :: 0 <= i < |s.salvaged| ==> PrefixWords(truth(s.salvaged[i].take.id), s.salvaged[i].outcome))
  }

  ghost predicate AllGuarded(s: App) {
    forall i :: 0 <= i < |s.chunkJobs| ==> Guarded(s.chunkJobs[i])
  }

  ghost predicate AllTrue(truth: Truth, s: App) {
    Inv(s) && DictationTrue(truth, s) && TakesTrue(truth, s) && AllGuarded(s)
  }

  // ----- Committing a chunk -----

  lemma {:induction false} TextsOfConcat(a: seq<Word>, b: seq<Word>)
    ensures TextsOf(a + b) == TextsOf(a) + TextsOf(b)
  {
    if a == [] {
      assert a + b == b;
    } else {
      assert (a + b)[1..] == a[1..] + b;
      TextsOfConcat(a[1..], b);
    }
  }

  lemma TextsSplit(ws: seq<Word>, n0: nat, n1: nat)
    requires n0 <= n1 <= |ws|
    ensures TextsOf(ws[..n1]) == TextsOf(ws[..n0]) + TextsOf(ws[n0..n1])
  {
    assert ws[..n1] == ws[..n0] + ws[n0..n1];
    TextsOfConcat(ws[..n0], ws[n0..n1]);
  }

  lemma NothingCommitted(ws: seq<Word>, frame: nat)
    requires Timeline(ws, frame)
    ensures Committed(ws, [], 0, frame)
  {
    BeforeIs(ws, 0.0, 0);
  }

  /** Adding an outcome with the next words, up to a clean mark, keeps the results exact. */
  lemma CommitExtends(ws: seq<Word>, results: seq<Outcome>, from: nat, kept: Outcome, to: nat, frame: nat)
    requires Committed(ws, results, from, frame) && Clean(ws, to, frame)
    requires kept.incomplete.None?
    requires Before(ws, from as real) <= Before(ws, to as real)
    requires Words(kept.rawText) == TextsOf(ws[Before(ws, from as real)..Before(ws, to as real)])
    ensures Committed(ws, results + [kept], to, frame)
  {
    var n0, n1 := Before(ws, from as real), Before(ws, to as real);
    WordsOfOneMore(results, kept);
    TextsSplit(ws, n0, n1);
  }

  /** A fitting chunk: non-empty, aligned, and at least the minimum long. */
  ghost predicate GoodChunk(chunk: ChunkCut) {
    var rate, channels := chunk.snapshot.rate, chunk.snapshot.channels;
    && rate > 0
    && chunk.regionStart < chunk.cut && |chunk.snapshot.samples| == chunk.cut - chunk.regionStart
    && chunk.regionStart % AtLeastOne(channels) == 0 && chunk.cut % AtLeastOne(channels) == 0
    && WholeFrames(CHUNK_MIN_SECS, rate, channels) <= chunk.cut - chunk.regionStart
  }

  lemma ChunkIsLong(chunk: ChunkCut)
    requires GoodChunk(chunk)
    ensures CutMs(chunk) >= 20_000.0
    ensures At(chunk, CutMs(chunk)) == chunk.cut as real
  {
    var p := PerSecond(chunk.snapshot.rate, chunk.snapshot.channels);
    var c, rate := AtLeastOne(chunk.snapshot.channels), chunk.snapshot.rate;
    WholeSpan(|chunk.snapshot.samples|, rate, chunk.snapshot.channels);
    assert c * (20 * rate) == 20 * (c * rate);
    assert |chunk.snapshot.samples| >= 20 * p;
    QuotientAtLeast(|chunk.snapshot.samples| as real, p as real, 20.0);
  }

  lemma QuotientAtLeast(x: real, p: real, k: real)
    requires p > 0.0 && x >= k * p
    ensures x / p >= k
  {
    assert (x / p - k) * p >= 0.0;
  }

  lemma CutCommitsWhole(chunk: ChunkCut)
    requires GoodChunk(chunk)
    ensures RawIndexForMs(chunk.regionStart, chunk.cut, chunk.snapshot.rate, chunk.snapshot.channels, CutMs(chunk)) == chunk.cut
  {
    ChunkIsLong(chunk);
    MultiplesAdd(chunk.cut, chunk.regionStart, AtLeastOne(chunk.snapshot.channels));
    IndexIsExact(chunk.regionStart, chunk.cut, chunk.snapshot.rate, chunk.snapshot.channels, CutMs(chunk),
                 chunk.cut - chunk.regionStart);
  }

  /** Committing up to the cut with all its words. */
  lemma CommitWhole(ws: seq<Word>, results: seq<Outcome>, chunk: ChunkCut, kept: Outcome)
    requires GoodChunk(chunk) && Timeline(ws, AtLeastOne(chunk.snapshot.channels)) && kept.incomplete.None?
    requires Committed(ws, results, chunk.regionStart, AtLeastOne(chunk.snapshot.channels))
    requires Faithful(ws, chunk, kept.rawText)
    ensures Committed(ws, results + [kept], chunk.cut, AtLeastOne(chunk.snapshot.channels))
  {
    var frame := AtLeastOne(chunk.snapshot.channels);
    var n0, n1 := Before(ws, chunk.regionStart as real), Before(ws, chunk.cut as real);
    StartsBeforeAreFirst(ws, chunk.cut as real, frame);
    CommitExtends(ws, results, chunk.regionStart, kept, chunk.cut, frame);
  }

  lemma StartsBeforeAreFirst(ws: seq<Word>, x: real, frame: nat)
    requires Timeline(ws, frame)
    ensures forall k :: Before(ws, x) <= k < |ws| ==> ws[k].start >= x
  {
  }

  /** Where the watermark of a held-back split lands: after every word heard before the held segment,
      and not after any later word. */
  lemma WatermarkSeparates(ws: seq<Word>, chunk: ChunkCut, segments: seq<Segment>, h: nat, n: nat, watermark: real)
    requires GoodChunk(chunk) && Timeline(ws, AtLeastOne(chunk.snapshot.channels))
    requires HeardUpTo(ws, chunk, segments, h, n)
    requires watermark == Clamp(segments[h].start as real, 0.0, CutMs(chunk)) > 0.0
    requires EndsBy(segments[..h], watermark)
    requires Clean(ws, chunk.regionStart, AtLeastOne(chunk.snapshot.channels))
    ensures var at := RawIndexForMs(chunk.regionStart, chunk.cut, chunk.snapshot.rate, chunk.snapshot.channels, watermark);
            Before(ws, at as real) == n && Clean(ws, at, AtLeastOne(chunk.snapshot.channels))
  {
    var rate, channels := chunk.snapshot.rate, chunk.snapshot.channels;
    var frame := AtLeastOne(channels);
    var at := RawIndexForMs(chunk.regionStart, chunk.cut, rate, channels, watermark);
    var n0, n1 := Before(ws, chunk.regionStart as real), Before(ws, chunk.cut as real);
    WatermarkIndex(chunk, segments[h].start, watermark);
    forall k | 0 <= k < n
      ensures ws[k].start < at as real && ws[k].end <= (at + frame) as real
    {
      if k >= n0 {
        var j :| 0 <= j < h && ws[k].end <= At(chunk, segments[j].end as real);
        assert segments[..h][j] in segments[..h];
        SamplesAtIsMonotone(segments[j].end as real, watermark, rate, channels);
      }
    }
    forall k | n <= k < |ws| ensures ws[k].start >= at as real {
      if k < n1 {
        SamplesAtIsMonotone(watermark, segments[h].start as real, rate, channels);
      } else {
        StartsBeforeAreFirst(ws, chunk.cut as real, frame);
      }
    }
    BeforeIs(ws, at as real, n);
  }

  /** The index of a positive watermark: within a frame before its time, and after it by no more than
      the slack the decoder leaves; a start past the cut maps to the cut. */
  lemma WatermarkIndex(chunk: ChunkCut, start: int, watermark: real)
    requires GoodChunk(chunk)
    requires watermark == Clamp(start as real, 0.0, CutMs(chunk)) > 0.0
    ensures watermark <= start as real
    ensures var at := RawIndexForMs(chunk.regionStart, chunk.cut, chunk.snapshot.rate, chunk.snapshot.channels, watermark);
            && At(chunk, watermark) - AtLeastOne(chunk.snapshot.channels) as real < at as real
            && at as real <= At(chunk, watermark) + Slack(chunk.snapshot.rate)
  {
    var rate, channels := chunk.snapshot.rate, chunk.snapshot.channels;
    ChunkIsLong(chunk);
    SamplesAtIsMonotone(watermark, CutMs(chunk), rate, channels);
    SamplesAtIsMonotone(0.0, watermark, rate, channels);
    assert SamplesAt(0.0, rate, channels) == 0.0;
    if start as real > CutMs(chunk) {
      CutCommitsWhole(chunk);
    } else if rate % 1000 == 0 {
      WholeMillisecondsAreFrames(start, rate, channels);
      IndexIsExact(chunk.regionStart, chunk.cut, rate, channels, watermark, AtLeastOne(channels) * (rate / 1000 * start));
    } else {
      IndexTracksTime(chunk.regionStart, chunk.cut, rate, channels, watermark);
    }
  }

  /** Where a chunk's watermark commits the buffer. */
  function CommittedAt(chunk: ChunkCut, watermark: real): nat {
    RawIndexForMs(chunk.regionStart, chunk.cut, chunk.snapshot.rate, chunk.snapshot.channels, watermark)
  }

  lemma HeldTimesAreReal(chunk: ChunkCut, segments: seq<Segment>, h: nat)
    requires GoodChunk(chunk) && FirstReaching(segments, CutMs(chunk) - TAIL_GUARD_MS) == Some(h)
    ensures h < |segments| && !Untimed(segments)
  {
    ChunkIsLong(chunk);
    assert segments[h] in segments;
  }

  /** A chunk held back before segment `h` commits at that segment's start, and what is kept ends by it. */
  lemma HeldWatermark(chunk: ChunkCut, o: Outcome, h: nat, polish: Polish)
    requires GoodChunk(chunk) && o.durationSecs == ChunkSecs(chunk)
    requires FirstReaching(o.segments, CutMs(chunk) - TAIL_GUARD_MS) == Some(h)
    requires SplitChunkOutcome(o, CutMs(chunk), true, polish).1 > 0.0
    ensures h < |o.segments|
    ensures
      var (kept, watermark) := SplitChunkOutcome(o, CutMs(chunk), true, polish);
      && watermark == Clamp(o.segments[h].start as real, 0.0, CutMs(chunk)) && EndsBy(o.segments[..h], watermark)
      && kept.incomplete == o.incomplete && Words(kept.rawText) == AllWords(SegmentTexts(o.segments[..h]))
  {
    HeldTimesAreReal(chunk, o.segments, h);
    SplitIsConsistent(o, CutMs(chunk), true, polish);
  }

  lemma HeldExtends(ws: seq<Word>, results: seq<Outcome>, chunk: ChunkCut, segments: seq<Segment>, h: nat, n: nat,
      watermark: real, kept: Outcome)
    requires GoodChunk(chunk) && Timeline(ws, AtLeastOne(chunk.snapshot.channels))
    requires Committed(ws, results, chunk.regionStart, AtLeastOne(chunk.snapshot.channels))
    requires HeardUpTo(ws, chunk, segments, h, n)
    requires watermark == Clamp(segments[h].start as real, 0.0, CutMs(chunk)) > 0.0 && EndsBy(segments[..h], watermark)
    requires kept.incomplete.None? && Words(kept.rawText) == AllWords(SegmentTexts(segments[..h]))
    ensures Committed(ws, results + [kept], CommittedAt(chunk, watermark), AtLeastOne(chunk.snapshot.channels))
  {
    WatermarkSeparates(ws, chunk, segments, h, n, watermark);
    CommitExtends(ws, results, chunk.regionStart, kept, CommittedAt(chunk, watermark),
                  AtLeastOne(chunk.snapshot.channels));
  }

  lemma HeldOutcomeExtends(ws: seq<Word>, results: seq<Outcome>, chunk: ChunkCut, o: Outcome, h: nat, n: nat, polish: Polish)
    requires GoodChunk(chunk) && Timeline(ws, AtLeastOne(chunk.snapshot.channels))
    requires Committed(ws, results, chunk.regionStart, AtLeastOne(chunk.snapshot.channels))
    requires o.incomplete.None? && o.durationSecs == ChunkSecs(chunk)
    requires FirstReaching(o.segments, CutMs(chunk) - TAIL_GUARD_MS) == Some(h) && HeardUpTo(ws, chunk, o.segments, h, n)
    ensures var (kept, watermark) := SplitChunkOutcome(o, CutMs(chunk), true, polish);
            watermark > 0.0 ==>
              Committed(ws, results + [kept], CommittedAt(chunk, watermark), AtLeastOne(chunk.snapshot.channels))
  {
    var (kept, watermark) := SplitChunkOutcome(o, CutMs(chunk), true, polish);
    if watermark > 0.0 {
      HeldWatermark(chunk, o, h, polish);
      HeldExtends(ws, results, chunk, o.segments, h, n, watermark, kept);
    }
  }

  lemma HeldIsExact(ws: seq<Word>, results: seq<Outcome>, chunk: ChunkCut, o: Outcome, polish: Polish)
    requires GoodChunk(chunk) && Timeline(ws, AtLeastOne(chunk.snapshot.channels))
    requires Committed(ws, results, chunk.regionStart, AtLeastOne(chunk.snapshot.channels))
    requires o.incomplete.None? && o.durationSecs == ChunkSecs(chunk) && FaithfulUpToGuard(ws, chunk, o)
    requires FirstReaching(o.segments, CutMs(chunk) - TAIL_GUARD_MS).Some?
    ensures var (kept, watermark) := SplitChunkOutcome(o, CutMs(chunk), true, polish);
            watermark > 0.0 ==>
              Committed(ws, results + [kept], CommittedAt(chunk, watermark), AtLeastOne(chunk.snapshot.channels))
  {
    var h := FirstReaching(o.segments, CutMs(chunk) - TAIL_GUARD_MS).value;
    var n :| HeardUpTo(ws, chunk, o.segments, h, n);
    HeldOutcomeExtends(ws, results, chunk, o, h, n, polish);
  }

  /** A chunk with nothing held back commits all its words at its cut. */
  lemma WholeIsExact(ws: seq<Word>, st: ChunkedDictation, job: ChunkJob, o: Outcome, freshId: nat, polish: Polish)
    requires GoodChunk(job.chunk) && Timeline(ws, AtLeastOne(job.chunk.snapshot.channels))
    requires Committed(ws, st.results, job.chunk.regionStart, AtLeastOne(job.chunk.snapshot.channels))
    requires o.incomplete.None? && o.durationSecs == ChunkSecs(job.chunk) && Faithful(ws, job.chunk, o.rawText)
    requires !HoldsBack(job) || FirstReaching(o.segments, CutMs(job.chunk) - TAIL_GUARD_MS).None?
    ensures Digested(st, job, Decoded(o), freshId, polish) == (st.(results := st.results + [o]), Some(job.chunk.cut))
    ensures Committed(ws, st.results + [o], job.chunk.cut, AtLeastOne(job.chunk.snapshot.channels))
  {
    ChunkIsLong(job.chunk);
    SplitIsConsistent(o, CutMs(job.chunk), HoldsBack(job), polish);
    CommitsWholeExactly(o.segments, CutMs(job.chunk), HoldsBack(job));
    CutCommitsWhole(job.chunk);
    CommitWhole(ws, st.results, job.chunk, o);
  }

  lemma SilenceIsExact(ws: seq<Word>, results: seq<Outcome>, chunk: ChunkCut, freshId: nat)
    requires GoodChunk(chunk) && Timeline(ws, AtLeastOne(chunk.snapshot.channels))
    requires Committed(ws, results, chunk.regionStart, AtLeastOne(chunk.snapshot.channels))
    requires Before(ws, chunk.cut as real) == Before(ws, chunk.regionStart as real)
    ensures Committed(ws, results + [Placeholder(chunk, freshId)], chunk.cut, AtLeastOne(chunk.snapshot.channels))
  {
    assert Words("") == [];
    assert TextsOf(ws[Before(ws, chunk.regionStart as real)..Before(ws, chunk.cut as real)]) == [];
    CommitWhole(ws, results, chunk, Placeholder(chunk, freshId));
  }

  /** A trusted chunk reply keeps the committed results exact, wherever it commits. */
  lemma DigestedIsExact(ws: seq<Word>, st: ChunkedDictation, job: ChunkJob, reply: Reply, freshId: nat, polish: Polish)
    requires GoodChunk(job.chunk) && Timeline(ws, AtLeastOne(job.chunk.snapshot.channels))
    requires Committed(ws, st.results, job.chunk.regionStart, AtLeastOne(job.chunk.snapshot.channels))
    requires TrustedChunk(ws, job, reply) && Guarded(job)
    ensures var (st', at) := Digested(st, job, reply, freshId, polish);
            && (at.Some? ==> Committed(ws, st'.results, at.value, AtLeastOne(job.chunk.snapshot.channels)))
            && (at.None? ==> st'.results == st.results)
  {
    var chunk := job.chunk;
    match reply
    case Decoded(o) =>
      if HoldsBack(job) && FirstReaching(o.segments, CutMs(chunk) - TAIL_GUARD_MS).Some? {
        HeldIsExact(ws, st.results, chunk, o, polish);
      } else {
        WholeIsExact(ws, st, job, o, freshId, polish);
      }
    case NoSpeech(_) => SilenceIsExact(ws, st.results, chunk, freshId);
    case _ =>
  }

  // ----- Every step, and every run -----

  lemma FittingChunkIsGood(s: App, job: ChunkJob)
    requires Fits(s.buffer, job) && s.buffer.Aligned() && s.buffer.rate > 0
    ensures GoodChunk(job.chunk)
  {
  }

  lemma CommitMovesMarkTo(b: Buffer, at: nat)
    requires b.consumed <= at <= b.RawLen()
    ensures b.Committed(at).consumed == at && b.Committed(at).rate == b.rate && b.Committed(at).channels == b.channels
  {
  }

  /** The answer to the current chunk keeps the committed words exact. */
  lemma CurrentReplyIsExact(truth: Truth, s: App, i: nat, reply: Reply, freshId: nat, polish: Polish)
    requires AllTrue(truth, s) && Trusted(truth, s, ChunkReply(i, reply, freshId))
    requires i < |s.chunkJobs| && Current(s, s.chunkJobs[i])
    ensures DictationTrue(truth, ChunkReplyStep(s, i, reply, freshId, polish))
  {
    var job := s.chunkJobs[i];
    var st := s.chunked.value.(pending := false);
    FittingChunkIsGood(s, job);
    CommitIsInRegion(s.buffer, st, job, reply, freshId, polish);
    DigestedIsExact(truth(s.generation), st, job, reply, freshId, polish);
    var (_, at) := Digested(st, job, reply, freshId, polish);
    if at.Some? {
      CommitMovesMarkTo(s.buffer, at.value);
    }
  }

  /** A chunk reply touches no stopped take. */
  lemma ReplyOnlyChunks(s: App, i: nat, reply: Reply, freshId: nat, polish: Polish)
    ensures
      var s' := ChunkReplyStep(s, i, reply, freshId, polish);
      s' == s.(chunked := s'.chunked, buffer := s'.buffer, drained := s'.drained, chunkJobs := s'.chunkJobs)
      && (s'.chunkJobs == s.chunkJobs || (i < |s.chunkJobs| && s'.chunkJobs == Without(s.chunkJobs, i)))
  {
  }

  lemma OtherTakesStayTrue(truth: Truth, s: App, chunked: Option<ChunkedDictation>, buffer: Buffer, drained: seq<real>,
      chunkJobs: seq<ChunkJob>)
    requires TakesTrue(truth, s)
    ensures TakesTrue(truth, s.(chunked := chunked, buffer := buffer, drained := drained, chunkJobs := chunkJobs))
  {
  }

  lemma ChunkReplyIsExact(truth: Truth, s: App, i: nat, reply: Reply, freshId: nat, polish: Polish)
    requires AllTrue(truth, s) && Trusted(truth, s, ChunkReply(i, reply, freshId))
    ensures AllTrue(truth, ChunkReplyStep(s, i, reply, freshId, polish))
  {
    ChunkReplyKeeps(s, i, reply, freshId, polish);
    if i < |s.chunkJobs| && Current(s, s.chunkJobs[i]) {
      CurrentReplyIsExact(truth, s, i, reply, freshId, polish);
    } else {
      assert DictationTrue(truth, ChunkReplyStep(s, i, reply, freshId, polish));
    }
    var s' := ChunkReplyStep(s, i, reply, freshId, polish);
    ReplyOnlyChunks(s, i, reply, freshId, polish);
    OtherTakesStayTrue(truth, s, s'.chunked, s'.buffer, s'.drained, s'.chunkJobs);
  }

  lemma NoneIncomplete(parts: seq<Outcome>)
    requires forall k :: 0 <= k < |parts| ==> parts[k].incomplete.None?
    ensures FirstIncomplete(parts) == None
  {
    if parts != [] {
      NoneIncomplete(parts[1..]);
    }
  }

  lemma CombinedIsExact(ws: seq<Word>, parts: seq<Outcome>, polish: Polish, total: real, freshId: nat)
    requires AllWords(RawTexts(parts)) == TextsOf(ws)
    requires forall k :: 0 <= k < |parts| ==> parts[k].incomplete.None?
    ensures ExactWords(ws, Combined(parts, polish, total, freshId))
    ensures Combined(parts, polish, total, freshId).incomplete.None?
  {
    CombinedWords(parts, polish, total, freshId);
    NoneIncomplete(parts);
  }

  /** Chunks and a decoded tail together hold exactly the words. */
  lemma ChunksAndTail(ws: seq<Word>, take: RetryTake, tail: Outcome)
    requires TakeTrue(ws, take) && TrustedTail(ws, take, Decoded(tail))
    ensures AllWords(RawTexts(take.chunks + [tail])) == TextsOf(ws)
    ensures forall k :: 0 <= k < |take.chunks + [tail]| ==> (take.chunks + [tail])[k].incomplete.None?
  {
    WordsOfOneMore(take.chunks, tail);
    TextsSplit(ws, Before(ws, |take.drained| as real), |ws|);
    assert ws[..|ws|] == ws;
  }

  /** Chunks alone hold the words before the mark. */
  lemma ChunksAlone(ws: seq<Word>, take: RetryTake, polish: Polish)
    requires TakeTrue(ws, take)
    ensures Words(Combined(take.chunks, polish, take.durationSecs, take.id).rawText) == TextsOf(ws[..Before(ws, |take.drained| as real)])
    ensures FirstIncomplete(take.chunks) == None
  {
    CombinedWords(take.chunks, polish, take.durationSecs, take.id);
    NoneIncomplete(take.chunks);
  }

  lemma StoppedIsExact(truth: Truth, s: App)
    requires AllTrue(truth, s)
    ensures AllTrue(truth, Released(s).(chunked := None))
    ensures s.owner == Mini ==> TakeTrue(truth(s.generation), TakeAtStop(s))
  {
    StoppedKeeps(s);
    if s.owner == Mini && s.chunked.None? {
      NothingCommitted(truth(s.generation), AtLeastOne(s.buffer.channels));
    }
  }

  lemma SubmittedIsExact(truth: Truth, s: App, take: RetryTake)
    requires AllTrue(truth, s) && Whole(take) && TakeTrue(truth(take.id), take)
    ensures AllTrue(truth, Submitted(s, take))
  {
    SubmittedKeeps(s, take);
  }

  /** What is salvaged of a take is a prefix of its words. */
  lemma SalvagedIsExact(truth: Truth, s: App, take: RetryTake, polish: Polish)
    requires AllTrue(truth, s) && Whole(take) && TakeTrue(truth(take.id), take)
    ensures AllTrue(truth, s.(salvaged := s.salvaged + [SalvageOf(take, polish)]))
  {
    ChunksAlone(truth(take.id), take, polish);
    SalvagedKeeps(s, SalvageOf(take, polish));
    assert PrefixWords(truth(take.id), SalvageOf(take, polish).outcome);
  }

  lemma StopIsExact(truth: Truth, s: App, backendReady: bool, polish: Polish)
    requires AllTrue(truth, s)
    ensures AllTrue(truth, StopStep(s, backendReady, polish))
  {
    if s.owner == Mini {
      var stopped, take := Released(s).(chunked := None), TakeAtStop(s);
      StoppedKeeps(s);
      StoppedIsExact(truth, s);
      SubmittedIsExact(truth, stopped, take);
      SalvagedIsExact(truth, stopped, take, polish);
    }
  }

  /** Finishing a true take with a trusted tail reply gives exactly its words. */
  lemma FinishIsExact(ws: seq<Word>, take: RetryTake, reply: Reply, polish: Polish)
    requires Whole(take) && TakeTrue(ws, take) && TrustedTail(ws, take, reply)
    ensures var result := FinishChunkedTake(take.chunks, reply, polish, take.durationSecs, take.id);
            && (result.Complete? ==> ExactWords(ws, result.outcome))
            && (reply.Decoded? ==> result.Complete? && result.outcome.incomplete.None?)
            && (reply.NoSpeech? && result.Error? ==> ws == [])
  {
    var mark := Before(ws, |take.drained| as real);
    ChunksAlone(ws, take, polish);
    if take.chunks == [] {
      BeforeIs(ws, 0.0, 0);
      assert ws[0..] == ws;
    } else if reply.Decoded? {
      ChunksAndTail(ws, take, reply.outcome);
      CombinedIsExact(ws, take.chunks + [reply.outcome], polish, take.durationSecs, take.id);
    } else if reply.NoSpeech? {
      assert ws[..mark] == ws;
    }
  }

  lemma RecordedIsExact(truth: Truth, s: App, job: TakeJob, o: Outcome)
    requires DictationTrue(truth, s) && TakesTrue(truth, s) && ExactWords(truth(job.take.id), o)
    ensures DictationTrue(truth, Recorded(s, job, o)) && TakesTrue(truth, Recorded(s, job, o))
  {
  }

  lemma TakeReplyStepCases(s: App, i: nat, reply: Reply, polish: Polish)
    requires i < |s.takeJobs|
    ensures var job := s.takeJobs[i];
            var rest := s.(takeJobs := Without(s.takeJobs, i));
            var result := FinishChunkedTake(job.take.chunks, reply, polish, job.take.durationSecs, job.take.id);
            TakeReplyStep(s, i, reply, polish)
              == if job.token in s.aborted then rest
                 else if result.Error? then ErrorShown(rest, job)
                 else Recorded(rest, job, result.outcome.(id := job.take.id))
  {
  }

  lemma TakeReplyIsExact(truth: Truth, s: App, i: nat, reply: Reply, polish: Polish)
    requires AllTrue(truth, s) && Trusted(truth, s, TakeReply(i, reply))
    ensures AllTrue(truth, TakeReplyStep(s, i, reply, polish))
  {
    TakeReplyKeeps(s, i, reply, polish);
    if i < |s.takeJobs| {
      var job := s.takeJobs[i];
      var rest := s.(takeJobs := Without(s.takeJobs, i));
      var result := FinishChunkedTake(job.take.chunks, reply, polish, job.take.durationSecs, job.take.id);
      TakeReplyStepCases(s, i, reply, polish);
      assert DictationTrue(truth, rest) && TakesTrue(truth, rest);
      if result.Complete? {
        FinishIsExact(truth(job.take.id), job.take, reply, polish);
        RecordedIsExact(truth, rest, job, result.outcome.(id := job.take.id));
      }
    }
  }

  lemma StartIsExact(truth: Truth, s: App, mic: Microphone, whisper: bool)
    requires AllTrue(truth, s) && Trusted(truth, s, Start(mic, whisper))
    ensures AllTrue(truth, StartStep(s, mic, whisper))
  {
    StartKeeps(s, mic, whisper);
    var s' := StartStep(s, mic, whisper);
    if CanAcquire(s, Mini) && mic.Opened? {
      NothingCommitted(truth(s'.generation), AtLeastOne(mic.channels));
    }
  }

  /** Handing out a chunk that is guarded touches no text. */
  lemma HandedOutIsExact(truth: Truth, s: App, job: ChunkJob)
    requires DictationTrue(truth, s) && TakesTrue(truth, s) && AllGuarded(s) && Guarded(job) && s.chunked.Some?
    ensures
      var s' := s.(chunked := Some(s.chunked.value.(pending := true)), chunkJobs := s.chunkJobs + [job]);
      DictationTrue(truth, s') && TakesTrue(truth, s') && AllGuarded(s')
  {
    var st, jobs := Some(s.chunked.value.(pending := true)), s.chunkJobs + [job];
    OtherTakesStayTrue(truth, s, st, s.buffer, s.drained, jobs);
    assert s.(chunked := st, chunkJobs := jobs)
        == s.(chunked := st, buffer := s.buffer, drained := s.drained, chunkJobs := jobs);
  }

  lemma TickIsExact(rms: Measure, truth: Truth, s: App, timed: bool)
    requires AllTrue(truth, s) && !Risks(rms, s, Tick(timed))
    ensures AllTrue(truth, TickStep(rms, s, timed))
  {
    TickKeeps(rms, s, timed);
    if TickStep(rms, s, timed) != s {
      var chunk := Peek(rms, s.buffer, CHUNK_MIN_SECS, CHUNK_MAX_SECS).value;
      HandedOutIsExact(truth, s, ChunkJob(s.generation, chunk, timed));
    }
  }

  lemma OtherStartIsExact(truth: Truth, s: App, other: Owner, rate: nat, channels: nat)
    requires AllTrue(truth, s)
    ensures AllTrue(truth, OtherStartStep(s, other, rate, channels))
  {
    OtherStartKeeps(s, other, rate, channels);
  }

  lemma VoiceStartIsExact(truth: Truth, s: App, hasTarget: bool, rate: nat, channels: nat)
    requires AllTrue(truth, s)
    ensures AllTrue(truth, VoiceStartStep(s, hasTarget, rate, channels))
  {
    VoiceStartKeeps(s, hasTarget, rate, channels);
  }

  lemma OtherStopIsExact(truth: Truth, s: App)
    requires AllTrue(truth, s)
    ensures AllTrue(truth, OtherStopStep(s))
  {
    OtherStopKeeps(s);
  }

  lemma PushIsExact(truth: Truth, s: App, samples: seq<real>)
    requires AllTrue(truth, s)
    ensures AllTrue(truth, PushStep(s, samples))
  {
    PushKeeps(s, samples);
  }

  lemma RetryIsExact(truth: Truth, s: App)
    requires AllTrue(truth, s)
    ensures AllTrue(truth, RetryStep(s))
  {
    RetryKeeps(s);
  }

  lemma CancelIsExact(truth: Truth, s: App)
    requires AllTrue(truth, s)
    ensures AllTrue(truth, CancelStep(s))
  {
    CancelKeeps(s);
  }

  lemma CaptureIsExact(rms: Measure, polish: Polish, truth: Truth, s: App, e: Event)
    requires AllTrue(truth, s) && Trusted(truth, s, e) && !Risks(rms, s, e)
    requires e.Start? || e.OtherStart? || e.OtherStop? || e.VoiceStart? || e.Push? || e.Tick?
    ensures AllTrue(truth, Step(rms, polish, s, e))
  {
    match e
    case Start(mic, whisper) => StartIsExact(truth, s, mic, whisper);
    case OtherStart(other, rate, channels) => OtherStartIsExact(truth, s, other, rate, channels);
    case OtherStop => OtherStopIsExact(truth, s);
    case VoiceStart(hasTarget, rate, channels) => VoiceStartIsExact(truth, s, hasTarget, rate, channels);
    case Push(samples) => PushIsExact(truth, s, samples);
    case Tick(timed) => TickIsExact(rms, truth, s, timed);
  }

  lemma ClosedIsExact(truth: Truth, s: App)
    requires AllTrue(truth, s)
    ensures AllTrue(truth, s.(retryTake := None))
  {
  }

  lemma PanelIsExact(rms: Measure, polish: Polish, truth: Truth, s: App, e: Event)
    requires AllTrue(truth, s) && (e.Retry? || e.Cancel? || e.ClosePanel?)
    ensures AllTrue(truth, Step(rms, polish, s, e))
  {
    match e
    case Retry => RetryIsExact(truth, s);
    case Cancel => CancelIsExact(truth, s);
    case ClosePanel => ClosedIsExact(truth, s);
  }

  lemma StepIsExact(rms: Measure, polish: Polish, truth: Truth, s: App, e: Event)
    requires AllTrue(truth, s) && Trusted(truth, s, e) && !Risks(rms, s, e)
    ensures AllTrue(truth, Step(rms, polish, s, e))
  {
    if e.ChunkReply? {
      ChunkReplyIsExact(truth, s, e.job, e.reply, e.freshId, polish);
    } else if e.Stop? {
      StopIsExact(truth, s, e.backendReady, polish);
    } else if e.TakeReply? {
      TakeReplyIsExact(truth, s, e.job, e.reply, polish);
    } else if e.Retry? || e.Cancel? || e.ClosePanel? {
      PanelIsExact(rms, polish, truth, s, e);
    } else {
      CaptureIsExact(rms, polish, truth, s, e);
    }
  }

  lemma {:induction false} RunIsExact(rms: Measure, polish: Polish, truth: Truth, s: App, events: seq<Event>)
    requires AllTrue(truth, s) && TrustedRun(rms, polish, truth, s, events) && NeverRisks(rms, polish, s, events)
    ensures AllTrue(truth, Run(rms, polish, s, events))
    decreases |events|
  {
    if events != [] {
      StepIsExact(rms, polish, truth, s, events[0]);
      RunIsExact(rms, polish, truth, Step(rms, polish, s, events[0]), events[1..]);
    }
  }

  /** Exactly once: after any run from the start in which microphones and decoders keep their contracts and no tick
      hands a risky chunk to a decoder without segment timings, every finished take that is not marked incomplete holds
      all its words, each once and in order; one marked incomplete or salvaged holds a prefix of them; and the text
      shown while dictating is a prefix of what was said. */
  lemma WordsAppearExactlyOnce(rms: Measure, polish: Polish, truth: Truth, events: seq<Event>)
    requires TrustedRun(rms, polish, truth, Fresh, events) && NeverRisks(rms, polish, Fresh, events)
    ensures var s := Run(rms, polish, Fresh, events);
            && (forall i :: 0 <= i < |s.finished| ==> ExactWords(truth(s.finished[i].take.id), s.finished[i].outcome))
            && (forall i :: 0 <= i < |s.salvaged| ==> PrefixWords(truth(s.salvaged[i].take.id), s.salvaged[i].outcome))
            && (s.owner == Mini && s.chunked.Some? ==>
                  exists n :: 0 <= n <= |truth(s.generation)|
                    && AllWords(RawTexts(s.chunked.value.results)) == TextsOf(truth(s.generation)[..n]))
  {
    RunIsExact(rms, polish, truth, Fresh, events);
  }
}
