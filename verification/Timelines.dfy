/** The combined timeline of a take: how far the millisecond offsets of the combined segments may
    drift from the buffer's own position, and that combined segments stay sorted and disjoint. */
module Timelines {
  import opened Wrappers
  import opened Numbers
  import opened Sequences
  import opened Chunking
  import opened AudioBuffers
  import opened Recording
  import opened Dictation
  import opened ExactlyOnce

  /** What one committed chunk may add to the drift: one source frame and half a millisecond. */
  function PerChunk(rate: nat, channels: nat): real {
    AtLeastOne(channels) as real + SamplesAt(0.5, rate, channels)
  }

  /** Distance, in interleaved samples, between the offset where the next part will be placed and the mark. */
  function Drift(results: seq<Outcome>, mark: nat, rate: nat, channels: nat): real {
    SamplesAt(OffsetAfter(results) as real, rate, channels) - mark as real
  }

  predicate Within(n: nat, per: real, drift: real) {
    -(n as real * per) <= drift <= n as real * per
  }

  ghost predicate DriftBounded(results: seq<Outcome>, mark: nat, rate: nat, channels: nat) {
    Within(|results|, PerChunk(rate, channels), Drift(results, mark, rate, channels))
  }

  /** Timing contract: positive rates, decodes stamped with the duration they cover, segments ordered,
      and inside the cut when nothing is held back. */
  ghost predicate WellTimed(s: App, e: Event) {
    match e
    case Start(mic, _) => mic.Opened? ==> mic.rate > 0
    case ChunkReply(i, reply, _) =>
      i < |s.chunkJobs| && reply.Decoded? ==>
        var job, o := s.chunkJobs[i], reply.outcome;
        && o.durationSecs == ChunkSecs(job.chunk)
        && Ordered(o.segments, 0)
        && (!HoldsBack(job) ==> EndsBy(o.segments, CutMs(job.chunk)))
    case TakeReply(i, reply) => reply.Decoded? ==> Ordered(reply.outcome.segments, 0)
    case _ => true
  }

  ghost predicate WellTimedRun(rms: Measure, polish: Polish, s: App, events: seq<Event>)
    decreases |events|
  {
    events != [] ==> WellTimed(s, events[0]) && WellTimedRun(rms, polish, Step(rms, polish, s, events[0]), events[1..])
  }

  ghost predicate Timed(results: seq<Outcome>, mark: nat, rate: nat, channels: nat) {
    AllOrdered(results) && DriftBounded(results, mark, rate, channels)
  }

  ghost predicate TakeTimed(take: RetryTake) {
    && AllOrdered(take.chunks)
    && (take.chunks != [] ==> DriftBounded(take.chunks, |take.drained|, take.audio.rate, take.audio.channels))
  }

  ghost predicate AllTimed(s: App) {
    && Inv(s)
    && (s.owner == Mini ==> s.buffer.rate > 0)
    && (s.owner == Mini && s.chunked.Some? ==>
          Timed(s.chunked.value.results, s.buffer.consumed, s.buffer.rate, s.buffer.channels))
    && (s.retryTake.Some? ==> TakeTimed(s.retryTake.value))
    && (forall i :: 0 <= i < |s.takeJobs| ==> TakeTimed(s.takeJobs[i].take))
    && (forall i :: 0 <= i < |s.finished| ==> Ordered(s.finished[i].outcome.segments, 0))
  }

  lemma SamplesAtIsLinear(a: real, b: real, rate: nat, channels: nat)
    ensures SamplesAt(a + b, rate, channels) == SamplesAt(a, rate, channels) + SamplesAt(b, rate, channels)
  {
    var p := PerSecond(rate, channels) as real;
    assert (a + b) / 1000.0 == a / 1000.0 + b / 1000.0;
    Distribute(p, a / 1000.0, b / 1000.0);
  }

  lemma Distribute(k: real, a: real, b: real)
    ensures (a + b) * k == a * k + b * k
  {
  }

  /** Rounding a duration to whole milliseconds moves it by at most half a millisecond. */
  lemma RoundedSamples(ms: real, rate: nat, channels: nat)
    ensures var moved := SamplesAt(Round(ms) as real, rate, channels) - SamplesAt(ms, rate, channels);
            -SamplesAt(0.5, rate, channels) <= moved <= SamplesAt(0.5, rate, channels)
  {
    SamplesAtIsLinear(ms - 0.5, 0.5, rate, channels);
    SamplesAtIsLinear(ms, 0.5, rate, channels);
    SamplesAtIsMonotone(ms - 0.5, Round(ms) as real, rate, channels);
    SamplesAtIsMonotone(Round(ms) as real, ms + 0.5, rate, channels);
  }

  lemma BoundGrows(n: nat, per: real, drift: real, more: real, sum: real)
    requires Within(n, per, drift) && -per <= more <= per && sum == drift + more
    ensures Within(n + 1, per, sum)
  {
    Distribute(per, n as real, 1.0);
  }

  /** The drift one more part adds. */
  function Added(next: Outcome, from: nat, to: nat, rate: nat, channels: nat): real {
    SamplesAt(Millis(next.durationSecs) as real, rate, channels) - (to - from) as real
  }

  lemma DriftAdds(results: seq<Outcome>, from: nat, next: Outcome, to: nat, rate: nat, channels: nat)
    ensures Drift(results + [next], to, rate, channels) == Drift(results, from, rate, channels) + Added(next, from, to, rate, channels)
  {
    var more := results + [next];
    assert Init(more) == results;
    SamplesAtIsLinear(OffsetAfter(results) as real, Millis(next.durationSecs) as real, rate, channels);
  }

  lemma Triangle(rounded: real, exact: real, half: real, frame: real, moved: real)
    requires -half <= rounded - exact <= half
    requires exact - frame <= moved <= exact + frame
    ensures -(frame + half) <= rounded - moved <= frame + half
  {
  }

  lemma AddedIsBounded(from: nat, next: Outcome, ms: real, to: nat, rate: nat, channels: nat)
    requires next.durationSecs * 1000.0 == ms
    requires Lands(from, ms, to, rate, channels)
    ensures -PerChunk(rate, channels) <= Added(next, from, to, rate, channels) <= PerChunk(rate, channels)
  {
    RoundedSamples(ms, rate, channels);
    Triangle(SamplesAt(Round(ms) as real, rate, channels), SamplesAt(ms, rate, channels), SamplesAt(0.5, rate, channels),
             AtLeastOne(channels) as real, (to - from) as real);
  }

  /** The mark moves from `from` to `to`, within a frame of `ms` later. */
  ghost predicate Lands(from: nat, ms: real, to: nat, rate: nat, channels: nat) {
    var frame := AtLeastOne(channels) as real;
    SamplesAt(ms, rate, channels) - frame <= (to - from) as real <= SamplesAt(ms, rate, channels) + frame
  }

  /** One more part, lasting `ms` and moving the mark to its index, adds at most one chunk's drift. */
  lemma DriftGrowsByOneChunk(results: seq<Outcome>, from: nat, next: Outcome, ms: real, to: nat, rate: nat, channels: nat)
    requires DriftBounded(results, from, rate, channels)
    requires next.durationSecs * 1000.0 == ms
    requires Lands(from, ms, to, rate, channels)
    ensures DriftBounded(results + [next], to, rate, channels)
  {
    AddedIsBounded(from, next, ms, to, rate, channels);
    DriftAdds(results, from, next, to, rate, channels);
    BoundGrows(|results|, PerChunk(rate, channels), Drift(results, from, rate, channels),
               Added(next, from, to, rate, channels), Drift(results + [next], to, rate, channels));
  }

  /** Every commit keeps the results ordered and the drift within its bound. */
  lemma DigestedIsTimed(st: ChunkedDictation, job: ChunkJob, reply: Reply, freshId: nat, polish: Polish)
    requires GoodChunk(job.chunk)
    requires Timed(st.results, job.chunk.regionStart, job.chunk.snapshot.rate, job.chunk.snapshot.channels)
    requires reply.Decoded? ==>
               && reply.outcome.durationSecs == ChunkSecs(job.chunk)
               && Ordered(reply.outcome.segments, 0)
               && (!HoldsBack(job) ==> EndsBy(reply.outcome.segments, CutMs(job.chunk)))
    ensures var (st', at) := Digested(st, job, reply, freshId, polish);
            at.Some? ==> Timed(st'.results, at.value, job.chunk.snapshot.rate, job.chunk.snapshot.channels)
  {
    var chunk := job.chunk;
    var rate, channels := chunk.snapshot.rate, chunk.snapshot.channels;
    ChunkIsLong(chunk);
    if reply.Decoded? {
      var (kept, watermark) := SplitChunkOutcome(reply.outcome, CutMs(chunk), HoldsBack(job), polish);
      SplitIsConsistent(reply.outcome, CutMs(chunk), HoldsBack(job), polish);
      SplitIsOrdered(reply.outcome, CutMs(chunk), HoldsBack(job), polish);
      SamplesAtIsMonotone(watermark, CutMs(chunk), rate, channels);
      SamplesAtIsMonotone(0.0, watermark, rate, channels);
      assert SamplesAt(0.0, rate, channels) == 0.0;
      IndexTracksTime(chunk.regionStart, chunk.cut, rate, channels, watermark);
      DriftGrowsByOneChunk(st.results, chunk.regionStart, kept, watermark,
                           RawIndexForMs(chunk.regionStart, chunk.cut, rate, channels, watermark), rate, channels);
    } else if reply.NoSpeech? {
      var next := Placeholder(chunk, freshId);
      DriftGrowsByOneChunk(st.results, chunk.regionStart, next, CutMs(chunk), chunk.cut, rate, channels);
    }
  }

  lemma ChunkReplyIsTimed(s: App, i: nat, reply: Reply, freshId: nat, polish: Polish)
    requires AllTimed(s) && WellTimed(s, ChunkReply(i, reply, freshId))
    ensures AllTimed(ChunkReplyStep(s, i, reply, freshId, polish))
  {
    ChunkReplyKeeps(s, i, reply, freshId, polish);
    if i < |s.chunkJobs| && Current(s, s.chunkJobs[i]) {
      var job := s.chunkJobs[i];
      var st := s.chunked.value.(pending := false);
      FittingChunkIsGood(s, job);
      CommitIsInRegion(s.buffer, st, job, reply, freshId, polish);
      DigestedIsTimed(st, job, reply, freshId, polish);
      var (_, at) := Digested(st, job, reply, freshId, polish);
      if at.Some? {
        CommitMovesMarkTo(s.buffer, at.value);
      }
    }
  }

  lemma CombinedWithTailIsOrdered(chunks: seq<Outcome>, tail: Outcome)
    requires AllOrdered(chunks) && Ordered(tail.segments, 0)
    ensures Ordered(CombinedSegments(chunks + [tail]), 0)
  {
    var parts := chunks + [tail];
    assert Init(parts) == chunks;
    CombinedIsOrdered(chunks);
    ShiftedIsOrdered(tail.segments, OffsetAfter(chunks));
    OrderedConcat(CombinedSegments(chunks), Shifted(tail.segments, OffsetAfter(chunks)), 0, OffsetAfter(chunks));
  }

  lemma FinishIsOrdered(take: RetryTake, reply: Reply, polish: Polish)
    requires AllOrdered(take.chunks)
    requires reply.Decoded? ==> Ordered(reply.outcome.segments, 0)
    ensures var result := FinishChunkedTake(take.chunks, reply, polish, take.durationSecs, take.id);
            result.Complete? ==> Ordered(result.outcome.segments, 0)
  {
    CombinedIsOrdered(take.chunks);
    if reply.Decoded? {
      CombinedWithTailIsOrdered(take.chunks, reply.outcome);
    }
  }

  lemma RecordedIsTimed(s: App, job: TakeJob, o: Outcome)
    requires AllTimed(s) && Whole(job.take) && o.id == job.take.id && Ordered(o.segments, 0)
    ensures AllTimed(Recorded(s, job, o))
  {
    RecordedKeeps(s, job, o);
  }

  lemma DroppingAJobIsTimed(s: App, i: nat)
    requires AllTimed(s) && i < |s.takeJobs|
    ensures AllTimed(s.(takeJobs := Without(s.takeJobs, i)))
  {
  }

  lemma TakeReplyIsTimed(s: App, i: nat, reply: Reply, polish: Polish)
    requires AllTimed(s) && WellTimed(s, TakeReply(i, reply))
    ensures AllTimed(TakeReplyStep(s, i, reply, polish))
  {
    if i < |s.takeJobs| {
      var job := s.takeJobs[i];
      DroppingAJobIsTimed(s, i);
      var result := FinishChunkedTake(job.take.chunks, reply, polish, job.take.durationSecs, job.take.id);
      FinishIsOrdered(job.take, reply, polish);
      TakeReplyStepCases(s, i, reply, polish);
      if result.Complete? {
        RecordedIsTimed(s.(takeJobs := Without(s.takeJobs, i)), job, result.outcome.(id := job.take.id));
      }
    }
  }

  lemma StartIsTimed(s: App, mic: Microphone, whisper: bool)
    requires AllTimed(s) && WellTimed(s, Start(mic, whisper))
    ensures AllTimed(StartStep(s, mic, whisper))
  {
    StartKeeps(s, mic, whisper);
    if mic.Opened? {
      assert SamplesAt(0.0, mic.rate, mic.channels) == 0.0;
      assert Timed([], 0, mic.rate, mic.channels);
    }
  }

  lemma OtherStartIsTimed(s: App, other: Owner, rate: nat, channels: nat)
    requires AllTimed(s)
    ensures AllTimed(OtherStartStep(s, other, rate, channels))
  {
    OtherStartKeeps(s, other, rate, channels);
  }

  lemma VoiceStartIsTimed(s: App, hasTarget: bool, rate: nat, channels: nat)
    requires AllTimed(s)
    ensures AllTimed(VoiceStartStep(s, hasTarget, rate, channels))
  {
    ArmedKeeps(s);
    OtherStartIsTimed(Armed(s), VoiceEdit, rate, channels);
  }

  lemma StopIsTimed(s: App, backendReady: bool, polish: Polish)
    requires AllTimed(s)
    ensures AllTimed(StopStep(s, backendReady, polish))
  {
    StopKeeps(s, backendReady, polish);
  }

  lemma PushIsTimed(s: App, samples: seq<real>)
    requires AllTimed(s)
    ensures AllTimed(PushStep(s, samples))
  {
    PushKeeps(s, samples);
  }

  lemma TickIsTimed(rms: Measure, s: App, timed: bool)
    requires AllTimed(s)
    ensures AllTimed(TickStep(rms, s, timed))
  {
    TickKeeps(rms, s, timed);
  }

  lemma RetryIsTimed(s: App)
    requires AllTimed(s)
    ensures AllTimed(RetryStep(s))
  {
    RetryKeeps(s);
  }

  lemma CancelIsTimed(s: App)
    requires AllTimed(s)
    ensures AllTimed(CancelStep(s))
  {
    CancelKeeps(s);
  }

  lemma OtherStopIsTimed(s: App)
    requires AllTimed(s)
    ensures AllTimed(OtherStopStep(s))
  {
    OtherStopKeeps(s);
  }

  lemma StepIsTimed(rms: Measure, polish: Polish, s: App, e: Event)
    requires AllTimed(s) && WellTimed(s, e)
    ensures AllTimed(Step(rms, polish, s, e))
  {
    match e
    case Start(mic, whisper) => StartIsTimed(s, mic, whisper);
    case OtherStart(other, rate, channels) => OtherStartIsTimed(s, other, rate, channels);
    case OtherStop => OtherStopIsTimed(s);
    case VoiceStart(hasTarget, rate, channels) => VoiceStartIsTimed(s, hasTarget, rate, channels);
    case Push(samples) => PushIsTimed(s, samples);
    case Tick(timed) => TickIsTimed(rms, s, timed);
    case ChunkReply(i, reply, freshId) => ChunkReplyIsTimed(s, i, reply, freshId, polish);
    case Stop(backendReady) => StopIsTimed(s, backendReady, polish);
    case TakeReply(i, reply) => TakeReplyIsTimed(s, i, reply, polish);
    case Retry => RetryIsTimed(s);
    case Cancel => CancelIsTimed(s);
    case ClosePanel =>
  }

  /** Along every run the drift after k committed chunks is at most k times one source frame and half a
      millisecond, and all combined segments are sorted and disjoint. */
  lemma {:induction false} TimelinesHold(rms: Measure, polish: Polish, s: App, events: seq<Event>)
    requires AllTimed(s) && WellTimedRun(rms, polish, s, events)
    ensures AllTimed(Run(rms, polish, s, events))
    decreases |events|
  {
    if events != [] {
      StepIsTimed(rms, polish, s, events[0]);
      TimelinesHold(rms, polish, Step(rms, polish, s, events[0]), events[1..]);
    }
  }

  lemma FreshIsTimed()
    ensures AllTimed(Fresh)
  {
  }

  /** From the start: while dictating, the offset for the next part stays within that drift of the buffer's mark, and
      the segments of every finished take are in order. */
  lemma TimelinesStayTogether(rms: Measure, polish: Polish, events: seq<Event>)
    requires WellTimedRun(rms, polish, Fresh, events)
    ensures
      var s := Run(rms, polish, Fresh, events);
      && (s.owner == Mini && s.chunked.Some? ==>
            DriftBounded(s.chunked.value.results, s.buffer.consumed, s.buffer.rate, s.buffer.channels))
      && (forall i :: 0 <= i < |s.finished| ==> Ordered(s.finished[i].outcome.segments, 0))
  {
    FreshIsTimed();
    TimelinesHold(rms, polish, Fresh, events);
  }
}
