/** Every commit moves on: at 1000 Hz and above the mark strictly advances with every chunk committed, in every run. */
module Progress {
  import opened Wrappers
  import opened Numbers
  import opened Chunking
  import opened AudioBuffers
  import opened Recording
  import opened Dictation
  import opened ExactlyOnce

  /** The index a reply commits lies strictly after the start of its region. */
  lemma DigestedAdvances(st: ChunkedDictation, job: ChunkJob, reply: Reply, freshId: nat, polish: Polish)
    requires GoodChunk(job.chunk) && job.chunk.snapshot.rate >= 1000
    ensures var (_, at) := Digested(st, job, reply, freshId, polish); at.Some? ==> at.value > job.chunk.regionStart
  {
    var chunk := job.chunk;
    if reply.Decoded? {
      var (_, watermark) := SplitChunkOutcome(reply.outcome, CutMs(chunk), HoldsBack(job), polish);
      ChunkIsLong(chunk);
      if watermark > 0.0 {
        PositiveWatermarkIsAMillisecond(reply.outcome, chunk, HoldsBack(job), polish);
        SamplesAtIsMonotone(watermark, CutMs(chunk), chunk.snapshot.rate, chunk.snapshot.channels);
        WatermarkMakesProgress(chunk.regionStart, chunk.cut, chunk.snapshot.rate, chunk.snapshot.channels, watermark);
      }
    }
  }

  /** Watermarks are whole milliseconds or the cut itself. */
  lemma PositiveWatermarkIsAMillisecond(o: Outcome, chunk: ChunkCut, holdBack: bool, polish: Polish)
    requires GoodChunk(chunk)
    ensures
      var (_, watermark) := SplitChunkOutcome(o, CutMs(chunk), holdBack, polish);
      watermark <= CutMs(chunk) && (watermark > 0.0 ==> watermark >= 1.0)
  {
    ChunkIsLong(chunk);
  }

  /** Every result so far has moved the mark by at least a frame. */
  predicate Ahead(s: App) {
    s.owner == Mini && s.buffer.rate >= 1000 && s.chunked.Some? ==>
      |s.chunked.value.results| * AtLeastOne(s.buffer.channels) <= s.buffer.consumed
  }

  ghost predicate Progressing(s: App) {
    Inv(s) && Ahead(s)
  }

  /** A reply that adds a result moves the mark forward by at least a frame; any other leaves it. */
  lemma CommitAdvances(s: App, i: nat, reply: Reply, freshId: nat, polish: Polish)
    requires Inv(s) && s.buffer.rate >= 1000 && i < |s.chunkJobs| && Current(s, s.chunkJobs[i])
    ensures
      var s' := ChunkReplyStep(s, i, reply, freshId, polish);
      var more := |s'.chunked.value.results| - |s.chunked.value.results|;
      if more > 0 then more == 1 && s'.buffer.consumed >= s.buffer.consumed + AtLeastOne(s.buffer.channels)
      else more == 0 && s'.buffer == s.buffer
  {
    var job := s.chunkJobs[i];
    var st := s.chunked.value.(pending := false);
    FittingChunkIsGood(s, job);
    DigestedAdvances(st, job, reply, freshId, polish);
    CommitIsInRegion(s.buffer, st, job, reply, freshId, polish);
    var (_, at) := Digested(st, job, reply, freshId, polish);
    if at.Some? {
      CommitMovesMarkTo(s.buffer, at.value);
      MultiplesAreApart(s.buffer.consumed, at.value, AtLeastOne(s.buffer.channels));
    }
  }

  lemma MultiplesAreApart(a: nat, b: nat, c: nat)
    requires c > 0 && a % c == 0 && b % c == 0 && a < b
    ensures b >= a + c
  {
    MultiplesAdd(b, a, c);
    assert (b - a) % c == 0;
  }

  lemma {:induction false} RunProgresses(rms: Measure, polish: Polish, s: App, events: seq<Event>)
    requires Progressing(s)
    ensures Progressing(Run(rms, polish, s, events))
    decreases |events|
  {
    if events != [] {
      StepProgresses(rms, polish, s, events[0]);
      RunProgresses(rms, polish, Step(rms, polish, s, events[0]), events[1..]);
    }
  }

  lemma ReplyProgresses(s: App, i: nat, reply: Reply, freshId: nat, polish: Polish)
    requires Progressing(s)
    ensures Ahead(ChunkReplyStep(s, i, reply, freshId, polish))
  {
    if i < |s.chunkJobs| && Current(s, s.chunkJobs[i]) && s.buffer.rate >= 1000 {
      CommitAdvances(s, i, reply, freshId, polish);
      Times(|s.chunked.value.results|, AtLeastOne(s.buffer.channels));
    }
  }

  lemma EndingProgresses(rms: Measure, polish: Polish, s: App, e: Event)
    requires Ahead(s) && (e.Stop? || e.TakeReply? || e.Retry? || e.Cancel? || e.ClosePanel?)
    ensures Ahead(Step(rms, polish, s, e))
  {
  }

  lemma CaptureProgresses(rms: Measure, polish: Polish, s: App, e: Event)
    requires Progressing(s)
    requires e.Start? || e.OtherStart? || e.OtherStop? || e.VoiceStart? || e.Push? || e.Tick?
    ensures Ahead(Step(rms, polish, s, e))
  {
  }

  lemma StepProgresses(rms: Measure, polish: Polish, s: App, e: Event)
    requires Progressing(s)
    ensures Progressing(Step(rms, polish, s, e))
  {
    StepKeeps(rms, polish, s, e);
    if e.ChunkReply? {
      ReplyProgresses(s, e.job, e.reply, e.freshId, polish);
    } else if e.Stop? || e.TakeReply? || e.Retry? || e.Cancel? || e.ClosePanel? {
      EndingProgresses(rms, polish, s, e);
    } else {
      CaptureProgresses(rms, polish, s, e);
    }
  }

  lemma Times(n: nat, c: nat)
    ensures (n + 1) * c == n * c + c
  {
  }

  /** In every run, every committing reply of a take recorded at 1000 Hz or more strictly advances the mark; so a take
      has no more results than it has frames released. */
  lemma EveryCommitAdvances(rms: Measure, polish: Polish, events: seq<Event>, i: nat, reply: Reply, freshId: nat)
    ensures
      var s := Run(rms, polish, Fresh, events);
      var s' := Step(rms, polish, s, ChunkReply(i, reply, freshId));
      s.owner == Mini && s.buffer.rate >= 1000 && s.chunked.Some? ==>
        && s'.chunked.Some?
        && (|s'.chunked.value.results| > |s.chunked.value.results| ==> s'.buffer.consumed > s.buffer.consumed)
        && |s.chunked.value.results| * AtLeastOne(s.buffer.channels) <= s.buffer.consumed
  {
    var s := Run(rms, polish, Fresh, events);
    RunProgresses(rms, polish, Fresh, events);
    if i < |s.chunkJobs| && Current(s, s.chunkJobs[i]) && s.buffer.rate >= 1000 {
      CommitAdvances(s, i, reply, freshId, polish);
    }
  }
}
