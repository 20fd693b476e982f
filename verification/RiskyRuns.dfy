/** Exactly once fails at a run level exactly at a risky tick: whatever was dictated before it, some words of the take
    and some continuation, with every contract kept, end in a finished transcript that is wrong. */
module RiskyRuns {
  import opened Wrappers
  import opened Numbers
  import opened Sequences
  import opened Text
  import opened Chunking
  import opened AudioBuffers
  import opened Recording
  import opened Dictation
  import opened ExactlyOnce
  import opened Retries
  import opened SlicedWords

  // ----- A take told differently -----

  /** The words before the chunk, and then one that its cut slices. */
  function Retold(ws: seq<Word>, chunk: ChunkCut): seq<Word> {
    ws[..Before(ws, chunk.regionStart as real)] + [CrossingWord(chunk)]
  }

  function RetoldTruth(truth: Truth, g: nat, chunk: ChunkCut): Truth {
    (n: nat) => if n == g then Retold(truth(g), chunk) else truth(n)
  }

  lemma BeforeIsSettled(ws: seq<Word>, chunk: ChunkCut)
    requires Timeline(ws, AtLeastOne(chunk.snapshot.channels))
    requires Clean(ws, chunk.regionStart, AtLeastOne(chunk.snapshot.channels))
    ensures Settled(ws[..Before(ws, chunk.regionStart as real)], chunk)
  {
  }

  /** Up to the start of the chunk nothing changes. */
  lemma RetoldBefore(ws: seq<Word>, chunk: ChunkCut, x: real)
    requires GoodChunk(chunk) && x <= chunk.regionStart as real
    ensures Before(Retold(ws, chunk), x) == Before(ws, x) <= Before(ws, chunk.regionStart as real)
  {
    var n := Before(ws, chunk.regionStart as real);
    CrossingWordStartsLate(chunk);
    assert Before(ws, x) <= n;
    assert Before(ws, x) < n ==> Retold(ws, chunk)[Before(ws, x)] == ws[Before(ws, x)];
    BeforeIs(Retold(ws, chunk), x, Before(ws, x));
  }

  /** Two chunks of one take: the later starts where an answer to the earlier has committed, or after. */
  ghost predicate Follows(chunk: ChunkCut, next: ChunkCut) {
    && GoodChunk(chunk) && GoodChunk(next)
    && next.snapshot.rate == chunk.snapshot.rate && next.snapshot.channels == chunk.snapshot.channels
    && chunk.regionStart <= next.regionStart
  }

  lemma RetoldSlice(ws: seq<Word>, next: ChunkCut, n0: nat, n1: nat)
    requires n0 <= n1 <= Before(ws, next.regionStart as real)
    ensures n1 <= |Retold(ws, next)| && Retold(ws, next)[n0..n1] == ws[n0..n1]
    ensures forall k :: n0 <= k < n1 ==> Retold(ws, next)[k] == ws[k]
  {
  }

  lemma FaithfulStill(ws: seq<Word>, chunk: ChunkCut, next: ChunkCut, text: string)
    requires Follows(chunk, next) && chunk.cut <= next.regionStart
    ensures Faithful(ws, chunk, text) ==> Faithful(Retold(ws, next), chunk, text)
  {
    var n0, n1 := Before(ws, chunk.regionStart as real), Before(ws, chunk.cut as real);
    RetoldBefore(ws, next, chunk.regionStart as real);
    RetoldBefore(ws, next, chunk.cut as real);
    if n0 <= n1 {
      RetoldSlice(ws, next, n0, n1);
    }
  }

  /** A segment that committed before the next chunk starts before its crossing word. */
  lemma HeldStartsEarlier(chunk: ChunkCut, start: int, watermark: real, next: ChunkCut)
    requires Follows(chunk, next)
    requires watermark == Clamp(start as real, 0.0, CutMs(chunk)) > 0.0
    requires CommittedAt(chunk, watermark) <= next.regionStart
    ensures CrossingWord(next).start < chunk.cut as real ==>
              At(chunk, start as real) + Slack(chunk.snapshot.rate) <= CrossingWord(next).start
  {
    CrossingWordStartsLate(next);
    WatermarkIndex(chunk, start, watermark);
    CutCommitsWhole(chunk);
  }

  /** The words heard before an index that is not after the next chunk's start. */
  lemma HeardWordsStill(ws: seq<Word>, next: ChunkCut, from: real, n: nat, at: nat)
    requires GoodChunk(next) && Before(ws, at as real) == n && at <= next.regionStart && from <= at as real
    ensures Before(Retold(ws, next), from) == Before(ws, from) && n <= |Retold(ws, next)|
    ensures Retold(ws, next)[..n] == ws[..n]
    ensures forall to :: to >= at as real ==> n <= Before(Retold(ws, next), to)
  {
    RetoldBefore(ws, next, from);
    RetoldBefore(ws, next, at as real);
  }

  lemma LaterWordsStill(ws: seq<Word>, chunk: ChunkCut, next: ChunkCut, start: real, n: nat)
    requires Follows(chunk, next) && Timeline(ws, AtLeastOne(chunk.snapshot.channels))
    requires forall k :: n <= k < Before(ws, chunk.cut as real) ==> start <= ws[k].start
    requires CrossingWord(next).start < chunk.cut as real ==> start <= CrossingWord(next).start
    ensures forall k :: n <= k < Before(Retold(ws, next), chunk.cut as real) ==> start <= Retold(ws, next)[k].start
  {
    var ws', m := Retold(ws, next), Before(ws, next.regionStart as real);
    StartsBeforeAreFirst(ws, chunk.cut as real, AtLeastOne(chunk.snapshot.channels));
    forall k | n <= k < Before(ws', chunk.cut as real)
      ensures start <= ws'[k].start
    {
      if k < m {
        assert ws'[k] == ws[k] && k < Before(ws, chunk.cut as real);
      } else {
        assert ws'[k] == CrossingWord(next);
      }
    }
  }

  lemma SameWordsHeard(ws: seq<Word>, ws': seq<Word>, chunk: ChunkCut, segments: seq<Segment>, h: nat, n: nat)
    requires HeardUpTo(ws, chunk, segments, h, n)
    requires n <= |ws'| && ws'[..n] == ws[..n] && n <= Before(ws', chunk.cut as real)
    requires Before(ws', chunk.regionStart as real) == Before(ws, chunk.regionStart as real)
    requires forall k :: n <= k < Before(ws', chunk.cut as real) ==>
               At(chunk, segments[h].start as real) + Slack(chunk.snapshot.rate) <= ws'[k].start
    ensures HeardUpTo(ws', chunk, segments, h, n)
  {
    var n0 := Before(ws, chunk.regionStart as real);
    assert ws'[n0..n] == ws'[..n][n0..] == ws[..n][n0..] == ws[n0..n];
    forall k | n0 <= k < n
      ensures exists j :: 0 <= j < h && ws'[k].end <= At(chunk, segments[j].end as real)
    {
      assert ws'[k] == ws'[..n][k] == ws[..n][k] == ws[k];
    }
  }

  lemma HeardStill(ws: seq<Word>, chunk: ChunkCut, next: ChunkCut, segments: seq<Segment>, h: nat, n: nat, at: nat)
    requires Follows(chunk, next) && Timeline(ws, AtLeastOne(chunk.snapshot.channels))
    requires HeardUpTo(ws, chunk, segments, h, n)
    requires Before(ws, at as real) == n && chunk.regionStart <= at <= chunk.cut && at <= next.regionStart
    requires CrossingWord(next).start < chunk.cut as real ==>
               At(chunk, segments[h].start as real) + Slack(chunk.snapshot.rate) <= CrossingWord(next).start
    ensures HeardUpTo(Retold(ws, next), chunk, segments, h, n)
  {
    HeardWordsStill(ws, next, chunk.regionStart as real, n, at);
    LaterWordsStill(ws, chunk, next, At(chunk, segments[h].start as real) + Slack(chunk.snapshot.rate), n);
    SameWordsHeard(ws, Retold(ws, next), chunk, segments, h, n);
  }

  /** An answer that was committed before the chunk keeps its contract for the take told differently. */
  lemma DecodedStill(ws: seq<Word>, st: ChunkedDictation, job: ChunkJob, o: Outcome, freshId: nat, polish: Polish,
      next: ChunkCut)
    requires Follows(job.chunk, next) && Guarded(job)
    requires Timeline(ws, AtLeastOne(job.chunk.snapshot.channels))
    requires Clean(ws, job.chunk.regionStart, AtLeastOne(job.chunk.snapshot.channels))
    requires TrustedChunk(ws, job, Decoded(o))
    requires var at := Digested(st, job, Decoded(o), freshId, polish).1; at.Some? && at.value <= next.regionStart
    ensures TrustedChunk(Retold(ws, next), job, Decoded(o))
  {
    var chunk := job.chunk;
    var held := FirstReaching(o.segments, CutMs(chunk) - TAIL_GUARD_MS);
    SplitIsConsistent(o, CutMs(chunk), HoldsBack(job), polish);
    CommitsWholeExactly(o.segments, CutMs(chunk), HoldsBack(job));
    CutCommitsWhole(chunk);
    if HoldsBack(job) && held.Some? {
      HeldBackStill(ws, chunk, o, polish, next);
    } else {
      FaithfulStill(ws, chunk, next, o.rawText);
    }
  }

  lemma HeldBackStill(ws: seq<Word>, chunk: ChunkCut, o: Outcome, polish: Polish, next: ChunkCut)
    requires Follows(chunk, next) && o.durationSecs == ChunkSecs(chunk)
    requires Timeline(ws, AtLeastOne(chunk.snapshot.channels))
    requires Clean(ws, chunk.regionStart, AtLeastOne(chunk.snapshot.channels))
    requires FirstReaching(o.segments, CutMs(chunk) - TAIL_GUARD_MS).Some?
    requires FaithfulUpToGuard(ws, chunk, o)
    requires SplitChunkOutcome(o, CutMs(chunk), true, polish).1 > 0.0
    requires CommittedAt(chunk, SplitChunkOutcome(o, CutMs(chunk), true, polish).1) <= next.regionStart
    ensures FaithfulUpToGuard(Retold(ws, next), chunk, o)
  {
    var h := FirstReaching(o.segments, CutMs(chunk) - TAIL_GUARD_MS).value;
    var n :| HeardUpTo(ws, chunk, o.segments, h, n);
    HeldWatermark(chunk, o, h, polish);
    HeldSegmentStill(ws, chunk, o.segments, h, n, SplitChunkOutcome(o, CutMs(chunk), true, polish).1, next);
    assert HeardUpTo(Retold(ws, next), chunk, o.segments, h, n);
  }

  lemma HeldSegmentStill(ws: seq<Word>, chunk: ChunkCut, segments: seq<Segment>, h: nat, n: nat, watermark: real,
      next: ChunkCut)
    requires Follows(chunk, next) && Timeline(ws, AtLeastOne(chunk.snapshot.channels))
    requires Clean(ws, chunk.regionStart, AtLeastOne(chunk.snapshot.channels))
    requires HeardUpTo(ws, chunk, segments, h, n)
    requires watermark == Clamp(segments[h].start as real, 0.0, CutMs(chunk)) > 0.0 && EndsBy(segments[..h], watermark)
    requires CommittedAt(chunk, watermark) <= next.regionStart
    ensures HeardUpTo(Retold(ws, next), chunk, segments, h, n)
  {
    var at := CommittedAt(chunk, watermark);
    WatermarkSeparates(ws, chunk, segments, h, n, watermark);
    HeldStartsEarlier(chunk, segments[h].start, watermark, next);
    HeardStill(ws, chunk, next, segments, h, n, at);
  }

  lemma ReplyStill(ws: seq<Word>, st: ChunkedDictation, job: ChunkJob, reply: Reply, freshId: nat, polish: Polish,
      next: ChunkCut)
    requires Follows(job.chunk, next) && Guarded(job)
    requires Timeline(ws, AtLeastOne(job.chunk.snapshot.channels))
    requires Clean(ws, job.chunk.regionStart, AtLeastOne(job.chunk.snapshot.channels))
    requires TrustedChunk(ws, job, reply)
    requires var (st', at) := Digested(st, job, reply, freshId, polish);
             if at.Some? then at.value <= next.regionStart else !st'.disabled
    ensures TrustedChunk(Retold(ws, next), job, reply)
  {
    match reply
    case Decoded(o) => DecodedStill(ws, st, job, o, freshId, polish, next);
    case NoSpeech(_) =>
      RetoldBefore(ws, next, job.chunk.regionStart as real);
      RetoldBefore(ws, next, job.chunk.cut as real);
    case _ =>
  }

  // ----- The way to a state within a take -----

  predicate InTake(s: App, g: nat) {
    && s.owner == Mini && s.generation == g
    && s.chunked.Some? && s.chunked.value.generation == g
  }

  /** Take `g` is over. */
  predicate Left(s: App, g: nat) {
    s.generation >= g && !InTake(s, g)
  }

  lemma ReplyStaysInTake(s: App, i: nat, reply: Reply, freshId: nat, polish: Polish, g: nat)
    ensures InTake(ChunkReplyStep(s, i, reply, freshId, polish), g) <==> InTake(s, g)
    ensures ChunkReplyStep(s, i, reply, freshId, polish).generation == s.generation
  {
  }

  lemma TakeReplyStaysInTake(s: App, i: nat, reply: Reply, polish: Polish, g: nat)
    ensures InTake(TakeReplyStep(s, i, reply, polish), g) <==> InTake(s, g)
    ensures TakeReplyStep(s, i, reply, polish).generation == s.generation
  {
  }

  lemma LeftIsKept(rms: Measure, polish: Polish, s: App, e: Event, g: nat)
    requires Left(s, g)
    ensures Left(Step(rms, polish, s, e), g)
  {
    match e {
      case ChunkReply(i, reply, freshId) => ReplyStaysInTake(s, i, reply, freshId, polish, g);
      case TakeReply(i, reply) => TakeReplyStaysInTake(s, i, reply, polish, g);
      case _ =>
    }
  }

  lemma {:induction false} LeftForGood(rms: Measure, polish: Polish, s: App, events: seq<Event>, g: nat)
    requires Left(s, g)
    ensures Left(Run(rms, polish, s, events), g)
    decreases |events|
  {
    if events != [] {
      LeftIsKept(rms, polish, s, events[0], g);
      LeftForGood(rms, polish, Step(rms, polish, s, events[0]), events[1..], g);
    }
  }

  /** Within a take the mark only grows, the format stays, and chunking once disabled stays so. */
  ghost predicate Onward(s: App, t: App) {
    && s.buffer.consumed <= t.buffer.consumed
    && t.buffer.rate == s.buffer.rate && t.buffer.channels == s.buffer.channels
    && (s.chunked.Some? && s.chunked.value.disabled ==> t.chunked.Some? && t.chunked.value.disabled)
  }

  lemma ReplyIsOnward(s: App, i: nat, reply: Reply, freshId: nat, polish: Polish)
    ensures Onward(s, ChunkReplyStep(s, i, reply, freshId, polish))
  {
  }

  lemma TakeReplyIsOnward(s: App, i: nat, reply: Reply, polish: Polish)
    ensures Onward(s, TakeReplyStep(s, i, reply, polish))
  {
  }

  lemma StepIsOnward(rms: Measure, polish: Polish, s: App, e: Event, g: nat)
    requires Inv(s) && InTake(s, g) && InTake(Step(rms, polish, s, e), g)
    ensures Onward(s, Step(rms, polish, s, e))
  {
    match e {
      case ChunkReply(i, reply, freshId) => ReplyIsOnward(s, i, reply, freshId, polish);
      case TakeReply(i, reply) => TakeReplyIsOnward(s, i, reply, polish);
      case _ =>
    }
  }

  lemma {:induction false} TakeGoesOnward(rms: Measure, polish: Polish, s: App, events: seq<Event>, g: nat)
    requires Inv(s) && InTake(s, g) && InTake(Run(rms, polish, s, events), g)
    ensures Onward(s, Run(rms, polish, s, events))
    decreases |events|
  {
    if events != [] {
      var s' := Step(rms, polish, s, events[0]);
      StepKeeps(rms, polish, s, events[0]);
      if InTake(s', g) {
        StepIsOnward(rms, polish, s, events[0], g);
        TakeGoesOnward(rms, polish, s', events[1..], g);
      } else {
        GenerationGrows(rms, polish, s, events[0]);
        LeftForGood(rms, polish, s', events[1..], g);
      }
    }
  }

  lemma GenerationGrows(rms: Measure, polish: Polish, s: App, e: Event)
    ensures Step(rms, polish, s, e).generation >= s.generation
  {
    match e {
      case ChunkReply(i, reply, freshId) => ReplyStaysInTake(s, i, reply, freshId, polish, 0);
      case TakeReply(i, reply) => TakeReplyStaysInTake(s, i, reply, polish, 0);
      case _ =>
    }
  }

  /** Take `g` is still to come, or is on the way to the chunk. */
  predicate LeadsTo(s: App, g: nat, next: ChunkCut) {
    || s.generation < g
    || (&& InTake(s, g) && !s.chunked.value.disabled
        && s.buffer.consumed <= next.regionStart
        && s.buffer.rate == next.snapshot.rate && s.buffer.channels == next.snapshot.channels)
  }

  lemma LedThere(rms: Measure, polish: Polish, s: App, events: seq<Event>, g: nat, next: ChunkCut)
    requires Inv(s)
    requires InTake(Run(rms, polish, s, events), g) && LeadsTo(Run(rms, polish, s, events), g, next)
    ensures LeadsTo(s, g, next)
  {
    if InTake(s, g) {
      TakeGoesOnward(rms, polish, s, events, g);
    } else if s.generation >= g {
      LeftForGood(rms, polish, s, events, g);
    }
  }

  // ----- Every earlier event keeps its contract -----

  lemma CurrentReplyStill(truth: Truth, s: App, i: nat, reply: Reply, freshId: nat, polish: Polish, next: ChunkCut)
    requires AllTrue(truth, s) && Trusted(truth, s, ChunkReply(i, reply, freshId)) && i < |s.chunkJobs|
    requires InTake(s, s.generation) && s.chunkJobs[i].generation == s.generation && GoodChunk(next)
    requires LeadsTo(ChunkReplyStep(s, i, reply, freshId, polish), s.generation, next)
    ensures TrustedChunk(Retold(truth(s.generation), next), s.chunkJobs[i], reply)
  {
    var job, st := s.chunkJobs[i], s.chunked.value.(pending := false);
    FittingChunkIsGood(s, job);
    CommitIsInRegion(s.buffer, st, job, reply, freshId, polish);
    ReplyIsOnward(s, i, reply, freshId, polish);
    var (_, at) := Digested(st, job, reply, freshId, polish);
    if at.Some? {
      CommitMovesMarkTo(s.buffer, at.value);
    }
    ReplyStill(truth(s.generation), st, job, reply, freshId, polish, next);
  }

  lemma StartStill(truth: Truth, s: App, mic: Microphone, whisper: bool, g: nat, next: ChunkCut)
    requires Trusted(truth, s, Start(mic, whisper)) && s.generation <= g && GoodChunk(next)
    requires Settled(truth(g)[..Before(truth(g), next.regionStart as real)], next)
    requires LeadsTo(StartStep(s, mic, whisper), g, next)
    ensures Trusted(RetoldTruth(truth, g, next), s, Start(mic, whisper))
  {
    CrossingWordIsSliced(truth(g)[..Before(truth(g), next.regionStart as real)], next);
  }

  lemma TakeReplyStill(truth: Truth, s: App, i: nat, reply: Reply, g: nat, next: ChunkCut)
    requires Trusted(truth, s, TakeReply(i, reply)) && Minted(s) && LeadsTo(s, g, next)
    ensures Trusted(RetoldTruth(truth, g, next), s, TakeReply(i, reply))
  {
  }

  lemma ChunkReplyStill(truth: Truth, s: App, i: nat, reply: Reply, freshId: nat, polish: Polish, g: nat, next: ChunkCut)
    requires AllTrue(truth, s) && Trusted(truth, s, ChunkReply(i, reply, freshId)) && GoodChunk(next)
    requires LeadsTo(s, g, next) && LeadsTo(ChunkReplyStep(s, i, reply, freshId, polish), g, next)
    ensures Trusted(RetoldTruth(truth, g, next), s, ChunkReply(i, reply, freshId))
  {
    if i < |s.chunkJobs| && s.chunkJobs[i].generation == g {
      CurrentReplyStill(truth, s, i, reply, freshId, polish, next);
    }
  }

  lemma EventStill(rms: Measure, polish: Polish, truth: Truth, s: App, e: Event, g: nat, next: ChunkCut)
    requires AllTrue(truth, s) && Minted(s) && Trusted(truth, s, e) && GoodChunk(next)
    requires Settled(truth(g)[..Before(truth(g), next.regionStart as real)], next)
    requires LeadsTo(s, g, next) && LeadsTo(Step(rms, polish, s, e), g, next)
    ensures Trusted(RetoldTruth(truth, g, next), s, e)
  {
    match e
    case Start(mic, whisper) => StartStill(truth, s, mic, whisper, g, next);
    case ChunkReply(i, reply, freshId) => ChunkReplyStill(truth, s, i, reply, freshId, polish, g, next);
    case TakeReply(i, reply) => TakeReplyStill(truth, s, i, reply, g, next);
    case _ =>
  }

  /** A trusted run to a chunk that may be cut stays trusted when what was said from the chunk on is told differently. */
  lemma {:induction false} RetoldIsTrusted(rms: Measure, polish: Polish, truth: Truth, s: App, events: seq<Event>, g: nat,
      next: ChunkCut)
    requires AllTrue(truth, s) && Orderly(s) && GoodChunk(next)
    requires TrustedRun(rms, polish, truth, s, events) && NeverRisks(rms, polish, s, events)
    requires Settled(truth(g)[..Before(truth(g), next.regionStart as real)], next)
    requires InTake(Run(rms, polish, s, events), g) && LeadsTo(Run(rms, polish, s, events), g, next)
    ensures TrustedRun(rms, polish, RetoldTruth(truth, g, next), s, events)
    decreases |events|
  {
    if events != [] {
      var s' := Step(rms, polish, s, events[0]);
      StepIsExact(rms, polish, truth, s, events[0]);
      StepIsOrderly(rms, polish, s, events[0]);
      LedThere(rms, polish, s, events, g, next);
      LedThere(rms, polish, s', events[1..], g, next);
      EventStill(rms, polish, truth, s, events[0], g, next);
      RetoldIsTrusted(rms, polish, truth, s', events[1..], g, next);
    }
  }

  // ----- From a risky tick to a wrong transcript: the chunk is answered, and the take is stopped right after it. -----

  function RiskyJob(s: App, chunk: ChunkCut): ChunkJob {
    ChunkJob(s.generation, chunk, false)
  }

  function HandedOut(s: App, chunk: ChunkCut): App
    requires s.chunked.Some?
  {
    s.(chunked := Some(s.chunked.value.(pending := true)), chunkJobs := s.chunkJobs + [RiskyJob(s, chunk)])
  }

  function Mangled(s: App, chunk: ChunkCut): App
    requires s.chunked.Some?
  {
    CommitStep(s.(chunked := Some(s.chunked.value.(results := s.chunked.value.results + [WholeClip(chunk)]))), chunk.cut)
  }

  function Stopped(s: App, chunk: ChunkCut): App
    requires s.chunked.Some?
  {
    Submitted(Released(Mangled(s, chunk)).(chunked := None), TakeAtStop(Mangled(s, chunk)))
  }

  function Finishing(s: App): seq<Event> {
    [Stop(true)] + ([TakeReply(|s.takeJobs|, NoSpeech(""))] + [])
  }

  function Ending(s: App, chunk: ChunkCut): seq<Event> {
    [ChunkReply(|s.chunkJobs|, Decoded(WholeClip(chunk)), 0)] + Finishing(s)
  }

  /** The chunk a risky tick hands out. */
  ghost predicate IsRisky(rms: Measure, s: App, chunk: ChunkCut) {
    && MayChunk(s) && !chunk.verifiedQuiet
    && Peek(rms, s.buffer, CHUNK_MIN_SECS, CHUNK_MAX_SECS) == Some(chunk)
  }

  lemma RiskyChunkIsGood(rms: Measure, truth: Truth, s: App, chunk: ChunkCut)
    requires AllTrue(truth, s) && IsRisky(rms, s, chunk)
    ensures TickStep(rms, s, false) == HandedOut(s, chunk)
    ensures Fits(s.buffer, RiskyJob(s, chunk)) && GoodChunk(chunk) && LeadsTo(s, s.generation, chunk)
    ensures Settled(truth(s.generation)[..Before(truth(s.generation), chunk.regionStart as real)], chunk)
  {
    TickKeeps(rms, s, false);
    var t := TickStep(rms, s, false);
    assert t.chunkJobs[|s.chunkJobs|] == RiskyJob(s, chunk) && Current(t, t.chunkJobs[|s.chunkJobs|]);
    FittingChunkIsGood(s, RiskyJob(s, chunk));
    BeforeIsSettled(truth(s.generation), chunk);
  }

  lemma ReplyMangles(s: App, chunk: ChunkCut, polish: Polish)
    requires MayChunk(s) && GoodChunk(chunk) && !chunk.verifiedQuiet
    ensures ChunkReplyStep(HandedOut(s, chunk), |s.chunkJobs|, Decoded(WholeClip(chunk)), 0, polish) == Mangled(s, chunk)
  {
    WholeClipIsKept(s.chunked.value, RiskyJob(s, chunk), polish);
    assert Without(s.chunkJobs + [RiskyJob(s, chunk)], |s.chunkJobs|) == s.chunkJobs;
  }

  lemma MangledTake(s: App, chunk: ChunkCut)
    requires Inv(s) && MayChunk(s) && Fits(s.buffer, RiskyJob(s, chunk))
    ensures
      var take := TakeAtStop(Mangled(s, chunk));
      && take.id == s.generation && |take.drained| == chunk.cut
      && take.chunks == s.chunked.value.results + [WholeClip(chunk)]
      && Stopped(s, chunk).takeJobs == s.takeJobs + [TakeJob(take, s.generation, s.token)]
      && Stopped(s, chunk).aborted == s.aborted && Stopped(s, chunk).finished == s.finished
  {
  }

  lemma StopSubmits(s: App, chunk: ChunkCut, polish: Polish)
    requires MayChunk(s)
    ensures StopStep(Mangled(s, chunk), true, polish) == Stopped(s, chunk)
  {
  }

  /** A finished take, not marked incomplete, whose text is not what was said. */
  ghost predicate Wrong(truth: Truth, f: Finished) {
    f.outcome.incomplete.None? && Words(f.outcome.rawText) != TextsOf(truth(f.take.id))
  }

  ghost predicate EndsWrong(truth: Truth, s: App) {
    exists i :: 0 <= i < |s.finished| && Wrong(truth, s.finished[i])
  }

  lemma CombinedIsWrong(before: seq<Word>, results: seq<Outcome>, chunk: ChunkCut, polish: Polish, total: real, id: nat)
    requires AllWords(RawTexts(results)) == TextsOf(before)
    requires forall k :: 0 <= k < |results| ==> results[k].incomplete.None?
    ensures
      var o := Combined(results + [WholeClip(chunk)], polish, total, id);
      o.incomplete == None && Words(o.rawText) != TextsOf(before + [CrossingWord(chunk)])
  {
    var parts := results + [WholeClip(chunk)];
    CombinedWords(parts, polish, total, id);
    NoneIncomplete(parts);
    PartIsCommitted(before, results, chunk);
  }

  lemma FinishesWrong(truth: Truth, s: App, chunk: ChunkCut, polish: Polish)
    requires AllTrue(truth, s) && Minted(s) && MayChunk(s) && Fits(s.buffer, RiskyJob(s, chunk))
    ensures
      EndsWrong(RetoldTruth(truth, s.generation, chunk), TakeReplyStep(Stopped(s, chunk), |s.takeJobs|, NoSpeech(""), polish))
  {
    var g, take := s.generation, TakeAtStop(Mangled(s, chunk));
    var t := TakeReplyStep(Stopped(s, chunk), |s.takeJobs|, NoSpeech(""), polish);
    MangledTake(s, chunk);
    CombinedIsWrong(truth(g)[..Before(truth(g), chunk.regionStart as real)], s.chunked.value.results, chunk, polish,
                    take.durationSecs, take.id);
    TakeReplyStepCases(Stopped(s, chunk), |s.takeJobs|, NoSpeech(""), polish);
    assert Wrong(RetoldTruth(truth, g, chunk), t.finished[|s.finished|]);
  }

  lemma OneStep(rms: Measure, polish: Polish, truth: Truth, s: App, e: Event, rest: seq<Event>)
    requires Trusted(truth, s, e) && TrustedRun(rms, polish, truth, Step(rms, polish, s, e), rest)
    ensures TrustedRun(rms, polish, truth, s, [e] + rest)
    ensures Run(rms, polish, s, [e] + rest) == Run(rms, polish, Step(rms, polish, s, e), rest)
    ensures !Risks(rms, s, e) && NeverRisks(rms, polish, Step(rms, polish, s, e), rest) ==>
              NeverRisks(rms, polish, s, [e] + rest)
  {
    assert ([e] + rest)[1..] == rest;
  }

  lemma FinishingIsTrusted(rms: Measure, polish: Polish, truth: Truth, s: App, chunk: ChunkCut)
    requires AllTrue(truth, s) && MayChunk(s) && Fits(s.buffer, RiskyJob(s, chunk)) && GoodChunk(chunk)
    requires Settled(truth(s.generation)[..Before(truth(s.generation), chunk.regionStart as real)], chunk)
    ensures TrustedRun(rms, polish, RetoldTruth(truth, s.generation, chunk), Mangled(s, chunk), Finishing(s))
    ensures NeverRisks(rms, polish, Mangled(s, chunk), Finishing(s))
    ensures Run(rms, polish, Mangled(s, chunk), Finishing(s))
         == TakeReplyStep(Stopped(s, chunk), |s.takeJobs|, NoSpeech(""), polish)
  {
    var truth' := RetoldTruth(truth, s.generation, chunk);
    MangledTake(s, chunk);
    StopSubmits(s, chunk, polish);
    CrossingWordIsSliced(truth(s.generation)[..Before(truth(s.generation), chunk.regionStart as real)], chunk);
    assert TrustedTail(truth'(s.generation), TakeAtStop(Mangled(s, chunk)), NoSpeech(""));
    OneStep(rms, polish, truth', Stopped(s, chunk), TakeReply(|s.takeJobs|, NoSpeech("")), []);
    OneStep(rms, polish, truth', Mangled(s, chunk), Stop(true), [TakeReply(|s.takeJobs|, NoSpeech(""))] + []);
  }

  lemma EndingIsWrong(rms: Measure, polish: Polish, truth: Truth, s: App, chunk: ChunkCut)
    requires AllTrue(truth, s) && Orderly(s) && IsRisky(rms, s, chunk)
    ensures TrustedRun(rms, polish, RetoldTruth(truth, s.generation, chunk), TickStep(rms, s, false), Ending(s, chunk))
    ensures NeverRisks(rms, polish, TickStep(rms, s, false), Ending(s, chunk))
    ensures EndsWrong(RetoldTruth(truth, s.generation, chunk), Run(rms, polish, TickStep(rms, s, false), Ending(s, chunk)))
  {
    var truth' := RetoldTruth(truth, s.generation, chunk);
    RiskyChunkIsGood(rms, truth, s, chunk);
    ReplyMangles(s, chunk, polish);
    FinishingIsTrusted(rms, polish, truth, s, chunk);
    FinishesWrong(truth, s, chunk, polish);
    WholeClipIsTrusted(truth(s.generation)[..Before(truth(s.generation), chunk.regionStart as real)], RiskyJob(s, chunk));
    OneStep(rms, polish, truth', HandedOut(s, chunk), ChunkReply(|s.chunkJobs|, Decoded(WholeClip(chunk)), 0),
            Finishing(s));
  }

  // ----- The exact condition over runs -----

  lemma {:induction false} RunOnward(rms: Measure, polish: Polish, truth: Truth, s: App, events: seq<Event>, more: seq<Event>)
    ensures Run(rms, polish, s, events + more) == Run(rms, polish, Run(rms, polish, s, events), more)
    ensures TrustedRun(rms, polish, truth, s, events + more) <==>
              TrustedRun(rms, polish, truth, s, events)
              && TrustedRun(rms, polish, truth, Run(rms, polish, s, events), more)
    ensures NeverRisks(rms, polish, s, events + more) <==>
              NeverRisks(rms, polish, s, events) && NeverRisks(rms, polish, Run(rms, polish, s, events), more)
    decreases |events|
  {
    if events == [] {
      assert events + more == more;
    } else {
      assert (events + more)[1..] == events[1..] + more;
      RunOnward(rms, polish, truth, Step(rms, polish, s, events[0]), events[1..], more);
    }
  }

  /** After these events, then `e`, then an ending in which no tick risks anything, with every contract kept, some take
      has finished wrong. */
  ghost predicate EndsWrongAfter(rms: Measure, polish: Polish, events: seq<Event>, e: Event, truth: Truth, ending: seq<Event>) {
    && TrustedRun(rms, polish, truth, Fresh, events + ([e] + ending))
    && NeverRisks(rms, polish, Step(rms, polish, Run(rms, polish, Fresh, events), e), ending)
    && EndsWrong(truth, Run(rms, polish, Fresh, events + ([e] + ending)))
  }

  lemma FreshIsFine(truth: Truth)
    ensures AllTrue(truth, Fresh) && Orderly(Fresh)
  {
  }

  lemma RiskyTickEndsWrong(rms: Measure, polish: Polish, truth: Truth, events: seq<Event>)
    returns (truth': Truth, ending: seq<Event>)
    requires TrustedRun(rms, polish, truth, Fresh, events) && NeverRisks(rms, polish, Fresh, events)
    requires Risks(rms, Run(rms, polish, Fresh, events), Tick(false))
    ensures EndsWrongAfter(rms, polish, events, Tick(false), truth', ending)
  {
    var s := Run(rms, polish, Fresh, events);
    var chunk := Peek(rms, s.buffer, CHUNK_MIN_SECS, CHUNK_MAX_SECS).value;
    FreshIsFine(truth);
    RunIsExact(rms, polish, truth, Fresh, events);
    RunIsOrderly(rms, polish, Fresh, events);
    truth', ending := RetoldTruth(truth, s.generation, chunk), Ending(s, chunk);
    RiskyChunkIsGood(rms, truth, s, chunk);
    RetoldIsTrusted(rms, polish, truth, Fresh, events, s.generation, chunk);
    EndingIsWrong(rms, polish, truth, s, chunk);
    OneStep(rms, polish, truth', s, Tick(false), ending);
    RunOnward(rms, polish, truth', Fresh, events, [Tick(false)] + ending);
  }

  lemma SafeEventEndsRight(rms: Measure, polish: Polish, events: seq<Event>, e: Event, truth: Truth, ending: seq<Event>)
    requires NeverRisks(rms, polish, Fresh, events)
    requires EndsWrongAfter(rms, polish, events, e, truth, ending)
    ensures Risks(rms, Run(rms, polish, Fresh, events), e)
  {
    var s := Run(rms, polish, Fresh, events);
    if !Risks(rms, s, e) {
      RunOnward(rms, polish, truth, Fresh, events, [e] + ending);
      assert ([e] + ending)[1..] == ending;
      WordsAppearExactlyOnce(rms, polish, truth, events + ([e] + ending));
      assert false;
    }
  }

  /** After any trusted run without a risk, an event can lead to a finished take that is wrong, with every contract kept
      and no risk after it, if and only if it is a tick that hands a chunk cut at a risky place to a decoder without
      timings. */
  lemma EndsWrongExactlyWhenRisky(rms: Measure, polish: Polish, truth: Truth, events: seq<Event>, e: Event)
    requires TrustedRun(rms, polish, truth, Fresh, events) && NeverRisks(rms, polish, Fresh, events)
    ensures Risks(rms, Run(rms, polish, Fresh, events), e) <==>
              exists truth', ending :: EndsWrongAfter(rms, polish, events, e, truth', ending)
  {
    if Risks(rms, Run(rms, polish, Fresh, events), e) {
      var truth', ending := RiskyTickEndsWrong(rms, polish, truth, events);
    } else {
      forall truth', ending
        ensures !EndsWrongAfter(rms, polish, events, e, truth', ending)
      {
        if EndsWrongAfter(rms, polish, events, e, truth', ending) {
          SafeEventEndsRight(rms, polish, events, e, truth', ending);
        }
      }
    }
  }

  // ----- A run that gets there -----

  /** Dictation starts on a decoder with timings, and by the time a chunk is due the backend is one without. */
  function Switching(): seq<Event> {
    [Start(Opened(RATE, 1), true)] + ([Push(LoudTake())] + [])
  }

  function Silence(): Truth {
    (n: nat) => []
  }

  function Listening(): App {
    App(Mini, true, 1, 1, {}, Some(ChunkedDictation(1, [], false, false)), None, false, LoudBuffer(), LoudTake(), [],
        [], [], [], [])
  }

  lemma StartedAndPushed()
    ensures PushStep(StartStep(Fresh, Opened(RATE, 1), true), LoudTake()) == Listening()
  {
    assert [] + LoudTake() == LoudTake();
  }

  lemma SwitchingIsTrusted(rms: Measure, polish: Polish)
    ensures TrustedRun(rms, polish, Silence(), Fresh, Switching()) && NeverRisks(rms, polish, Fresh, Switching())
    ensures Run(rms, polish, Fresh, Switching()) == Listening()
  {
    var s := StartStep(Fresh, Opened(RATE, 1), true);
    StartedAndPushed();
    OneStep(rms, polish, Silence(), s, Push(LoudTake()), []);
    OneStep(rms, polish, Silence(), Fresh, Start(Opened(RATE, 1), true), [Push(LoudTake())] + []);
  }

  /** Switching the backend while a take records can lose a word: with every decoder and microphone keeping its contract,
      the take finishes, is not marked incomplete, and its text is not what was said. */
  lemma SwitchingLosesAWord(rms: Measure, polish: Polish) returns (truth: Truth, ending: seq<Event>)
    requires MeasuresLoud(rms)
    ensures EndsWrongAfter(rms, polish, Switching(), Tick(false), truth, ending)
  {
    LoudTakeIsCutAtRisk(rms);
    SwitchingIsTrusted(rms, polish);
    truth, ending := RiskyTickEndsWrong(rms, polish, Silence(), Switching());
  }
}
