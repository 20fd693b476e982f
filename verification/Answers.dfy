/** What the answer to a chunk does, exactly (src/application.rs:1012-1091, src/recording.rs:715-755): what it commits, when
    it ends chunking, and that otherwise chunking goes on. */
module Answers {
  import opened Wrappers
  import opened Numbers
  import opened Sequences
  import opened Text
  import opened Chunking
  import opened AudioBuffers
  import opened Recording
  import opened Dictation

  // ----- One answer -----

  /** Segment `h` is the first that ends in the last half second of a chunk from which something is to be held back. */
  ghost predicate IsHeld(job: ChunkJob, segments: seq<Segment>, h: nat) {
    && !job.chunk.verifiedQuiet && job.timed
    && (exists s :: s in segments && (s.start != 0 || s.end != 0))
    && h < |segments| && segments[h].end as real > CutMs(job.chunk) - 500.0
    && forall k :: 0 <= k < h ==> segments[k].end as real <= CutMs(job.chunk) - 500.0
  }

  /** Where the audio behind segment `h` begins. */
  function HeldFrom(job: ChunkJob, segments: seq<Segment>, h: nat): real
    requires h < |segments|
  {
    if segments[h].start as real <= CutMs(job.chunk) then segments[h].start as real else CutMs(job.chunk)
  }

  /** Nothing lies before segment `h`, or a segment before it runs past its start. */
  ghost predicate IsAmbiguous(job: ChunkJob, segments: seq<Segment>, h: nat) {
    && IsHeld(job, segments, h)
    && (HeldFrom(job, segments, h) <= 0.0
        || exists k :: 0 <= k < h && segments[k].end as real > HeldFrom(job, segments, h))
  }

  /** The answer retires no audio. */
  ghost predicate Blocks(job: ChunkJob, reply: Reply) {
    match reply
    case Decoded(o) => CutMs(job.chunk) <= 0.0 || exists h :: IsAmbiguous(job, o.segments, h)
    case NoSpeech(_) => false
    case _ => true
  }

  lemma HeldIsUnique(job: ChunkJob, segments: seq<Segment>, h: nat, k: nat)
    requires IsHeld(job, segments, h) && IsHeld(job, segments, k)
    ensures h == k
  {
  }

  /** Without a segment to hold back, the answer is committed whole. */
  lemma WholeSplit(job: ChunkJob, o: Outcome, polish: Polish)
    requires forall h :: !IsHeld(job, o.segments, h)
    ensures SplitChunkOutcome(o, CutMs(job.chunk), HoldsBack(job), polish) == (o, CutMs(job.chunk))
  {
    var held := FirstReaching(o.segments, CutMs(job.chunk) - TAIL_GUARD_MS);
    if HoldsBack(job) && !Untimed(o.segments) && held.Some? {
      assert IsHeld(job, o.segments, held.value);
    }
  }

  /** What stays of a decode that is cut short: the segments before `h`, their text polished again, and their duration. */
  ghost predicate IsCutShort(o: Outcome, kept: Outcome, h: nat, ms: real, polish: Polish) {
    && h <= |o.segments| && kept.segments == o.segments[..h]
    && Words(kept.rawText) == AllWords(SegmentTexts(o.segments[..h]))
    && kept.cleanedText == polish(kept.rawText, if o.confidenceAvailable then Some(o.confidence) else None)
    && kept.durationSecs == ms / 1000.0
    && kept.id == o.id && kept.incomplete == o.incomplete && kept.language == o.language
    && kept.confidence == o.confidence && kept.confidenceAvailable == o.confidenceAvailable
  }

  lemma HeldSplit(job: ChunkJob, o: Outcome, polish: Polish, h: nat)
    requires IsHeld(job, o.segments, h)
    ensures
      var (kept, watermark) := SplitChunkOutcome(o, CutMs(job.chunk), HoldsBack(job), polish);
      if IsAmbiguous(job, o.segments, h) then watermark == 0.0
      else watermark == HeldFrom(job, o.segments, h) > 0.0 && IsCutShort(o, kept, h, watermark, polish)
  {
    var least := HeldFrom(job, o.segments, h);
    CommitsPartExactly(o.segments, CutMs(job.chunk), h, least);
    WordsOfJoinTrimmed(SegmentTexts(o.segments[..h]));
  }

  /** A decode that does not block is committed: whole at the cut, or cut short before the held segment. */
  ghost predicate IsCommitted(job: ChunkJob, o: Outcome, kept: Outcome, at: nat, polish: Polish) {
    var chunk := job.chunk;
    if exists h :: IsHeld(job, o.segments, h) then
      exists h :: IsHeld(job, o.segments, h) && IsHeldCommit(job, o, kept, at, h, polish)
    else
      kept == o && at == IndexOf(chunk, CutMs(chunk))
  }

  ghost predicate IsHeldCommit(job: ChunkJob, o: Outcome, kept: Outcome, at: nat, h: nat, polish: Polish)
    requires h < |o.segments|
  {
    && IsCutShort(o, kept, h, HeldFrom(job, o.segments, h), polish)
    && at == IndexOf(job.chunk, HeldFrom(job, o.segments, h))
  }

  /** A time of the chunk as a place in the take. */
  function IndexOf(chunk: ChunkCut, ms: real): nat {
    RawIndexForMs(chunk.regionStart, chunk.cut, chunk.snapshot.rate, chunk.snapshot.channels, ms)
  }

  /** A chunk without speech: no text, and as long as the chunk. */
  ghost predicate IsPlaceholder(chunk: ChunkCut, kept: Outcome, freshId: nat) {
    && kept.id == freshId && kept.rawText == "" && kept.cleanedText == "" && kept.segments == []
    && kept.durationSecs * 1000.0 == CutMs(chunk)
    && kept.incomplete.None? && kept.language.None? && !kept.confidenceAvailable
  }

  lemma DecodedIsExact(st: ChunkedDictation, job: ChunkJob, o: Outcome, freshId: nat, polish: Polish)
    ensures
      var (st', at) := Digested(st, job, Decoded(o), freshId, polish);
      if Blocks(job, Decoded(o)) then at == None && st' == st.(disabled := true)
      else
        && st'.results != [] && st' == st.(results := st.results + [Last(st'.results)])
        && at.Some? && IsCommitted(job, o, Last(st'.results), at.value, polish)
  {
    if h: nat :| IsHeld(job, o.segments, h) {
      HeldSplit(job, o, polish, h);
      forall k: nat | IsHeld(job, o.segments, k)
        ensures k == h
      {
        HeldIsUnique(job, o.segments, h, k);
      }
      assert IsAmbiguous(job, o.segments, h) <==> exists k :: IsAmbiguous(job, o.segments, k);
    } else {
      WholeSplit(job, o, polish);
    }
  }

  /** An answer either adds one result and leaves chunking as it was, or blocks: then it changes no result, retires no
      audio, and ends chunking for the take. */
  lemma AnswerIsExact(st: ChunkedDictation, job: ChunkJob, reply: Reply, freshId: nat, polish: Polish)
    ensures
      var (st', at) := Digested(st, job, reply, freshId, polish);
      if Blocks(job, reply) then at == None && st' == st.(disabled := true)
      else
        && st'.results != [] && st' == st.(results := st.results + [Last(st'.results)])
        && at.Some?
        && if reply.Decoded? then IsCommitted(job, reply.outcome, Last(st'.results), at.value, polish)
           else IsPlaceholder(job.chunk, Last(st'.results), freshId) && at.value == job.chunk.cut
  {
    if reply.Decoded? {
      DecodedIsExact(st, job, reply.outcome, freshId, polish);
    }
  }

  /** Ordered segments block only when the held one starts the chunk. */
  lemma OrderedIsNotAmbiguous(job: ChunkJob, o: Outcome, h: nat)
    requires CutMs(job.chunk) > 0.0 && Ordered(o.segments, 0)
    requires IsHeld(job, o.segments, h) && o.segments[h].start > 0
    ensures !Blocks(job, Decoded(o))
  {
    forall k | IsAmbiguous(job, o.segments, k)
      ensures false
    {
      HeldIsUnique(job, o.segments, h, k);
    }
  }

  // ----- In the machine -----

  /** A reply to the current chunk, and what it does to the take. */
  lemma CurrentReply(s: App, i: nat, reply: Reply, freshId: nat, polish: Polish)
    requires i < |s.chunkJobs| && Current(s, s.chunkJobs[i])
    ensures
      var s', job, st := ChunkReplyStep(s, i, reply, freshId, polish), s.chunkJobs[i], s.chunked.value;
      && s'.chunked.Some? && !s'.chunked.value.pending && s'.chunked.value.generation == st.generation
      && if Blocks(job, reply) then s'.chunked.value.disabled && s'.chunked.value.results == st.results && s'.buffer == s.buffer
         else s'.chunked.value.disabled == st.disabled && |s'.chunked.value.results| == |st.results| + 1
  {
    AnswerIsExact(s.chunked.value.(pending := false), s.chunkJobs[i], reply, freshId, polish);
  }

  /** Some event answers the current chunk in a way that blocks. */
  ghost predicate BlocksIn(s: App, e: Event) {
    e.ChunkReply? && e.job < |s.chunkJobs| && Current(s, s.chunkJobs[e.job]) && Blocks(s.chunkJobs[e.job], e.reply)
  }

  ghost predicate NeverBlocked(rms: Measure, polish: Polish, s: App, events: seq<Event>)
    decreases |events|
  {
    events == [] || (!BlocksIn(s, events[0]) && NeverBlocked(rms, polish, Step(rms, polish, s, events[0]), events[1..]))
  }

  predicate InFlight(s: App, i: int) {
    0 <= i < |s.chunkJobs| && Current(s, s.chunkJobs[i])
  }

  /** A chunk awaited is one in flight. */
  ghost predicate AwaitsOne(s: App) {
    s.chunked.Some? && s.chunked.value.pending ==> exists i :: InFlight(s, i)
  }

  ghost predicate Enabled(s: App) {
    s.chunked.Some? ==> !s.chunked.value.disabled
  }

  lemma ReplyAwaits(s: App, i: nat, reply: Reply, freshId: nat, polish: Polish)
    requires AwaitsOne(s)
    ensures AwaitsOne(ChunkReplyStep(s, i, reply, freshId, polish))
  {
    if i < |s.chunkJobs| {
      if Current(s, s.chunkJobs[i]) {
        CurrentReply(s, i, reply, freshId, polish);
      } else if s.chunked.Some? && s.chunked.value.pending {
        var k :| InFlight(s, k);
        var s' := ChunkReplyStep(s, i, reply, freshId, polish);
        assert InFlight(s', if k < i then k else k - 1);
      }
    }
  }

  lemma TickAwaits(rms: Measure, s: App, timed: bool)
    requires AwaitsOne(s)
    ensures AwaitsOne(TickStep(rms, s, timed))
  {
    var s' := TickStep(rms, s, timed);
    if s' != s {
      assert InFlight(s', |s.chunkJobs|);
    }
  }

  /** Steps that touch neither the chunk state nor the chunks in flight, or end the take. */
  ghost predicate SameChunks(s: App, s': App) {
    s'.chunkJobs == s.chunkJobs && (s'.chunked == s.chunked || s'.chunked.None? || NewTake(s'))
  }

  predicate NewTake(s: App) {
    s.chunked.Some? && s.chunked.value.results == [] && !s.chunked.value.pending && !s.chunked.value.disabled
  }

  lemma OtherEventsKeepChunks(rms: Measure, polish: Polish, s: App, e: Event)
    requires !e.ChunkReply? && !e.Tick?
    ensures SameChunks(s, Step(rms, polish, s, e))
  {
    if e.TakeReply? {
      TakeReplyKeepsChunks(s, e.job, e.reply, polish);
    }
  }

  lemma TakeReplyKeepsChunks(s: App, i: nat, reply: Reply, polish: Polish)
    ensures SameChunks(s, TakeReplyStep(s, i, reply, polish))
  {
  }

  lemma SameChunksAwait(s: App, s': App)
    requires AwaitsOne(s) && SameChunks(s, s')
    ensures AwaitsOne(s') && (Enabled(s) ==> Enabled(s'))
  {
    if s'.chunked == s.chunked && s.chunked.Some? && s.chunked.value.pending {
      var i :| InFlight(s, i);
      assert InFlight(s', i);
    }
  }

  lemma StepGoesOn(rms: Measure, polish: Polish, s: App, e: Event)
    requires AwaitsOne(s) && Enabled(s) && !BlocksIn(s, e)
    ensures AwaitsOne(Step(rms, polish, s, e)) && Enabled(Step(rms, polish, s, e))
  {
    if e.ChunkReply? {
      ReplyAwaits(s, e.job, e.reply, e.freshId, polish);
      if e.job < |s.chunkJobs| && Current(s, s.chunkJobs[e.job]) {
        CurrentReply(s, e.job, e.reply, e.freshId, polish);
      }
    } else if e.Tick? {
      TickAwaits(rms, s, e.timed);
    } else {
      OtherEventsKeepChunks(rms, polish, s, e);
      SameChunksAwait(s, Step(rms, polish, s, e));
    }
  }

  lemma {:induction false} RunGoesOn(rms: Measure, polish: Polish, s: App, events: seq<Event>)
    requires AwaitsOne(s) && Enabled(s) && NeverBlocked(rms, polish, s, events)
    ensures AwaitsOne(Run(rms, polish, s, events)) && Enabled(Run(rms, polish, s, events))
    decreases |events|
  {
    if events != [] {
      StepGoesOn(rms, polish, s, events[0]);
      RunGoesOn(rms, polish, Step(rms, polish, s, events[0]), events[1..]);
    }
  }

  /** Chunking never gets stuck: after any run in which no answer blocked, a take that is decoded in chunks has one in
      flight, or the next tick hands one out as soon as there is one to cut. */
  lemma ChunkingGoesOn(rms: Measure, polish: Polish, events: seq<Event>, timed: bool)
    requires NeverBlocked(rms, polish, Fresh, events)
    ensures
      var s := Run(rms, polish, Fresh, events);
      var chunk := Peek(rms, s.buffer, CHUNK_MIN_SECS, CHUNK_MAX_SECS);
      s.owner == Mini && s.chunked.Some? && chunk.Some? ==>
        || (exists i :: InFlight(s, i))
        || TickStep(rms, s, timed)
             == s.(chunked := Some(s.chunked.value.(pending := true)),
                   chunkJobs := s.chunkJobs + [ChunkJob(s.generation, chunk.value, timed)])
  {
    RunGoesOn(rms, polish, Fresh, events);
    RunKeeps(rms, polish, Fresh, events);
  }
}
