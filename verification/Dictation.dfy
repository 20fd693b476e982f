/** The global dictation as a state machine over its events (src/application.rs): recording,
    while-recording chunk decodes, stop, retry and cancel, with decode replies delivered in any order. */
module Dictation {
  import opened Wrappers
  import opened Numbers
  import opened Sequences
  import opened Chunking
  import opened AudioBuffers
  import opened Recording

  const CHUNK_MIN_SECS: real := 20.0
  const CHUNK_MAX_SECS: real := 40.0

  datatype Owner = Free | Main | VoiceEdit | Mini

  /** While-recording decode state of one take. */
  datatype ChunkedDictation = ChunkedDictation(generation: nat, results: seq<Outcome>, pending: bool, disabled: bool)

  /** A chunk decode in flight; `timed` says whether its decoder reports segment timings. */
  datatype ChunkJob = ChunkJob(generation: nat, chunk: ChunkCut, timed: bool)

  /** A stopped take, kept until it is delivered so that it can be retried. The last two fields record
      how it came about: all audio the take accepted, and the part released by chunk commits. */
  datatype RetryTake = RetryTake(id: nat, audio: Snapshot, chunks: seq<Outcome>, durationSecs: real, tailDuration: real,
                                 stream: seq<real>, drained: seq<real>)

  datatype TakeJob = TakeJob(take: RetryTake, generation: nat, token: nat)

  /** A finished take: what it produced, and whether it was delivered or only kept for history. */
  datatype Finished = Finished(take: RetryTake, outcome: Outcome, stale: bool)

  /** The chunk texts of a take whose tail could not be decoded at all. */
  datatype Salvaged = Salvaged(take: RetryTake, outcome: Outcome)

  /** `retryOffered` says whether the panel shows its retry button. */
  datatype App = App(owner: Owner, recording: bool, generation: nat, token: nat, aborted: set<nat>,
                     chunked: Option<ChunkedDictation>, retryTake: Option<RetryTake>, retryOffered: bool,
                     buffer: Buffer, stream: seq<real>, drained: seq<real>,
                     chunkJobs: seq<ChunkJob>, takeJobs: seq<TakeJob>, finished: seq<Finished>, salvaged: seq<Salvaged>)

  datatype Microphone = Opened(rate: nat, channels: nat) | Refused(cleared: bool)

  datatype Event =
    | Start(mic: Microphone, whisper: bool)
    | OtherStart(other: Owner, rate: nat, channels: nat)
    | OtherStop
    | VoiceStart(hasTarget: bool, rate: nat, channels: nat)
    | Push(samples: seq<real>)
    | Tick(timed: bool)
    | ChunkReply(job: nat, reply: Reply, freshId: nat)
    | Stop(backendReady: bool)
    | TakeReply(job: nat, reply: Reply)
    | Retry
    | Cancel
    | ClosePanel

  const Fresh: App := App(Free, false, 0, 0, {}, None, None, false, Buffer([], 0, 16_000, 1), [], [], [], [], [], [])

  // ----- Capture -----

  /** The slot is free when nothing records, even if a previous owner never released it. */
  predicate CanAcquire(s: App, owner: Owner) {
    !(s.recording && s.owner != Free) || s.owner == owner
  }

  function Capturing(s: App, rate: nat, channels: nat): App {
    s.(recording := true, buffer := s.buffer.Cleared(rate, channels), stream := [], drained := [])
  }

  /** Stop capturing: the buffer is detached only when something was recording. */
  function Released(s: App): App {
    s.(owner := Free, recording := false, buffer := if s.recording then s.buffer.Taken() else s.buffer)
  }

  /** The microphone opens, or is refused before or after the buffer was cleared for it. */
  function OpenStep(s: App, mic: Microphone): App {
    match mic
    case Opened(rate, channels) => Capturing(s, rate, channels)
    case Refused(cleared) =>
      s.(owner := Free, recording := false,
         buffer := if cleared then s.buffer.Cleared(s.buffer.rate, s.buffer.channels) else s.buffer)
  }

  function StartStep(s: App, mic: Microphone, whisper: bool): App {
    var s := s.(retryTake := None);
    if !CanAcquire(s, Mini) then s
    else
      var s := s.(owner := Mini, generation := s.generation + 1, token := s.token + 1,
                  chunked := if whisper then Some(ChunkedDictation(s.generation + 1, [], false, false)) else None);
      OpenStep(s, mic)
  }

  function OtherStartStep(s: App, other: Owner, rate: nat, channels: nat): App {
    if other !in {Main, VoiceEdit} || !CanAcquire(s, other) then s
    else Capturing(s.(owner := other), rate, channels)
  }

  function OtherStopStep(s: App): App {
    if s.owner !in {Main, VoiceEdit} then s else Released(s)
  }

  /** Replace the cancel token without aborting what hangs on the old one. */
  function Armed(s: App): App {
    s.(token := s.token + 1)
  }

  /** A voice edit arms a fresh token first, whatever happens next. */
  function VoiceStartStep(s: App, hasTarget: bool, rate: nat, channels: nat): App {
    if hasTarget then OtherStartStep(Armed(s), VoiceEdit, rate, channels) else Armed(s)
  }

  function PushStep(s: App, samples: seq<real>): App {
    if s.recording && s.buffer.Accepts(samples, MAX_BUFFER_SAMPLES) then
      s.(buffer := s.buffer.Pushed(samples, MAX_BUFFER_SAMPLES), stream := s.stream + samples)
    else
      s
  }

  // ----- Chunk decodes -----

  predicate MayChunk(s: App) {
    && s.chunked.Some?
    && s.chunked.value.generation == s.generation && !s.chunked.value.pending && !s.chunked.value.disabled
    && s.owner == Mini
  }

  function TickStep(rms: Measure, s: App, timed: bool): App {
    if !MayChunk(s) then s
    else
      var chunk := Peek(rms, s.buffer, CHUNK_MIN_SECS, CHUNK_MAX_SECS);
      if chunk.None? then s
      else
        s.(chunked := Some(s.chunked.value.(pending := true)),
           chunkJobs := s.chunkJobs + [ChunkJob(s.generation, chunk.value, timed)])
  }

  function ChunkSecs(chunk: ChunkCut): (secs: real)
    ensures secs >= 0.0
  {
    DurationSecs(|chunk.snapshot.samples|, chunk.snapshot.rate, chunk.snapshot.channels)
  }

  function CutMs(chunk: ChunkCut): (ms: real)
    ensures ms >= 0.0
  {
    ChunkSecs(chunk) * 1000.0
  }

  predicate HoldsBack(job: ChunkJob) {
    !job.chunk.verifiedQuiet && job.timed
  }

  function Placeholder(chunk: ChunkCut, freshId: nat): Outcome {
    Outcome(freshId, None, "", "", 0.0, false, [], None, CutMs(chunk) / 1000.0)
  }

  /** What a reply makes of the take's chunk state, and where it commits the buffer. */
  function Digested(st: ChunkedDictation, job: ChunkJob, reply: Reply, freshId: nat, polish: Polish): (ChunkedDictation, Option<nat>) {
    var chunk := job.chunk;
    match reply
    case Decoded(o) =>
      var (kept, watermark) := SplitChunkOutcome(o, CutMs(chunk), HoldsBack(job), polish);
      if watermark <= 0.0 then (st.(disabled := true), None)
      else
        (st.(results := st.results + [kept]),
         Some(RawIndexForMs(chunk.regionStart, chunk.cut, chunk.snapshot.rate, chunk.snapshot.channels, watermark)))
    case NoSpeech(_) => (st.(results := st.results + [Placeholder(chunk, freshId)]), Some(chunk.cut))
    case _ => (st.(disabled := true), None)
  }

  function CommitStep(s: App, at: nat): App {
    s.(buffer := s.buffer.Committed(at), drained := s.drained + s.buffer.Released(at))
  }

  /** A reply is obsolete once its take was stopped, cancelled or replaced. */
  predicate Current(s: App, job: ChunkJob) {
    s.chunked.Some? && s.chunked.value.generation == job.generation
  }

  function ChunkReplyStep(s: App, i: nat, reply: Reply, freshId: nat, polish: Polish): App {
    if i >= |s.chunkJobs| then s
    else
      var job := s.chunkJobs[i];
      var s := s.(chunkJobs := Without(s.chunkJobs, i));
      if !Current(s, job) then s
      else
        var (st, at) := Digested(s.chunked.value.(pending := false), job, reply, freshId, polish);
        var s := s.(chunked := Some(st));
        if at.Some? then CommitStep(s, at.value) else s
  }

  // ----- Stop, retry and cancel -----

  function BufferSecs(b: Buffer): real {
    (b.RawLen() / AtLeastOne(b.channels)) as real / AtLeastOne(b.rate) as real
  }

  function SnapshotAtStop(s: App): Snapshot {
    if s.recording then Snapshot(s.buffer.raw, s.buffer.rate, s.buffer.channels) else Snapshot([], 16_000, 1)
  }

  function ChunksAtStop(s: App): seq<Outcome> {
    if s.chunked.Some? && s.chunked.value.generation == s.generation then s.chunked.value.results else []
  }

  function TakeAtStop(s: App): RetryTake {
    var audio, chunks, secs := SnapshotAtStop(s), ChunksAtStop(s), BufferSecs(s.buffer);
    RetryTake(s.generation, audio, chunks, secs,
              if chunks != [] then DurationSecs(|audio.samples|, audio.rate, audio.channels) else secs,
              s.stream, s.drained)
  }

  /** Submitting a take hides the retry button. */
  function Submitted(s: App, take: RetryTake): App {
    s.(retryTake := Some(take), retryOffered := false, takeJobs := s.takeJobs + [TakeJob(take, s.generation, s.token)])
  }

  function SalvageOf(take: RetryTake, polish: Polish): Salvaged {
    Salvaged(take, Combined(take.chunks, polish, take.durationSecs, take.id)
                     .(incomplete := Some("Final audio was not transcribed")))
  }

  function StopStep(s: App, backendReady: bool, polish: Polish): App {
    if s.owner != Mini then s
    else
      var take := TakeAtStop(s);
      var s := Released(s).(chunked := None);
      if backendReady then Submitted(s, take)
      else if take.chunks == [] then s
      else s.(salvaged := s.salvaged + [SalvageOf(take, polish)])
  }

  /** A reply is stale when a newer dictation started meanwhile. */
  predicate Stale(s: App, job: TakeJob) {
    s.generation != job.generation || s.owner == Mini
  }

  /** A stale take only reaches history. A current one is shown, and a retry offered if part of its text is missing. */
  function Recorded(s: App, job: TakeJob, o: Outcome): App {
    var stale := Stale(s, job);
    s.(retryTake := if !stale && o.incomplete.None? then None else s.retryTake,
       retryOffered := if stale then s.retryOffered else o.incomplete.Some? && o.cleanedText != "",
       finished := s.finished + [Finished(job.take, o, stale)])
  }

  /** The error of a current take is shown with the offer of a retry. */
  function ErrorShown(s: App, job: TakeJob): App {
    s.(retryOffered := s.retryOffered || !Stale(s, job))
  }

  function TakeReplyStep(s: App, i: nat, reply: Reply, polish: Polish): App {
    if i >= |s.takeJobs| then s
    else
      var job := s.takeJobs[i];
      var s := s.(takeJobs := Without(s.takeJobs, i));
      if job.token in s.aborted then s
      else
        match FinishChunkedTake(job.take.chunks, reply, polish, job.take.durationSecs, job.take.id)
        case Error(_) => ErrorShown(s, job)
        case Complete(o) => Recorded(s, job, o.(id := job.take.id))
  }

  function Aborted(s: App): App {
    s.(aborted := s.aborted + {s.token}, token := s.token + 1)
  }

  /** The retry handler; the button that calls it is clickable only while it is offered. */
  function RetryStep(s: App): App {
    if s.owner != Free || s.retryTake.None? then s
    else
      var s := Aborted(s);
      Submitted(s.(generation := s.generation + 1), s.retryTake.value)
  }

  /** Cancel goes to the voice edit while it owns the microphone, else to the dictation. */
  function CancelStep(s: App): App {
    var s := Aborted(s);
    var s := s.(generation := s.generation + 1);
    if s.owner == VoiceEdit then Aborted(Released(s))
    else
      var s := s.(retryTake := None, chunked := None);
      if s.owner == Mini then Released(s) else s
  }

  function Step(rms: Measure, polish: Polish, s: App, e: Event): App {
    match e
    case Start(mic, whisper) => StartStep(s, mic, whisper)
    case OtherStart(other, rate, channels) => OtherStartStep(s, other, rate, channels)
    case OtherStop => OtherStopStep(s)
    case VoiceStart(hasTarget, rate, channels) => VoiceStartStep(s, hasTarget, rate, channels)
    case Push(samples) => PushStep(s, samples)
    case Tick(timed) => TickStep(rms, s, timed)
    case ChunkReply(i, reply, freshId) => ChunkReplyStep(s, i, reply, freshId, polish)
    case Stop(backendReady) => StopStep(s, backendReady, polish)
    case TakeReply(i, reply) => TakeReplyStep(s, i, reply, polish)
    case Retry => if s.retryOffered then RetryStep(s) else s
    case Cancel => CancelStep(s)
    case ClosePanel => s.(retryTake := None)
  }

  function Run(rms: Measure, polish: Polish, s: App, events: seq<Event>): App
    decreases |events|
  {
    if events == [] then s else Run(rms, polish, Step(rms, polish, s, events[0]), events[1..])
  }

  // ----- What every run keeps -----

  /** A pending chunk covers exactly the audio from the mark up to its cut. */
  predicate Fits(b: Buffer, job: ChunkJob) {
    var chunk := job.chunk;
    && chunk.regionStart == b.consumed < chunk.cut <= b.RawLen()
    && chunk.cut % AtLeastOne(b.channels) == 0
    && chunk.snapshot == Snapshot(b.raw[..chunk.cut - b.consumed], b.rate, b.channels)
    && WholeFrames(CHUNK_MIN_SECS, b.rate, b.channels) <= chunk.cut - chunk.regionStart
  }

  /** While dictating, what was released followed by what is buffered is all that was accepted. */
  ghost predicate Conserving(s: App) {
    s.owner == Mini ==>
      && s.recording
      && s.stream == s.drained + s.buffer.raw
      && |s.drained| == s.buffer.consumed
      && s.buffer.Aligned()
      && (s.chunked.Some? ==> s.chunked.value.generation == s.generation)
      && (s.chunked.None? || s.chunked.value.results == [] ==> s.drained == [])
  }

  /** At most one chunk of the current take is in flight, and it fits the buffer. */
  ghost predicate OnePending(s: App) {
    && (forall i :: 0 <= i < |s.chunkJobs| ==> s.chunkJobs[i].generation <= s.generation)
    && (s.chunked.Some? ==>
          && s.chunked.value.generation <= s.generation
          && (forall i :: 0 <= i < |s.chunkJobs| && Current(s, s.chunkJobs[i]) ==>
                s.owner == Mini && s.chunked.value.pending && Fits(s.buffer, s.chunkJobs[i]))
          && (forall i, k :: 0 <= i < k < |s.chunkJobs| ==> !(Current(s, s.chunkJobs[i]) && Current(s, s.chunkJobs[k]))))
  }

  /** A stopped take: released audio and tail make up everything it accepted, and a take without
      chunk results released nothing. */
  ghost predicate Whole(take: RetryTake) {
    && take.stream == take.drained + take.audio.samples
    && (take.chunks == [] ==> take.drained == [])
  }

  ghost predicate TakesWhole(s: App) {
    && (s.retryTake.Some? ==> Whole(s.retryTake.value))
    && (forall i :: 0 <= i < |s.takeJobs| ==> Whole(s.takeJobs[i].take))
    && (forall i :: 0 <= i < |s.finished| ==>
          Whole(s.finished[i].take) && s.finished[i].outcome.id == s.finished[i].take.id)
    && (forall i :: 0 <= i < |s.salvaged| ==> Whole(s.salvaged[i].take))
  }

  ghost predicate Inv(s: App) {
    Conserving(s) && OnePending(s) && TakesWhole(s)
  }

  lemma HandingOutKeeps(s: App, job: ChunkJob)
    requires Inv(s) && MayChunk(s) && job.generation == s.generation && Fits(s.buffer, job)
    ensures Inv(s.(chunked := Some(s.chunked.value.(pending := true)), chunkJobs := s.chunkJobs + [job]))
  {
    var jobs := s.chunkJobs + [job];
    assert forall i :: 0 <= i < |s.chunkJobs| ==> jobs[i] == s.chunkJobs[i] && !Current(s, s.chunkJobs[i]);
  }

  lemma TickKeeps(rms: Measure, s: App, timed: bool)
    requires Inv(s)
    ensures Inv(TickStep(rms, s, timed))
  {
    if TickStep(rms, s, timed) != s {
      PeekIsBounded(rms, s.buffer, CHUNK_MIN_SECS, CHUNK_MAX_SECS);
      var chunk := Peek(rms, s.buffer, CHUNK_MIN_SECS, CHUNK_MAX_SECS).value;
      HandingOutKeeps(s, ChunkJob(s.generation, chunk, timed));
    }
  }

  lemma CommitConserves(s: App, at: nat)
    requires s.stream == s.drained + s.buffer.raw && |s.drained| == s.buffer.consumed && s.buffer.Aligned()
    requires at % AtLeastOne(s.buffer.channels) == 0
    ensures var s' := CommitStep(s, at);
            && s'.stream == s'.drained + s'.buffer.raw && |s'.drained| == s'.buffer.consumed && s'.buffer.Aligned()
  {
    if s.buffer.CanCommit(at) {
      var n := at - s.buffer.consumed;
      assert s.buffer.raw == s.buffer.raw[..n] + s.buffer.raw[n..];
    }
  }

  /** Every commit index lies in the decoded region, on a frame. */
  lemma CommitIsInRegion(b: Buffer, st: ChunkedDictation, job: ChunkJob, reply: Reply, freshId: nat, polish: Polish)
    requires b.Aligned() && Fits(b, job)
    ensures var (st', at) := Digested(st, job, reply, freshId, polish);
            && st'.generation == st.generation && st'.pending == st.pending
            && (at.Some? ==> job.chunk.regionStart <= at.value <= job.chunk.cut
                             && at.value % AtLeastOne(b.channels) == 0 && |st'.results| == |st.results| + 1)
            && (at.None? ==> st'.results == st.results && st'.disabled)
  {
  }

  /** Once the current chunk is answered none is in flight. */
  lemma AnsweredKeeps(s: App, i: nat)
    requires Inv(s) && i < |s.chunkJobs|
    ensures Inv(s.(chunkJobs := Without(s.chunkJobs, i)))
    ensures Current(s, s.chunkJobs[i]) ==>
              forall k :: 0 <= k < |s.chunkJobs| - 1 ==> !Current(s, Without(s.chunkJobs, i)[k])
  {
  }

  lemma ChunkReplyKeeps(s: App, i: nat, reply: Reply, freshId: nat, polish: Polish)
    requires Inv(s)
    ensures Inv(ChunkReplyStep(s, i, reply, freshId, polish))
  {
    if i < |s.chunkJobs| {
      var job, rest := s.chunkJobs[i], s.(chunkJobs := Without(s.chunkJobs, i));
      AnsweredKeeps(s, i);
      if Current(s, job) {
        var st := s.chunked.value.(pending := false);
        CommitIsInRegion(s.buffer, st, job, reply, freshId, polish);
        var (st', at) := Digested(st, job, reply, freshId, polish);
        if at.Some? {
          CommitConserves(rest.(chunked := Some(st')), at.value);
        }
      }
    }
  }

  lemma RecordedKeeps(s: App, job: TakeJob, o: Outcome)
    requires Inv(s) && Whole(job.take) && o.id == job.take.id
    ensures Inv(Recorded(s, job, o))
  {
  }

  lemma TakeReplyKeeps(s: App, i: nat, reply: Reply, polish: Polish)
    requires Inv(s)
    ensures Inv(TakeReplyStep(s, i, reply, polish))
  {
    if i < |s.takeJobs| {
      var job := s.takeJobs[i];
      var rest := s.(takeJobs := Without(s.takeJobs, i));
      assert Whole(job.take);
      assert Inv(rest);
      var result := FinishChunkedTake(job.take.chunks, reply, polish, job.take.durationSecs, job.take.id);
      if result.Complete? {
        RecordedKeeps(rest, job, result.outcome.(id := job.take.id));
      }
    }
  }

  lemma LongerBufferFits(b: Buffer, raw: seq<real>, job: ChunkJob)
    requires Fits(b, job) && b.raw <= raw
    ensures Fits(b.(raw := raw), job)
  {
    var n := job.chunk.cut - b.consumed;
    assert raw[..n] == b.raw[..n];
  }

  lemma PushedBufferKeeps(s: App, raw: seq<real>)
    requires OnePending(s) && s.buffer.raw <= raw
    ensures OnePending(s.(buffer := s.buffer.(raw := raw), stream := s.drained + raw))
  {
    var s' := s.(buffer := s.buffer.(raw := raw), stream := s.drained + raw);
    forall i | 0 <= i < |s.chunkJobs| && Current(s', s.chunkJobs[i])
      ensures Fits(s'.buffer, s.chunkJobs[i])
    {
      assert Current(s, s.chunkJobs[i]);
      LongerBufferFits(s.buffer, raw, s.chunkJobs[i]);
    }
  }

  lemma PushKeeps(s: App, samples: seq<real>)
    requires Inv(s)
    ensures Inv(PushStep(s, samples))
  {
    assert s.drained + (s.buffer.raw + samples) == (s.drained + s.buffer.raw) + samples;
    PushedBufferKeeps(s, s.buffer.raw + samples);
  }

  lemma StartKeeps(s: App, mic: Microphone, whisper: bool)
    requires Inv(s)
    ensures Inv(StartStep(s, mic, whisper))
  {
  }

  lemma OtherStartKeeps(s: App, other: Owner, rate: nat, channels: nat)
    requires Inv(s)
    ensures Inv(OtherStartStep(s, other, rate, channels))
  {
  }

  lemma VoiceStartKeeps(s: App, hasTarget: bool, rate: nat, channels: nat)
    requires Inv(s)
    ensures Inv(VoiceStartStep(s, hasTarget, rate, channels))
  {
    ArmedKeeps(s);
    OtherStartKeeps(Armed(s), VoiceEdit, rate, channels);
  }

  lemma ArmedKeeps(s: App)
    requires Inv(s)
    ensures Inv(Armed(s))
  {
  }

  lemma OtherStopKeeps(s: App)
    requires Inv(s)
    ensures Inv(OtherStopStep(s))
  {
  }

  lemma StoppedKeeps(s: App)
    requires Inv(s)
    ensures Inv(Released(s).(chunked := None))
    ensures s.owner == Mini ==> Whole(TakeAtStop(s))
  {
  }

  lemma SubmittedKeeps(s: App, take: RetryTake)
    requires Inv(s) && Whole(take)
    ensures Inv(Submitted(s, take))
  {
  }

  lemma SalvagedKeeps(s: App, salvage: Salvaged)
    requires Inv(s) && Whole(salvage.take)
    ensures Inv(s.(salvaged := s.salvaged + [salvage]))
  {
  }

  lemma StopKeeps(s: App, backendReady: bool, polish: Polish)
    requires Inv(s)
    ensures Inv(StopStep(s, backendReady, polish))
  {
    StoppedKeeps(s);
    if s.owner == Mini {
      var stopped := Released(s).(chunked := None);
      SubmittedKeeps(stopped, TakeAtStop(s));
      SalvagedKeeps(stopped, SalvageOf(TakeAtStop(s), polish));
    }
  }

  lemma RetryKeeps(s: App)
    requires Inv(s)
    ensures Inv(RetryStep(s))
  {
  }

  lemma CancelKeeps(s: App)
    requires Inv(s)
    ensures Inv(CancelStep(s))
  {
  }

  /** Conservation, a single fitting chunk in flight and whole takes survive every event. */
  lemma StepKeeps(rms: Measure, polish: Polish, s: App, e: Event)
    requires Inv(s)
    ensures Inv(Step(rms, polish, s, e))
  {
    match e
    case Start(mic, whisper) => StartKeeps(s, mic, whisper);
    case OtherStart(other, rate, channels) => OtherStartKeeps(s, other, rate, channels);
    case OtherStop => OtherStopKeeps(s);
    case VoiceStart(hasTarget, rate, channels) => VoiceStartKeeps(s, hasTarget, rate, channels);
    case Push(samples) => PushKeeps(s, samples);
    case Tick(timed) => TickKeeps(rms, s, timed);
    case ChunkReply(i, reply, freshId) => ChunkReplyKeeps(s, i, reply, freshId, polish);
    case Stop(backendReady) => StopKeeps(s, backendReady, polish);
    case TakeReply(i, reply) => TakeReplyKeeps(s, i, reply, polish);
    case Retry => RetryKeeps(s);
    case Cancel => CancelKeeps(s);
    case ClosePanel =>
  }

  lemma {:induction false} RunKeeps(rms: Measure, polish: Polish, s: App, events: seq<Event>)
    requires Inv(s)
    ensures Inv(Run(rms, polish, s, events))
    decreases |events|
  {
    if events != [] {
      StepKeeps(rms, polish, s, events[0]);
      RunKeeps(rms, polish, Step(rms, polish, s, events[0]), events[1..]);
    }
  }

  /** Every run from the start conserves audio: each take it stops or finishes holds, released audio
      and tail together, exactly what that take accepted. */
  lemma AudioIsConserved(rms: Measure, polish: Polish, events: seq<Event>)
    ensures
      var s := Run(rms, polish, Fresh, events);
      && Inv(s)
      && (s.owner == Mini ==> s.stream == s.drained + s.buffer.raw)
      && (forall i :: 0 <= i < |s.finished| ==>
            var take := s.finished[i].take;
            && take.stream == take.drained + take.audio.samples
            && (take.chunks == [] ==> take.drained == [])
            && s.finished[i].outcome.id == take.id)
  {
    RunKeeps(rms, polish, Fresh, events);
  }

  /** What a current reply releases is a prefix of the audio that was decoded for it. */
  lemma CommitReleasesOnlyDecodedAudio(s: App, i: nat, reply: Reply, freshId: nat, polish: Polish)
    requires Inv(s) && i < |s.chunkJobs|
    ensures var s' := ChunkReplyStep(s, i, reply, freshId, polish);
            exists released :: released <= s.chunkJobs[i].chunk.snapshot.samples
              && s'.drained == s.drained + released && s.buffer.raw == released + s'.buffer.raw
  {
    var job := s.chunkJobs[i];
    var s' := ChunkReplyStep(s, i, reply, freshId, polish);
    if Current(s, job) {
      var st := s.chunked.value.(pending := false);
      CommitIsInRegion(s.buffer, st, job, reply, freshId, polish);
      var (_, at) := Digested(st, job, reply, freshId, polish);
      if at.Some? {
        var released := s.buffer.Released(at.value);
        assert released <= job.chunk.snapshot.samples && s.buffer.raw == released + s'.buffer.raw;
      } else {
        assert s.buffer.raw == [] + s'.buffer.raw && s'.drained == s.drained + [];
      }
    } else {
      assert s.buffer.raw == [] + s'.buffer.raw && s'.drained == s.drained + [];
    }
  }

  /** An obsolete reply changes nothing but the set of replies still awaited. */
  lemma ObsoleteReplyIsIgnored(s: App, i: nat, reply: Reply, freshId: nat, polish: Polish)
    requires i < |s.chunkJobs| && !Current(s, s.chunkJobs[i])
    ensures ChunkReplyStep(s, i, reply, freshId, polish) == s.(chunkJobs := Without(s.chunkJobs, i))
  {
  }

  /** No chunk state of generation `g` exists, and none will be created any more. */
  predicate Over(s: App, g: nat) {
    g <= s.generation && (s.chunked.Some? ==> s.chunked.value.generation != g)
  }

  /** Stop, cancel and restart end the running take for its chunk replies... */
  lemma LeavingEndsTheTake(s: App, mic: Microphone, whisper: bool, backendReady: bool, polish: Polish)
    requires Inv(s) && s.owner == Mini
    ensures Over(StartStep(s, mic, whisper), s.generation)
    ensures Over(StopStep(s, backendReady, polish), s.generation)
    ensures Over(CancelStep(s), s.generation)
  {
  }

  /** ...and for good: in every continuation its late replies stay obsolete. */
  lemma {:induction false} LateRepliesStayObsolete(rms: Measure, polish: Polish, s: App, events: seq<Event>, g: nat)
    requires Over(s, g)
    ensures Over(Run(rms, polish, s, events), g)
    decreases |events|
  {
    if events != [] {
      OverIsKept(rms, polish, s, events[0], g);
      LateRepliesStayObsolete(rms, polish, Step(rms, polish, s, events[0]), events[1..], g);
    }
  }

  /** A chunk reply that comes after its take was stopped, cancelled or restarted, however much later and whatever was
      dictated since, changes no buffer, no result and no delivery. */
  lemma LateReplyNeverCommits(rms: Measure, polish: Polish, s: App, events: seq<Event>, i: nat, reply: Reply, freshId: nat)
    requires var s' := Run(rms, polish, s, events); i < |s'.chunkJobs| && Over(s, s'.chunkJobs[i].generation)
    ensures
      var s' := Run(rms, polish, s, events);
      Step(rms, polish, s', ChunkReply(i, reply, freshId)) == s'.(chunkJobs := Without(s'.chunkJobs, i))
  {
    var s' := Run(rms, polish, s, events);
    LateRepliesStayObsolete(rms, polish, s, events, s'.chunkJobs[i].generation);
    ObsoleteReplyIsIgnored(s', i, reply, freshId, polish);
  }

  lemma OverIsKept(rms: Measure, polish: Polish, s: App, e: Event, g: nat)
    requires Over(s, g)
    ensures Over(Step(rms, polish, s, e), g)
  {
    match e {
      case ChunkReply(i, reply, freshId) => OverAfterReplies(s, i, reply, freshId, polish, g);
      case TakeReply(i, reply) => OverAfterReplies(s, i, reply, 0, polish, g);
      case _ =>
    }
  }

  lemma OverAfterReplies(s: App, i: nat, reply: Reply, freshId: nat, polish: Polish, g: nat)
    requires Over(s, g)
    ensures Over(ChunkReplyStep(s, i, reply, freshId, polish), g)
    ensures Over(TakeReplyStep(s, i, reply, polish), g)
  {
  }
}
