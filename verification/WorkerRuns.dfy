/** All interleavings of requests and shutdowns on the warm recognizer process
    (src/transcription/parakeet_worker.rs), at the grain of its locks, its epoch counter and its socket
    turns. Any number of requests may wait and any number of shutdowns may be under way. */
module WorkerRuns {
  import opened Wrappers
  import opened Numbers
  import opened Sequences
  import opened Wire
  import opened WarmWorker

  datatype Job = Job(spec: Spec, audio: seq<real>)

  /** A started process: the epoch it was started under and all bytes exchanged with it. */
  datatype Worker = Worker(spec: Spec, born: nat, sent: seq<Byte>, received: seq<Byte>, alive: bool)

  /** Where the holder of the request lock stands. `Inspecting` and `Checked` hold the slot lock. `base`
      records what the process had been sent before this request. */
  datatype Phase =
    | Connecting
    | Inspecting
    | Spawning
    | Handshaking(w: nat, got: seq<Byte>)
    | Publishing(w: nat)
    | Checked(w: nat)
    | Writing(w: nat, base: seq<Byte>, rest: seq<Byte>)
    | ReadingSize(w: nat, base: seq<Byte>, got: seq<Byte>)
    | ReadingBody(w: nat, base: seq<Byte>, size: seq<Byte>, got: seq<Byte>)
    | Finishing(w: nat, base: seq<Byte>, result: seq<Byte>)
    | Failing

  /** A request and the epoch it read on entry. */
  datatype Request = Request(job: Job, epoch: nat, phase: Phase)

  datatype Answer = Answer(job: Job, bytes: seq<Byte>)

  /** `pending` counts the shutdowns that bumped the epoch but have not yet taken the slot; `doomed` holds the processes
      taken out of the slot whose taker has yet to kill them, which happens outside the slot lock. */
  datatype State = State(epoch: nat, slot: Option<nat>, pending: nat, doomed: seq<nat>, workers: seq<Worker>,
                         waiting: seq<(Job, nat)>, request: Option<Request>, answers: seq<Answer>)

  const Initial: State := State(0, None, 0, [], [], [], None, [])

  datatype Event =
    | Begin(job: Job)
    | GiveUp(i: nat)
    | Acquire(i: nat)
    | LockSlot(stopped: bool)
    | Inspect
    | Spawn
    | Publish(stopped: bool)
    | Install
    | WriteBytes(count: nat)
    | ReadBytes(count: nat)
    | Finish(stopped: bool)
    | Fail
    | Cleanup
    | Bump
    | Take
    | Reap(i: nat)
    | Die(w: nat)

  function InPhase(s: State, phase: Phase): State
    requires s.request.Some?
  {
    s.(request := Some(s.request.value.(phase := phase)))
  }

  function Killed(s: State, w: nat): State {
    if w < |s.workers| then s.(workers := s.workers[w := s.workers[w].(alive := false)]) else s
  }

  /** Take the slot; what was in it will be killed by whoever took it. */
  function SlotTaken(s: State): State {
    if s.slot.Some? then s.(slot := None, doomed := s.doomed + [s.slot.value]) else s
  }

  function Reaped(s: State, i: nat): State {
    if i < |s.doomed| then Killed(s, s.doomed[i]).(doomed := Without(s.doomed, i)) else s
  }

  predicate SlotLocked(s: State) {
    s.request.Some? && (s.request.value.phase.Inspecting? || s.request.value.phase.Checked?)
  }

  /** The process owned by the request itself, before it is published. */
  function Local(s: State): Option<nat> {
    if s.request.None? then None
    else
      match s.request.value.phase
      case Handshaking(w, _) => Some(w)
      case Publishing(w) => Some(w)
      case Checked(w) => Some(w)
      case _ => None
  }

  /** Leaving with an error drops the request's own process, if it has one. */
  function Failed(s: State): State
    requires s.request.Some?
  {
    InPhase(if Local(s).Some? then Killed(s, Local(s).value) else s, Failing)
  }

  /** What the check of epoch, cancellation and deadline decides. */
  predicate Passes(s: State, stopped: bool)
    requires s.request.Some?
  {
    !stopped && s.request.value.epoch == s.epoch
  }

  function InspectStep(s: State): State
    requires s.request.Some?
  {
    var job := s.request.value.job;
    if s.slot.Some? && s.slot.value < |s.workers| && |job.audio| <= MAX_SAMPLES
       && s.workers[s.slot.value].spec == job.spec && s.workers[s.slot.value].alive then
      InPhase(s, Writing(s.slot.value, s.workers[s.slot.value].sent, Encode(job.audio)))
    else
      InPhase(SlotTaken(s), Spawning)
  }

  function SpawnStep(s: State): State
    requires s.request.Some?
  {
    var started := Worker(s.request.value.job.spec, s.request.value.epoch, [], [], true);
    InPhase(s.(workers := s.workers + [started]), Handshaking(|s.workers|, []))
  }

  function InstallStep(s: State, w: nat): State
    requires s.request.Some?
  {
    var job := s.request.value.job;
    if w < |s.workers| && |job.audio| <= MAX_SAMPLES then
      InPhase(s.(slot := Some(w)), Writing(w, s.workers[w].sent, Encode(job.audio)))
    else
      s
  }

  function WriteStep(s: State, w: nat, base: seq<Byte>, rest: seq<Byte>, count: nat): State
    requires s.request.Some?
  {
    if w >= |s.workers| then s
    else
      var k := Min(count, |rest|);
      var s := s.(workers := s.workers[w := s.workers[w].(sent := s.workers[w].sent + rest[..k])]);
      InPhase(s, if k == |rest| then ReadingSize(w, base, []) else Writing(w, base, rest[k..]))
  }

  /** The next bytes of the answer: as many as asked for and as have arrived. */
  function Arriving(decode: Decoders, worker: Worker, wanted: nat, count: nat): seq<Byte> {
    var out := Served(decode(worker.spec), worker.sent);
    if worker.received <= out then Available(out, worker.received, Min(count, wanted)) else []
  }

  function Received(decode: Decoders, s: State, w: nat, wanted: nat, count: nat): (State, seq<Byte>) {
    if w >= |s.workers| then (s, [])
    else
      var more := Arriving(decode, s.workers[w], wanted, count);
      (s.(workers := s.workers[w := s.workers[w].(received := s.workers[w].received + more)]), more)
  }

  function HandshakeStep(decode: Decoders, s: State, w: nat, got: seq<Byte>, count: nat): State
    requires s.request.Some?
  {
    var (s, more) := Received(decode, s, w, if |got| <= 4 then 4 - |got| else 0, count);
    if |got + more| < 4 then InPhase(s, Handshaking(w, got + more))
    else if got + more == READY then InPhase(s, Publishing(w))
    else Failed(s)
  }

  /** The size so far: once complete, an empty or oversized answer is an error. */
  function SizeRead(s: State, w: nat, base: seq<Byte>, got: seq<Byte>): State
    requires s.request.Some?
  {
    if |got| != 4 then InPhase(s, ReadingSize(w, base, got))
    else if 0 < FromLe32(got) <= MAX_RESULT then InPhase(s, ReadingBody(w, base, got, []))
    else Failed(s)
  }

  function SizeStep(decode: Decoders, s: State, w: nat, base: seq<Byte>, got: seq<Byte>, count: nat): State
    requires s.request.Some?
  {
    var (s, more) := Received(decode, s, w, if |got| <= 4 then 4 - |got| else 0, count);
    SizeRead(s, w, base, got + more)
  }

  function BodyRead(s: State, w: nat, base: seq<Byte>, size: seq<Byte>, got: seq<Byte>): State
    requires s.request.Some? && |size| == 4
  {
    InPhase(s, if |got| < FromLe32(size) then ReadingBody(w, base, size, got) else Finishing(w, base, got))
  }

  function BodyStep(decode: Decoders, s: State, w: nat, base: seq<Byte>, size: seq<Byte>, got: seq<Byte>, count: nat): State
    requires s.request.Some?
  {
    if |size| != 4 then s
    else
      var n := FromLe32(size);
      var (s, more) := Received(decode, s, w, if |got| <= n then n - |got| else 0, count);
      BodyRead(s, w, base, size, got + more)
  }

  function ReadStep(decode: Decoders, s: State, count: nat): State
    requires s.request.Some?
  {
    match s.request.value.phase
    case Handshaking(w, got) => HandshakeStep(decode, s, w, got, count)
    case ReadingSize(w, base, got) => SizeStep(decode, s, w, base, got, count)
    case ReadingBody(w, base, size, got) => BodyStep(decode, s, w, base, size, got, count)
    case _ => s
  }

  function FinishStep(s: State, result: seq<Byte>, stopped: bool): State
    requires s.request.Some?
  {
    if Passes(s, stopped) then
      s.(request := None, answers := s.answers + [Answer(s.request.value.job, result)])
    else
      Failed(s)
  }

  function HolderStep(decode: Decoders, s: State, e: Event): State
    requires s.request.Some?
  {
    match (e, s.request.value.phase)
    case (LockSlot(stopped), Connecting) => if Passes(s, stopped) then InPhase(s, Inspecting) else Failed(s)
    case (Inspect, Inspecting) => InspectStep(s)
    case (Spawn, Spawning) => SpawnStep(s)
    case (Publish(stopped), Publishing(w)) => if Passes(s, stopped) then InPhase(s, Checked(w)) else Failed(s)
    case (Install, Checked(w)) => InstallStep(s, w)
    case (WriteBytes(count), Writing(w, base, rest)) => WriteStep(s, w, base, rest, count)
    case (ReadBytes(count), _) => ReadStep(decode, s, count)
    case (Finish(stopped), Finishing(_, _, result)) => FinishStep(s, result, stopped)
    case (Fail, phase) => if phase.Checked? || phase.Failing? then s else Failed(s)
    case (Cleanup, Failing) => SlotTaken(s).(request := None)
    case _ => s
  }

  /** Events outside the request lock: arrivals, shutdowns, and processes that die by themselves. */
  function LobbyStep(s: State, e: Event): State {
    match e
    case Begin(job) => if |job.audio| <= MAX_SAMPLES then s.(waiting := s.waiting + [(job, s.epoch)]) else s
    case GiveUp(i) => if i < |s.waiting| then s.(waiting := Without(s.waiting, i)) else s
    case Acquire(i) =>
      if i < |s.waiting| && s.request.None? then
        s.(waiting := Without(s.waiting, i), request := Some(Request(s.waiting[i].0, s.waiting[i].1, Connecting)))
      else s
    case Bump => s.(epoch := s.epoch + 1, pending := s.pending + 1)
    case Take => if s.pending > 0 && !SlotLocked(s) then SlotTaken(s).(pending := s.pending - 1) else s
    case Reap(i) => Reaped(s, i)
    case Die(w) => Killed(s, w)
    case _ => s
  }

  predicate InLobby(e: Event) {
    e.Begin? || e.GiveUp? || e.Acquire? || e.Bump? || e.Take? || e.Reap? || e.Die?
  }

  function Step(decode: Decoders, s: State, e: Event): State {
    if InLobby(e) then LobbyStep(s, e)
    else if s.request.Some? then HolderStep(decode, s, e)
    else s
  }

  function Run(decode: Decoders, s: State, events: seq<Event>): State
    decreases |events|
  {
    if events == [] then s else Run(decode, Step(decode, s, events[0]), events[1..])
  }

  // ----- Stream synchronisation -----

  /** Nothing is in flight in either direction. */
  ghost predicate Idle(decode: Decoders, worker: Worker) {
    Answered(decode(worker.spec), worker.sent) && worker.received == Served(decode(worker.spec), worker.sent)
  }

  /** The slot is empty or holds an idle process. */
  ghost predicate SlotIdle(decode: Decoders, s: State) {
    s.slot.Some? ==> s.slot.value < |s.workers| && Idle(decode, s.workers[s.slot.value])
  }

  /** The slot is empty or holds the process this request talks to, which is of the spec asked for. */
  ghost predicate SlotIs(s: State, spec: Spec, w: nat) {
    w < |s.workers| && s.workers[w].spec == spec && (s.slot.Some? ==> s.slot.value == w)
  }

  /** The request was written whole to an idle process, and `got` was read of the answer. */
  ghost predicate Answering(decode: Decoders, s: State, job: Job, w: nat, base: seq<Byte>, got: seq<Byte>)
    requires |job.audio| <= MAX_SAMPLES
  {
    && SlotIs(s, job.spec, w) && Answered(decode(job.spec), base)
    && s.workers[w].sent == base + Encode(job.audio)
    && s.workers[w].received == Served(decode(job.spec), base) + got <= Served(decode(job.spec), s.workers[w].sent)
  }

  /** The request owns a process of its spec, and the slot is empty. */
  ghost predicate Owns(s: State, spec: Spec, w: nat) {
    s.slot.None? && w < |s.workers| && s.workers[w].spec == spec
  }

  ghost predicate PhaseSynced(decode: Decoders, s: State, job: Job, phase: Phase)
    requires |job.audio| <= MAX_SAMPLES
  {
    match phase
    case Connecting => SlotIdle(decode, s)
    case Inspecting => SlotIdle(decode, s)
    case Spawning => s.slot.None?
    case Handshaking(w, got) =>
      Owns(s, job.spec, w) && s.workers[w].sent == [] && s.workers[w].received == got && got <= READY && |got| < 4
    case Publishing(w) => Owns(s, job.spec, w) && Idle(decode, s.workers[w])
    case Checked(w) => Owns(s, job.spec, w) && Idle(decode, s.workers[w])
    case Writing(w, base, rest) =>
      && SlotIs(s, job.spec, w) && Answered(decode(job.spec), base)
      && s.workers[w].sent + rest == base + Encode(job.audio)
      && s.workers[w].received == Served(decode(job.spec), base)
    case ReadingSize(w, base, got) => |got| < 4 && Answering(decode, s, job, w, base, got)
    case ReadingBody(w, base, size, got) =>
      |size| == 4 && |got| < FromLe32(size) && Answering(decode, s, job, w, base, size + got)
    case Finishing(w, base, result) =>
      SlotIs(s, job.spec, w) && Idle(decode, s.workers[w]) && AnswerOf(decode, job) == Some(result)
    case Failing => true
  }

  /** What a process of the job's spec makes of its 16-bit samples. */
  function AnswerOf(decode: Decoders, job: Job): Option<seq<Byte>> {
    decode(job.spec)(Quantized(job.audio))
  }

  ghost predicate Synced(decode: Decoders, s: State) {
    && (s.request.None? ==> SlotIdle(decode, s))
    && (s.request.Some? ==>
          && |s.request.value.job.audio| <= MAX_SAMPLES
          && PhaseSynced(decode, s, s.request.value.job, s.request.value.phase))
    && (forall i :: 0 <= i < |s.waiting| ==> |s.waiting[i].0.audio| <= MAX_SAMPLES)
    && (forall i :: 0 <= i < |s.answers| ==>
          AnswerOf(decode, s.answers[i].job) == Some(s.answers[i].bytes))
  }

  lemma ArrivingIsNext(decode: Decoders, worker: Worker, wanted: nat, count: nat)
    requires worker.received <= Served(decode(worker.spec), worker.sent)
    ensures var more := Arriving(decode, worker, wanted, count);
            |more| <= wanted && worker.received + more <= Served(decode(worker.spec), worker.sent)
  {
  }

  lemma FreshIsReady(decode: Decoder)
    ensures Served(decode, []) == READY && Answered(decode, [])
  {
  }

  /** A read moves exactly the bytes it returns, and nothing else. */
  lemma ReceivedIsNext(decode: Decoders, s: State, w: nat, wanted: nat, count: nat)
    requires w < |s.workers| && s.workers[w].received <= Served(decode(s.workers[w].spec), s.workers[w].sent)
    ensures var (s', more) := Received(decode, s, w, wanted, count);
            && s' == s.(workers := s'.workers) && |s'.workers| == |s.workers| && |more| <= wanted
            && s'.workers[w] == s.workers[w].(received := s.workers[w].received + more)
            && s.workers[w].received + more <= Served(decode(s.workers[w].spec), s.workers[w].sent)
  {
    ArrivingIsNext(decode, s.workers[w], wanted, count);
  }

  lemma HandshakeIsSynced(decode: Decoders, s: State, w: nat, got: seq<Byte>, count: nat)
    requires Synced(decode, s) && s.request.Some? && s.request.value.phase == Handshaking(w, got)
    ensures Synced(decode, HandshakeStep(decode, s, w, got, count))
  {
    FreshIsReady(decode(s.request.value.job.spec));
    ReceivedIsNext(decode, s, w, 4 - |got|, count);
  }

  lemma AnsweringContinues(decode: Decoders, s: State, job: Job, w: nat, base: seq<Byte>, got: seq<Byte>,
                           wanted: nat, count: nat)
    requires |job.audio| <= MAX_SAMPLES && Answering(decode, s, job, w, base, got)
    ensures var (s', more) := Received(decode, s, w, wanted, count);
            && s' == s.(workers := s'.workers) && |more| <= wanted
            && Answering(decode, s', job, w, base, got + more)
  {
    var (_, more) := Received(decode, s, w, wanted, count);
    ReceivedIsNext(decode, s, w, wanted, count);
    assert Served(decode(job.spec), base) + got + more == Served(decode(job.spec), base) + (got + more);
  }

  lemma AnsweringBodyContinues(decode: Decoders, s: State, job: Job, w: nat, base: seq<Byte>, size: seq<Byte>,
                               got: seq<Byte>, wanted: nat, count: nat)
    requires |job.audio| <= MAX_SAMPLES && Answering(decode, s, job, w, base, size + got)
    ensures var (s', more) := Received(decode, s, w, wanted, count);
            && s' == s.(workers := s'.workers) && |more| <= wanted
            && Answering(decode, s', job, w, base, size + (got + more))
  {
    var (_, more) := Received(decode, s, w, wanted, count);
    AnsweringContinues(decode, s, job, w, base, size + got, wanted, count);
    assert (size + got) + more == size + (got + more);
  }

  /** After an exchange it is enough that the new phase agrees with the process. */
  lemma NewPhaseIsSynced(decode: Decoders, s: State, s': State, phase: Phase)
    requires Synced(decode, s) && s.request.Some? && s' == s.(workers := s'.workers)
    requires PhaseSynced(decode, s', s.request.value.job, phase)
    ensures Synced(decode, InPhase(s', phase))
  {
  }

  lemma SizeReadIsSynced(decode: Decoders, s: State, s': State, w: nat, base: seq<Byte>, got: seq<Byte>)
    requires Synced(decode, s) && s.request.Some? && s.request.value.phase.ReadingSize?
    requires s' == s.(workers := s'.workers) && |got| <= 4
    requires Answering(decode, s', s.request.value.job, w, base, got)
    ensures Synced(decode, SizeRead(s', w, base, got))
  {
    if |got| != 4 {
      NewPhaseIsSynced(decode, s, s', ReadingSize(w, base, got));
    } else if 0 < FromLe32(got) <= MAX_RESULT {
      assert got + [] == got;
      NewPhaseIsSynced(decode, s, s', ReadingBody(w, base, got, []));
    } else {
      NewPhaseIsSynced(decode, s, s', Failing);
    }
  }

  lemma SizeIsSynced(decode: Decoders, s: State, w: nat, base: seq<Byte>, got: seq<Byte>, count: nat)
    requires Synced(decode, s) && s.request.Some? && s.request.value.phase == ReadingSize(w, base, got)
    ensures Synced(decode, SizeStep(decode, s, w, base, got, count))
  {
    var (s', more) := Received(decode, s, w, 4 - |got|, count);
    AnsweringContinues(decode, s, s.request.value.job, w, base, got, 4 - |got|, count);
    SizeReadIsSynced(decode, s, s', w, base, got + more);
  }

  lemma BodyReadIsSynced(decode: Decoders, s: State, s': State, w: nat, base: seq<Byte>, size: seq<Byte>, got: seq<Byte>)
    requires Synced(decode, s) && s.request.Some? && s.request.value.phase.ReadingBody?
    requires s' == s.(workers := s'.workers) && |size| == 4 && |got| <= FromLe32(size)
    requires Answering(decode, s', s.request.value.job, w, base, size + got)
    ensures Synced(decode, BodyRead(s', w, base, size, got))
  {
    if |got| < FromLe32(size) {
      NewPhaseIsSynced(decode, s, s', ReadingBody(w, base, size, got));
    } else {
      ReplyIsExact(decode(s.request.value.job.spec), base, s.request.value.job.audio, size, got);
      NewPhaseIsSynced(decode, s, s', Finishing(w, base, got));
    }
  }

  lemma BodyContinues(decode: Decoders, s: State, w: nat, base: seq<Byte>, size: seq<Byte>, got: seq<Byte>, count: nat)
    returns (s': State, longer: seq<Byte>)
    requires Synced(decode, s) && s.request.Some? && s.request.value.phase == ReadingBody(w, base, size, got)
    ensures s' == s.(workers := s'.workers) && |size| == 4 && |longer| <= FromLe32(size)
    ensures Answering(decode, s', s.request.value.job, w, base, size + longer)
    ensures BodyStep(decode, s, w, base, size, got, count) == BodyRead(s', w, base, size, longer)
  {
    var wanted := FromLe32(size) - |got|;
    var (received, more) := Received(decode, s, w, wanted, count);
    AnsweringBodyContinues(decode, s, s.request.value.job, w, base, size, got, wanted, count);
    s', longer := received, got + more;
  }

  lemma BodyIsSynced(decode: Decoders, s: State, w: nat, base: seq<Byte>, size: seq<Byte>, got: seq<Byte>, count: nat)
    requires Synced(decode, s) && s.request.Some? && s.request.value.phase == ReadingBody(w, base, size, got)
    ensures Synced(decode, BodyStep(decode, s, w, base, size, got, count))
  {
    var s', longer := BodyContinues(decode, s, w, base, size, got, count);
    BodyReadIsSynced(decode, s, s', w, base, size, longer);
  }

  lemma WriteIsSynced(decode: Decoders, s: State, count: nat)
    requires Synced(decode, s) && s.request.Some?
    ensures Synced(decode, HolderStep(decode, s, WriteBytes(count)))
  {
    if s.request.value.phase.Writing? {
      var Writing(w, base, rest) := s.request.value.phase;
      var k := Min(count, |rest|);
      assert s.workers[w].sent + rest == (s.workers[w].sent + rest[..k]) + rest[k..];
      if k == |rest| {
        assert s.workers[w].sent + rest[..k] == base + Encode(s.request.value.job.audio);
        ServedGrows(decode(s.workers[w].spec), base, Encode(s.request.value.job.audio));
        assert Served(decode(s.workers[w].spec), base) + [] == Served(decode(s.workers[w].spec), base);
      }
    }
  }

  lemma ReadIsSynced(decode: Decoders, s: State, count: nat)
    requires Synced(decode, s) && s.request.Some?
    ensures Synced(decode, ReadStep(decode, s, count))
  {
    match s.request.value.phase
    case Handshaking(w, got) => HandshakeIsSynced(decode, s, w, got, count);
    case ReadingSize(w, base, got) => SizeIsSynced(decode, s, w, base, got, count);
    case ReadingBody(w, base, size, got) => BodyIsSynced(decode, s, w, base, size, got, count);
    case _ =>
  }

  lemma FailedIsSynced(decode: Decoders, s: State)
    requires Synced(decode, s) && s.request.Some?
    ensures Synced(decode, Failed(s))
  {
  }

  lemma SlotStepsAreSynced(decode: Decoders, s: State, stopped: bool)
    requires Synced(decode, s) && s.request.Some?
    ensures Synced(decode, HolderStep(decode, s, LockSlot(stopped)))
    ensures Synced(decode, HolderStep(decode, s, Inspect))
  {
    FailedIsSynced(decode, s);
  }

  lemma StartStepsAreSynced(decode: Decoders, s: State, stopped: bool)
    requires Synced(decode, s) && s.request.Some?
    ensures Synced(decode, HolderStep(decode, s, Spawn))
    ensures Synced(decode, HolderStep(decode, s, Publish(stopped)))
    ensures Synced(decode, HolderStep(decode, s, Install))
  {
    FreshIsReady(decode(s.request.value.job.spec));
    FailedIsSynced(decode, s);
  }

  lemma FinishIsSynced(decode: Decoders, s: State, stopped: bool)
    requires Synced(decode, s) && s.request.Some?
    ensures Synced(decode, HolderStep(decode, s, Finish(stopped)))
  {
    FailedIsSynced(decode, s);
  }

  lemma FailAndCleanupAreSynced(decode: Decoders, s: State)
    requires Synced(decode, s) && s.request.Some?
    ensures Synced(decode, HolderStep(decode, s, Fail))
    ensures Synced(decode, HolderStep(decode, s, Cleanup))
  {
    FailedIsSynced(decode, s);
  }

  lemma HolderIsSynced(decode: Decoders, s: State, e: Event)
    requires Synced(decode, s) && s.request.Some?
    ensures Synced(decode, HolderStep(decode, s, e))
  {
    match e
    case LockSlot(stopped) => SlotStepsAreSynced(decode, s, stopped);
    case Inspect => SlotStepsAreSynced(decode, s, true);
    case Spawn => StartStepsAreSynced(decode, s, true);
    case Publish(stopped) => StartStepsAreSynced(decode, s, stopped);
    case Install => StartStepsAreSynced(decode, s, true);
    case WriteBytes(count) => WriteIsSynced(decode, s, count);
    case ReadBytes(count) => ReadIsSynced(decode, s, count);
    case Finish(stopped) => FinishIsSynced(decode, s, stopped);
    case Fail => FailAndCleanupAreSynced(decode, s);
    case Cleanup => FailAndCleanupAreSynced(decode, s);
    case _ =>
  }

  /** Killing a process changes no bytes. */
  lemma KilledPhaseIsSynced(decode: Decoders, s: State, w: nat, job: Job, phase: Phase)
    requires |job.audio| <= MAX_SAMPLES && PhaseSynced(decode, s, job, phase)
    ensures PhaseSynced(decode, Killed(s, w), job, phase)
  {
  }

  lemma KilledIsSynced(decode: Decoders, s: State, w: nat)
    requires Synced(decode, s)
    ensures Synced(decode, Killed(s, w))
  {
    if s.request.Some? {
      KilledPhaseIsSynced(decode, s, w, s.request.value.job, s.request.value.phase);
    }
    assert SlotIdle(decode, s) ==> SlotIdle(decode, Killed(s, w));
  }

  lemma DoomedDoNotMatter(decode: Decoders, s: State, doomed: seq<nat>)
    requires Synced(decode, s)
    ensures Synced(decode, s.(doomed := doomed))
  {
  }

  lemma ReapedIsSynced(decode: Decoders, s: State, i: nat)
    requires Synced(decode, s)
    ensures Synced(decode, Reaped(s, i))
  {
    if i < |s.doomed| {
      KilledIsSynced(decode, s, s.doomed[i]);
      DoomedDoNotMatter(decode, Killed(s, s.doomed[i]), Without(s.doomed, i));
    }
  }

  lemma EmptiedSlotIsSynced(decode: Decoders, s: State)
    requires Synced(decode, s)
    ensures Synced(decode, s.(slot := None))
  {
  }

  lemma WaitingIsSynced(decode: Decoders, s: State, waiting: seq<(Job, nat)>)
    requires Synced(decode, s) && forall i :: 0 <= i < |waiting| ==> |waiting[i].0.audio| <= MAX_SAMPLES
    ensures Synced(decode, s.(waiting := waiting))
  {
  }

  lemma ArrivalsAreSynced(decode: Decoders, s: State, job: Job, i: nat)
    requires Synced(decode, s)
    ensures Synced(decode, LobbyStep(s, Begin(job)))
    ensures Synced(decode, LobbyStep(s, GiveUp(i)))
  {
    if |job.audio| <= MAX_SAMPLES {
      WaitingIsSynced(decode, s, s.waiting + [(job, s.epoch)]);
    }
    if i < |s.waiting| {
      WaitingIsSynced(decode, s, Without(s.waiting, i));
    }
  }

  lemma AcquireIsSynced(decode: Decoders, s: State, i: nat)
    requires Synced(decode, s)
    ensures Synced(decode, LobbyStep(s, Acquire(i)))
  {
  }

  lemma SlotTakenIsSynced(decode: Decoders, s: State)
    requires Synced(decode, s)
    ensures Synced(decode, SlotTaken(s))
  {
    if s.slot.Some? {
      DoomedDoNotMatter(decode, s, s.doomed + [s.slot.value]);
      EmptiedSlotIsSynced(decode, s.(doomed := s.doomed + [s.slot.value]));
    }
  }

  lemma TakeIsSynced(decode: Decoders, s: State)
    requires Synced(decode, s)
    ensures Synced(decode, LobbyStep(s, Take))
  {
    SlotTakenIsSynced(decode, s);
    if s.pending > 0 {
      CountersDoNotMatter(decode, SlotTaken(s), s.epoch, s.pending - 1);
    }
  }

  lemma CountersDoNotMatter(decode: Decoders, s: State, epoch: nat, pending: nat)
    requires Synced(decode, s)
    ensures Synced(decode, s.(epoch := epoch, pending := pending))
  {
  }

  lemma LobbyIsSynced(decode: Decoders, s: State, e: Event)
    requires Synced(decode, s)
    ensures Synced(decode, LobbyStep(s, e))
  {
    match e
    case Begin(job) => ArrivalsAreSynced(decode, s, job, 0);
    case GiveUp(i) => ArrivalsAreSynced(decode, s, Job(Spec(0, 0), []), i);
    case Acquire(i) => AcquireIsSynced(decode, s, i);
    case Bump => CountersDoNotMatter(decode, s, s.epoch + 1, s.pending + 1);
    case Take => TakeIsSynced(decode, s);
    case Reap(i) => ReapedIsSynced(decode, s, i);
    case Die(w) => KilledIsSynced(decode, s, w);
    case _ =>
  }

  lemma StepIsSynced(decode: Decoders, s: State, e: Event)
    requires Synced(decode, s)
    ensures Synced(decode, Step(decode, s, e))
  {
    if InLobby(e) {
      LobbyIsSynced(decode, s, e);
    } else if s.request.Some? {
      HolderIsSynced(decode, s, e);
    }
  }

  lemma {:induction false} RunIsSynced(decode: Decoders, s: State, events: seq<Event>)
    requires Synced(decode, s)
    ensures Synced(decode, Run(decode, s, events))
    decreases |events|
  {
    if events != [] {
      StepIsSynced(decode, s, events[0]);
      RunIsSynced(decode, Step(decode, s, events[0]), events[1..]);
    }
  }

  /** In every interleaving every response returned is what a process of exactly its own request's spec makes of exactly
      its own request's 16-bit samples, and whenever no request holds the lock the slot is empty or holds a process with
      nothing in flight either way. */
  lemma ResponsesMatchRequests(decode: Decoders, events: seq<Event>)
    ensures
      var s := Run(decode, Initial, events);
      && (forall i :: 0 <= i < |s.answers| ==>
            var job := s.answers[i].job;
            Some(s.answers[i].bytes) == decode(job.spec)(Quantized(job.audio)))
      && (s.request.None? && s.slot.Some? ==>
            && s.slot.value < |s.workers|
            && var worker := s.workers[s.slot.value];
               && Answered(decode(worker.spec), worker.sent)
               && worker.received == Served(decode(worker.spec), worker.sent))
  {
    RunIsSynced(decode, Initial, events);
  }

  // ----- No survivor -----

  ghost predicate BornBefore(s: State) {
    && (forall w :: 0 <= w < |s.workers| ==> s.workers[w].born <= s.epoch)
    && (forall i :: 0 <= i < |s.waiting| ==> s.waiting[i].1 <= s.epoch)
    && (s.request.Some? ==> s.request.value.epoch <= s.epoch)
  }

  /** A process of an old epoch is in the slot, or about to enter it, only while some shutdown stands
      between its bump and its take. */
  ghost predicate OldOnlyWhileShuttingDown(s: State) {
    && (s.slot.Some? ==> s.slot.value < |s.workers| && (s.workers[s.slot.value].born == s.epoch || s.pending > 0))
    && (Local(s).Some? ==> Local(s).value < |s.workers| && s.workers[Local(s).value].born == s.request.value.epoch)
    && (s.request.Some? && s.request.value.phase.Checked? ==> s.request.value.epoch == s.epoch || s.pending > 0)
  }

  /** Every live process is in the slot, owned by the request in progress, or about to be killed. */
  ghost predicate NoneLeaked(s: State) {
    forall w: nat :: w < |s.workers| && s.workers[w].alive ==>
      s.slot == Some(w) || Local(s) == Some(w) || w in s.doomed
  }

  ghost predicate Accounted(s: State) {
    BornBefore(s) && OldOnlyWhileShuttingDown(s) && NoneLeaked(s)
  }

  lemma FailedIsAccounted(s: State)
    requires Accounted(s) && s.request.Some?
    ensures Accounted(Failed(s))
  {
  }

  /** Moving on with the same own process, without the checked lock, keeps the account. */
  lemma MovedIsAccounted(s: State, phase: Phase)
    requires Accounted(s) && s.request.Some? && !phase.Checked?
    requires Local(InPhase(s, phase)) == Local(s)
    ensures Accounted(InPhase(s, phase))
  {
  }

  /** Bytes exchanged do not matter to the account. */
  lemma ExchangedIsAccounted(s: State, w: nat, sent: seq<Byte>, received: seq<Byte>)
    requires Accounted(s) && w < |s.workers|
    ensures Accounted(s.(workers := s.workers[w := s.workers[w].(sent := sent, received := received)]))
  {
  }

  lemma ReceivedIsAccounted(decode: Decoders, s: State, w: nat, wanted: nat, count: nat)
    requires Accounted(s)
    ensures var (s', _) := Received(decode, s, w, wanted, count);
            Accounted(s') && s'.request == s.request
  {
    if w < |s.workers| {
      var worker := s.workers[w];
      ExchangedIsAccounted(s, w, worker.sent, worker.received + Arriving(decode, worker, wanted, count));
    }
  }

  lemma HandshakeIsAccounted(decode: Decoders, s: State, w: nat, got: seq<Byte>, count: nat)
    requires Accounted(s) && s.request.Some? && s.request.value.phase == Handshaking(w, got)
    ensures Accounted(HandshakeStep(decode, s, w, got, count))
  {
    var wanted := if |got| <= 4 then 4 - |got| else 0;
    var (s', more) := Received(decode, s, w, wanted, count);
    ReceivedIsAccounted(decode, s, w, wanted, count);
    MovedIsAccounted(s', Handshaking(w, got + more));
    MovedIsAccounted(s', Publishing(w));
    FailedIsAccounted(s');
  }

  lemma SizeIsAccounted(decode: Decoders, s: State, w: nat, base: seq<Byte>, got: seq<Byte>, count: nat)
    requires Accounted(s) && s.request.Some? && s.request.value.phase == ReadingSize(w, base, got)
    ensures Accounted(SizeStep(decode, s, w, base, got, count))
  {
    var wanted := if |got| <= 4 then 4 - |got| else 0;
    var (s', more) := Received(decode, s, w, wanted, count);
    ReceivedIsAccounted(decode, s, w, wanted, count);
    MovedIsAccounted(s', ReadingSize(w, base, got + more));
    MovedIsAccounted(s', ReadingBody(w, base, got + more, []));
    FailedIsAccounted(s');
  }

  lemma BodyIsAccounted(decode: Decoders, s: State, w: nat, base: seq<Byte>, size: seq<Byte>, got: seq<Byte>, count: nat)
    requires Accounted(s) && s.request.Some? && s.request.value.phase == ReadingBody(w, base, size, got)
    ensures Accounted(BodyStep(decode, s, w, base, size, got, count))
  {
    if |size| == 4 {
      var n := FromLe32(size);
      var wanted := if |got| <= n then n - |got| else 0;
      var (s', more) := Received(decode, s, w, wanted, count);
      ReceivedIsAccounted(decode, s, w, wanted, count);
      MovedIsAccounted(s', ReadingBody(w, base, size, got + more));
      MovedIsAccounted(s', Finishing(w, base, got + more));
    }
  }

  lemma WriteIsAccounted(s: State, w: nat, base: seq<Byte>, rest: seq<Byte>, count: nat)
    requires Accounted(s) && s.request.Some? && s.request.value.phase == Writing(w, base, rest)
    ensures Accounted(WriteStep(s, w, base, rest, count))
  {
    if w < |s.workers| {
      var k := Min(count, |rest|);
      var worker := s.workers[w];
      ExchangedIsAccounted(s, w, worker.sent + rest[..k], worker.received);
      var s' := s.(workers := s.workers[w := worker.(sent := worker.sent + rest[..k])]);
      MovedIsAccounted(s', if k == |rest| then ReadingSize(w, base, []) else Writing(w, base, rest[k..]));
    }
  }

  lemma SlotTakenIsAccounted(s: State)
    requires Accounted(s)
    ensures Accounted(SlotTaken(s)) && SlotTaken(s).slot.None? && SlotTaken(s).request == s.request
  {
  }

  /** Starting a process, or handing the own one to the empty slot, keeps the account. */
  lemma SpawnAndInstallAreAccounted(s: State, w: nat)
    requires Accounted(s) && s.request.Some? && s.slot.None?
    ensures s.request.value.phase.Spawning? ==> Accounted(SpawnStep(s))
    ensures s.request.value.phase == Checked(w) ==> Accounted(InstallStep(s, w))
  {
  }

  lemma ExchangeIsAccounted(decode: Decoders, s: State, count: nat)
    requires Accounted(s) && s.request.Some?
    ensures Accounted(ReadStep(decode, s, count)) && Accounted(HolderStep(decode, s, WriteBytes(count)))
  {
    match s.request.value.phase
    case Handshaking(w, got) => HandshakeIsAccounted(decode, s, w, got, count);
    case ReadingSize(w, base, got) => SizeIsAccounted(decode, s, w, base, got, count);
    case ReadingBody(w, base, size, got) => BodyIsAccounted(decode, s, w, base, size, got, count);
    case Writing(w, base, rest) => WriteIsAccounted(s, w, base, rest, count);
    case _ =>
  }

  lemma LockSlotIsAccounted(decode: Decoders, s: State, stopped: bool)
    requires Accounted(s) && s.request.Some?
    ensures Accounted(HolderStep(decode, s, LockSlot(stopped)))
  {
    FailedIsAccounted(s);
  }

  lemma InspectIsAccounted(decode: Decoders, s: State)
    requires Accounted(s) && s.request.Some?
    ensures Accounted(HolderStep(decode, s, Inspect))
  {
    if s.request.value.phase.Inspecting? {
      SlotTakenIsAccounted(s);
      MovedIsAccounted(SlotTaken(s), Spawning);
    }
  }

  lemma CleanupIsAccounted(decode: Decoders, s: State)
    requires Accounted(s) && s.request.Some?
    ensures Accounted(HolderStep(decode, s, Cleanup))
  {
    SlotTakenIsAccounted(s);
  }

  lemma PublishIsAccounted(decode: Decoders, s: State, stopped: bool)
    requires Accounted(s) && s.request.Some?
    ensures Accounted(HolderStep(decode, s, Publish(stopped)))
  {
    FailedIsAccounted(s);
  }

  lemma SpawnStepsAreAccounted(decode: Decoders, s: State)
    requires Accounted(s) && Synced(decode, s) && s.request.Some?
    ensures Accounted(HolderStep(decode, s, Spawn))
    ensures Accounted(HolderStep(decode, s, Install))
  {
    match s.request.value.phase
    case Spawning => SpawnAndInstallAreAccounted(s, 0);
    case Checked(w) => SpawnAndInstallAreAccounted(s, w);
    case _ =>
  }

  lemma EndStepsAreAccounted(decode: Decoders, s: State, stopped: bool)
    requires Accounted(s) && s.request.Some?
    ensures Accounted(HolderStep(decode, s, Finish(stopped)))
    ensures Accounted(HolderStep(decode, s, Fail))
  {
    FailedIsAccounted(s);
  }

  lemma HolderIsAccounted(decode: Decoders, s: State, e: Event)
    requires Accounted(s) && Synced(decode, s) && s.request.Some?
    ensures Accounted(HolderStep(decode, s, e))
  {
    match e
    case LockSlot(stopped) => LockSlotIsAccounted(decode, s, stopped);
    case Inspect => InspectIsAccounted(decode, s);
    case Cleanup => CleanupIsAccounted(decode, s);
    case Spawn => SpawnStepsAreAccounted(decode, s);
    case Publish(stopped) => PublishIsAccounted(decode, s, stopped);
    case Install => SpawnStepsAreAccounted(decode, s);
    case WriteBytes(count) => ExchangeIsAccounted(decode, s, count);
    case ReadBytes(count) => ExchangeIsAccounted(decode, s, count);
    case Finish(stopped) => EndStepsAreAccounted(decode, s, stopped);
    case Fail => EndStepsAreAccounted(decode, s, true);
    case _ =>
  }

  lemma ReapedIsAccounted(s: State, i: nat)
    requires Accounted(s)
    ensures Accounted(Reaped(s, i))
  {
    if i < |s.doomed| {
      var rest := Without(s.doomed, i);
      forall k | 0 <= k < |s.doomed| && k != i
        ensures s.doomed[k] in rest
      {
        assert rest[if k < i then k else k - 1] == s.doomed[k];
      }
    }
  }

  lemma TakeIsAccounted(s: State)
    requires Accounted(s)
    ensures Accounted(LobbyStep(s, Take))
  {
    SlotTakenIsAccounted(s);
  }

  lemma DiedIsAccounted(s: State, w: nat)
    requires Accounted(s)
    ensures Accounted(Killed(s, w))
  {
  }

  lemma BumpIsAccounted(s: State)
    requires Accounted(s)
    ensures Accounted(LobbyStep(s, Bump))
  {
  }

  lemma ArrivalIsAccounted(s: State, e: Event)
    requires Accounted(s) && (e.Begin? || e.GiveUp? || e.Acquire? || !InLobby(e))
    ensures Accounted(LobbyStep(s, e))
  {
  }

  lemma LobbyIsAccounted(s: State, e: Event)
    requires Accounted(s)
    ensures Accounted(LobbyStep(s, e))
  {
    match e
    case Reap(i) => ReapedIsAccounted(s, i);
    case Take => TakeIsAccounted(s);
    case Die(w) => DiedIsAccounted(s, w);
    case Bump => BumpIsAccounted(s);
    case _ => ArrivalIsAccounted(s, e);
  }

  lemma StepIsAccounted(decode: Decoders, s: State, e: Event)
    requires Accounted(s) && Synced(decode, s)
    ensures Accounted(Step(decode, s, e))
  {
    if InLobby(e) {
      LobbyIsAccounted(s, e);
    } else if s.request.Some? {
      HolderIsAccounted(decode, s, e);
    }
  }

  lemma {:induction false} RunIsAccounted(decode: Decoders, s: State, events: seq<Event>)
    requires Accounted(s) && Synced(decode, s)
    ensures Accounted(Run(decode, s, events))
    decreases |events|
  {
    if events != [] {
      StepIsAccounted(decode, s, events[0]);
      StepIsSynced(decode, s, events[0]);
      RunIsAccounted(decode, Step(decode, s, events[0]), events[1..]);
    }
  }

  /** Once every shutdown has taken the slot, a live process of an older epoch is one whose taker is about to kill it,
      or is owned by a request that will not get to publish it. */
  lemma ShutdownLeavesNoSurvivor(decode: Decoders, events: seq<Event>)
    ensures var s := Run(decode, Initial, events);
            s.pending == 0 ==>
              forall w: nat :: w < |s.workers| && s.workers[w].alive && s.workers[w].born != s.epoch ==>
                s.slot != Some(w) && (w in s.doomed || (Local(s) == Some(w) && !s.request.value.phase.Checked?))
  {
    RunIsAccounted(decode, Initial, events);
  }

  /** A process started under an old epoch is killed instead of published. */
  lemma OldProcessIsNotPublished(decode: Decoders, s: State, stopped: bool)
    requires Accounted(s) && s.request.Some? && s.request.value.phase.Publishing?
    requires s.workers[s.request.value.phase.w].born != s.epoch
    ensures var s' := Step(decode, s, Publish(stopped));
            && !s'.workers[s.request.value.phase.w].alive && Local(s') == None
            && s'.slot == s.slot && s'.request.Some? && s'.request.value.phase.Failing?
  {
  }
}
