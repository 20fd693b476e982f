/** The warm worker does answer (src/transcription/parakeet_worker.rs): wherever the protocol stands, a waiting request that
    no shutdown has overtaken can be served, and a matching live process serves it. */
module WorkerAnswers {
  import opened Wrappers
  import opened Numbers
  import opened Sequences
  import opened Wire
  import opened WarmWorker
  import opened WorkerRuns

  lemma {:induction false} RunInTwo(decode: Decoders, s: State, a: seq<Event>, b: seq<Event>)
    ensures Run(decode, s, a + b) == Run(decode, Run(decode, s, a), b)
    decreases |a|
  {
    if a == [] {
      assert a + b == b;
    } else {
      assert (a + b)[1..] == a[1..] + b;
      RunInTwo(decode, Step(decode, s, a[0]), a[1..], b);
    }
  }

  lemma OneEvent(decode: Decoders, s: State, e: Event)
    ensures Run(decode, s, [e]) == Step(decode, s, e)
  {
    assert Run(decode, Step(decode, s, e), []) == Step(decode, s, e);
  }

  /** The request holds the lock, and no shutdown came since it began. */
  predicate Serves(s: State, job: Job, phase: Phase) {
    s.request == Some(Request(job, s.epoch, phase))
  }

  predicate SameLobby(s: State, s': State) {
    s'.epoch == s.epoch && s'.waiting == s.waiting && s'.answers == s.answers
  }

  // ----- Shutting down -----

  /** A shutdown that finds the slot unlocked empties it and kills what was there. */
  lemma ShutdownKills(decode: Decoders, s: State)
    requires !SlotLocked(s) && (s.slot.Some? ==> s.slot.value < |s.workers|)
    ensures
      var taken := Step(decode, Step(decode, s, Bump), Take);
      && taken.epoch == s.epoch + 1 && taken.slot.None? && taken.pending == s.pending
      && (s.slot.Some? ==>
            && taken.doomed == s.doomed + [s.slot.value]
            && var dead := Step(decode, taken, Reap(|s.doomed|));
               !dead.workers[s.slot.value].alive && dead.doomed == s.doomed)
  {
    if s.slot.Some? {
      assert Without(s.doomed + [s.slot.value], |s.doomed|) == s.doomed;
    }
  }

  // ----- Getting the lock -----

  lemma FailingIsCleanedUp(decode: Decoders, s: State)
    requires s.request.Some? && s.request.value.phase.Failing?
    ensures var s' := Step(decode, s, Cleanup); s'.request.None? && SameLobby(s, s')
  {
  }

  lemma HolderFails(decode: Decoders, s: State)
    requires s.request.Some? && !s.request.value.phase.Checked? && !s.request.value.phase.Failing?
    ensures var s' := Step(decode, s, Fail); s'.request.Some? && s'.request.value.phase.Failing? && SameLobby(s, s')
  {
  }

  lemma CheckedInstalls(decode: Decoders, s: State)
    requires Synced(decode, s) && s.request.Some? && s.request.value.phase.Checked?
    ensures var s' := Step(decode, s, Install); s'.request.Some? && s'.request.value.phase.Writing? && SameLobby(s, s')
  {
  }

  /** Whoever holds the lock can give it up. */
  lemma LockComesFree(decode: Decoders, s: State) returns (events: seq<Event>)
    requires Synced(decode, s)
    ensures var s' := Run(decode, s, events); s'.request.None? && SameLobby(s, s') && Synced(decode, s')
  {
    events := [];
    var t := s;
    if t.request.Some? && t.request.value.phase.Checked? {
      CheckedInstalls(decode, t);
      OneEvent(decode, s, Install);
      events, t := [Install], Step(decode, t, Install);
    }
    if t.request.Some? && !t.request.value.phase.Failing? {
      HolderFails(decode, t);
      OneEvent(decode, t, Fail);
      RunInTwo(decode, s, events, [Fail]);
      events, t := events + [Fail], Step(decode, t, Fail);
    }
    if t.request.Some? {
      FailingIsCleanedUp(decode, t);
      OneEvent(decode, t, Cleanup);
      RunInTwo(decode, s, events, [Cleanup]);
      events, t := events + [Cleanup], Step(decode, t, Cleanup);
    }
    RunIsSynced(decode, s, events);
  }

  // ----- Getting a process -----

  /** The slot holds a live process of the spec. */
  predicate Matching(s: State, spec: Spec) {
    s.slot.Some? && s.slot.value < |s.workers| && s.workers[s.slot.value].spec == spec && s.workers[s.slot.value].alive
  }

  lemma InspectDecides(decode: Decoders, s: State, job: Job)
    requires Serves(s, job, Inspecting) && |job.audio| <= MAX_SAMPLES
    ensures
      var s' := Step(decode, s, Inspect);
      && SameLobby(s, s')
      && if Matching(s, job.spec) then
           && s'.workers == s.workers && s'.slot == s.slot
           && Serves(s', job, Writing(s.slot.value, s.workers[s.slot.value].sent, Encode(job.audio)))
         else Serves(s', job, Spawning)
  {
  }

  lemma SpawnStarts(decode: Decoders, s: State, job: Job)
    requires Serves(s, job, Spawning)
    ensures
      var s', w := Step(decode, s, Spawn), |s.workers|;
      && SameLobby(s, s') && Serves(s', job, Handshaking(w, []))
      && |s'.workers| == w + 1 && s'.workers[w] == Worker(job.spec, s.epoch, [], [], true)
  {
  }

  lemma HandshakeCompletes(decode: Decoders, s: State, job: Job, w: nat)
    requires Serves(s, job, Handshaking(w, [])) && w < |s.workers| && s.workers[w].sent == [] && s.workers[w].received == []
    ensures var s' := Step(decode, s, ReadBytes(4)); SameLobby(s, s') && Serves(s', job, Publishing(w))
  {
    FreshIsReady(decode(s.workers[w].spec));
    var more := Arriving(decode, s.workers[w], 4, 4);
    assert more == READY[..4] == READY;
    assert [] + more == more;
  }

  lemma PublishInstalls(decode: Decoders, s: State, job: Job, w: nat)
    requires Serves(s, job, Publishing(w)) && w < |s.workers| && |job.audio| <= MAX_SAMPLES
    ensures
      var s' := Step(decode, Step(decode, s, Publish(false)), Install);
      && SameLobby(s, s') && s'.slot == Some(w) && s'.workers == s.workers
      && Serves(s', job, Writing(w, s.workers[w].sent, Encode(job.audio)))
  {
  }

  lemma SpawnsAndInstalls(decode: Decoders, s: State, job: Job) returns (events: seq<Event>)
    requires Serves(s, job, Spawning) && |job.audio| <= MAX_SAMPLES
    ensures
      var s' := Run(decode, s, events);
      SameLobby(s, s') && s'.request.Some? && Serves(s', job, s'.request.value.phase) && s'.request.value.phase.Writing?
  {
    var w := |s.workers|;
    SpawnStarts(decode, s, job);
    var s1 := Step(decode, s, Spawn);
    HandshakeCompletes(decode, s1, job, w);
    var s2 := Step(decode, s1, ReadBytes(4));
    HandshakeKeepsWorkers(decode, s1, 4);
    PublishInstalls(decode, s2, job, w);
    var s3 := Step(decode, s2, Publish(false));
    OneEvent(decode, s, Spawn);
    OneEvent(decode, s1, ReadBytes(4));
    OneEvent(decode, s2, Publish(false));
    OneEvent(decode, s3, Install);
    RunInTwo(decode, s, [Spawn], [ReadBytes(4)]);
    RunInTwo(decode, s, [Spawn] + [ReadBytes(4)], [Publish(false)]);
    RunInTwo(decode, s, [Spawn] + [ReadBytes(4)] + [Publish(false)], [Install]);
    events := [Spawn] + [ReadBytes(4)] + [Publish(false)] + [Install];
  }

  lemma HandshakeKeepsWorkers(decode: Decoders, s: State, count: nat)
    requires s.request.Some? && s.request.value.phase.Handshaking?
    ensures |Step(decode, s, ReadBytes(count)).workers| == |s.workers|
  {
  }

  // ----- The exchange -----

  lemma WritesAll(decode: Decoders, s: State, job: Job, w: nat, base: seq<Byte>, rest: seq<Byte>)
    requires Serves(s, job, Writing(w, base, rest)) && w < |s.workers|
    ensures
      var s' := Step(decode, s, WriteBytes(|rest|));
      SameLobby(s, s') && Serves(s', job, ReadingSize(w, base, []))
  {
  }

  /** What has arrived of the answer when nothing was read yet. */
  lemma AnswerArrives(decode: Decoders, s: State, job: Job, w: nat, base: seq<Byte>)
    requires |job.audio| <= MAX_SAMPLES && GoodResult(AnswerOf(decode, job)) && Answering(decode, s, job, w, base, [])
    ensures
      var result := AnswerOf(decode, job).value;
      && FromLe32(Le32(|result|)) == |result|
      && Served(decode(s.workers[w].spec), s.workers[w].sent) == s.workers[w].received + (Le32(|result|) + result)
  {
    AnswerIsWaiting(decode(job.spec), base, job.audio);
    assert Served(decode(job.spec), base) + [] == Served(decode(job.spec), base);
  }

  /** Reading takes the front of what is waiting. */
  lemma FrontArrives(decode: Decoders, worker: Worker, front: seq<Byte>, rest: seq<Byte>)
    requires Served(decode(worker.spec), worker.sent) == worker.received + (front + rest)
    ensures Arriving(decode, worker, |front|, |front|) == front
  {
    var out := Served(decode(worker.spec), worker.sent);
    assert out[|worker.received|..] == front + rest;
    assert (front + rest)[..|front|] == front;
  }

  lemma SizeStepReads(decode: Decoders, s: State, job: Job, w: nat, base: seq<Byte>, size: seq<Byte>)
    requires Serves(s, job, ReadingSize(w, base, [])) && w < |s.workers|
    requires Arriving(decode, s.workers[w], 4, 4) == size && |size| == 4 && 0 < FromLe32(size) <= MAX_RESULT
    ensures
      var s' := Step(decode, s, ReadBytes(4));
      SameLobby(s, s') && Serves(s', job, ReadingBody(w, base, size, []))
  {
    assert [] + size == size;
  }

  lemma BodyStepReads(decode: Decoders, s: State, job: Job, w: nat, base: seq<Byte>, size: seq<Byte>, body: seq<Byte>)
    requires Serves(s, job, ReadingBody(w, base, size, [])) && w < |s.workers| && |size| == 4
    requires Arriving(decode, s.workers[w], FromLe32(size), |body|) == body && |body| == FromLe32(size)
    ensures
      var s' := Step(decode, s, ReadBytes(|body|));
      SameLobby(s, s') && Serves(s', job, Finishing(w, base, body))
  {
    assert [] + body == body;
  }

  lemma ReadingIsAnswering(decode: Decoders, s: State, job: Job, w: nat, base: seq<Byte>, size: seq<Byte>)
    requires Synced(decode, s)
    ensures Serves(s, job, ReadingSize(w, base, [])) ==> |job.audio| <= MAX_SAMPLES && Answering(decode, s, job, w, base, [])
    ensures Serves(s, job, ReadingBody(w, base, size, [])) ==>
              |job.audio| <= MAX_SAMPLES && Answering(decode, s, job, w, base, size)
  {
    assert size + [] == size;
  }

  lemma ReadsSize(decode: Decoders, s: State, job: Job, w: nat, base: seq<Byte>)
    requires Synced(decode, s) && Serves(s, job, ReadingSize(w, base, [])) && GoodResult(AnswerOf(decode, job))
    ensures
      var s', size := Step(decode, s, ReadBytes(4)), Le32(|AnswerOf(decode, job).value|);
      SameLobby(s, s') && Serves(s', job, ReadingBody(w, base, size, []))
  {
    var result := AnswerOf(decode, job).value;
    ReadingIsAnswering(decode, s, job, w, base, []);
    AnswerArrives(decode, s, job, w, base);
    FrontArrives(decode, s.workers[w], Le32(|result|), result);
    SizeStepReads(decode, s, job, w, base, Le32(|result|));
  }

  /** What has arrived of the answer when its size was read. */
  lemma BodyArrives(decode: Decoders, s: State, job: Job, w: nat, base: seq<Byte>)
    requires |job.audio| <= MAX_SAMPLES && GoodResult(AnswerOf(decode, job))
    requires Answering(decode, s, job, w, base, Le32(|AnswerOf(decode, job).value|))
    ensures
      var result := AnswerOf(decode, job).value;
      && FromLe32(Le32(|result|)) == |result|
      && Served(decode(s.workers[w].spec), s.workers[w].sent) == s.workers[w].received + (result + [])
  {
    var result := AnswerOf(decode, job).value;
    AnswerIsWaiting(decode(job.spec), base, job.audio);
    Regrouped(Served(decode(job.spec), base), Le32(|result|), result);
    Regrouped(result, [], []);
  }

  lemma ReadsBody(decode: Decoders, s: State, job: Job, w: nat, base: seq<Byte>, size: seq<Byte>)
    requires Synced(decode, s) && Serves(s, job, ReadingBody(w, base, size, [])) && GoodResult(AnswerOf(decode, job))
    requires size == Le32(|AnswerOf(decode, job).value|)
    ensures
      var s' := Step(decode, s, ReadBytes(|AnswerOf(decode, job).value|));
      SameLobby(s, s') && Serves(s', job, Finishing(w, base, AnswerOf(decode, job).value))
  {
    var result := AnswerOf(decode, job).value;
    ReadingIsAnswering(decode, s, job, w, base, size);
    BodyArrives(decode, s, job, w, base);
    FrontArrives(decode, s.workers[w], result, []);
    BodyStepReads(decode, s, job, w, base, size, result);
  }

  lemma FinishAnswers(decode: Decoders, s: State, job: Job, w: nat, base: seq<Byte>, result: seq<Byte>)
    requires Serves(s, job, Finishing(w, base, result))
    ensures Step(decode, s, Finish(false)) == s.(request := None, answers := s.answers + [Answer(job, result)])
  {
  }

  lemma ExchangeAnswers(decode: Decoders, s: State, job: Job) returns (events: seq<Event>)
    requires Synced(decode, s) && s.request.Some? && s.request.value.phase.Writing?
    requires Serves(s, job, s.request.value.phase) && GoodResult(AnswerOf(decode, job))
    ensures Run(decode, s, events).answers == s.answers + [Answer(job, AnswerOf(decode, job).value)]
    ensures Run(decode, s, events).request.None? && Spawn !in events
  {
    var Writing(w, base, rest) := s.request.value.phase;
    var result := AnswerOf(decode, job).value;
    var e1, e2, e3, e4 := WriteBytes(|rest|), ReadBytes(4), ReadBytes(|result|), Finish(false);
    var s1 := Step(decode, s, e1);
    var s2 := Step(decode, s1, e2);
    var s3 := Step(decode, s2, e3);
    WritesAll(decode, s, job, w, base, rest);
    StepIsSynced(decode, s, e1);
    ReadsSize(decode, s1, job, w, base);
    StepIsSynced(decode, s1, e2);
    ReadsBody(decode, s2, job, w, base, Le32(|result|));
    FinishAnswers(decode, s3, job, w, base, result);
    OneEvent(decode, s, e1);
    OneEvent(decode, s1, e2);
    OneEvent(decode, s2, e3);
    OneEvent(decode, s3, e4);
    RunInTwo(decode, s, [e1], [e2]);
    RunInTwo(decode, s, [e1] + [e2], [e3]);
    RunInTwo(decode, s, [e1] + [e2] + [e3], [e4]);
    events := [e1] + [e2] + [e3] + [e4];
  }

  // ----- The answer -----

  lemma AcquireInspects(decode: Decoders, s: State, i: nat)
    requires s.request.None? && i < |s.waiting| && s.waiting[i].1 == s.epoch
    ensures
      var s' := Step(decode, Step(decode, s, Acquire(i)), LockSlot(false));
      && Serves(s', s.waiting[i].0, Inspecting) && s'.epoch == s.epoch && s'.answers == s.answers
      && s'.slot == s.slot && s'.workers == s.workers
  {
  }

  /** A free lock, a request that no shutdown has overtaken, and a decode worth an answer: the request is answered, by the
      process in the slot if that is alive and of its spec. */
  lemma FreeLockAnswers(decode: Decoders, s: State, i: nat) returns (events: seq<Event>)
    requires Synced(decode, s) && s.request.None? && i < |s.waiting| && s.waiting[i].1 == s.epoch
    requires GoodResult(AnswerOf(decode, s.waiting[i].0))
    ensures Run(decode, s, events).answers == s.answers + [Answer(s.waiting[i].0, AnswerOf(decode, s.waiting[i].0).value)]
    ensures Run(decode, s, events).request.None?
    ensures Matching(s, s.waiting[i].0.spec) ==> Spawn !in events
  {
    var job := s.waiting[i].0;
    var s1 := Step(decode, s, Acquire(i));
    var s2 := Step(decode, s1, LockSlot(false));
    var s3 := Step(decode, s2, Inspect);
    AcquireInspects(decode, s, i);
    StepIsSynced(decode, s, Acquire(i));
    StepIsSynced(decode, s1, LockSlot(false));
    StepIsSynced(decode, s2, Inspect);
    InspectDecides(decode, s2, job);
    OneEvent(decode, s, Acquire(i));
    OneEvent(decode, s1, LockSlot(false));
    OneEvent(decode, s2, Inspect);
    RunInTwo(decode, s, [Acquire(i)], [LockSlot(false)]);
    RunInTwo(decode, s, [Acquire(i)] + [LockSlot(false)], [Inspect]);
    var start := [Acquire(i)] + [LockSlot(false)] + [Inspect];
    var connect: seq<Event> := [];
    if !Matching(s, job.spec) {
      connect := SpawnsAndInstalls(decode, s3, job);
    }
    var s4 := Run(decode, s3, connect);
    RunIsSynced(decode, s3, connect);
    var exchange := ExchangeAnswers(decode, s4, job);
    RunInTwo(decode, s, start, connect);
    RunInTwo(decode, s, start + connect, exchange);
    events := start + connect + exchange;
  }

  /** From every state a run can reach, every waiting request that no shutdown has overtaken, and whose decode is worth an
      answer, can get exactly that answer. */
  lemma WaitingIsAnswered(decode: Decoders, before: seq<Event>, i: nat) returns (events: seq<Event>)
    requires
      var s := Run(decode, Initial, before);
      i < |s.waiting| && s.waiting[i].1 == s.epoch && GoodResult(AnswerOf(decode, s.waiting[i].0))
    ensures
      var s, s' := Run(decode, Initial, before), Run(decode, Run(decode, Initial, before), events);
      s'.answers == s.answers + [Answer(s.waiting[i].0, AnswerOf(decode, s.waiting[i].0).value)]
  {
    var s := Run(decode, Initial, before);
    RunIsSynced(decode, Initial, before);
    var free := LockComesFree(decode, s);
    var answer := FreeLockAnswers(decode, Run(decode, s, free), i);
    RunInTwo(decode, s, free, answer);
    events := free + answer;
  }
}
