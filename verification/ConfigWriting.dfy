/** The coalescing configuration writer (src/config_writer.rs): one worker thread, any number of submitters and
    flushers, and an exclusive close. Every critical section is one step; steps interleave freely. */
module ConfigWriting {
  import opened Sequences
  import opened Wrappers

  // ----- The writer as a state machine -----

  /** Where the worker thread is: at the condition variable, holding a job, past the disk write, or gone. */
  datatype Worker<C> =
    | Waiting
    | Holding(sequence: nat, config: C)
    | Written(sequence: nat, failure: Option<string>)
    | Exited

  /** One disk write: the configuration's number and whether it replaced the file. */
  datatype Attempt<C> = Attempt(sequence: nat, config: C, succeeded: bool)

  datatype Writer<C> = Writer(
    requested: nat, completed: nat, pending: Option<(nat, C)>, error: Option<string>, closed: bool,
    worker: Worker<C>, disk: Option<C>,
    submitted: seq<C>, attempts: seq<Attempt<C>>)

  datatype SaveStatus = Pending | Persisted | Failed(error: string)

  /** The file may hold anything before the first write. */
  function Fresh<C>(disk: Option<C>): Writer<C> {
    Writer(0, 0, None, None, false, Waiting, disk, [], [])
  }

  datatype Event<C> =
    | Submit(config: C)
    | TakeJob
    /** The write of the held configuration replaces the file atomically or leaves it as it was. */
    | WriteFile(failure: Option<string>)
    | Report
    | Close

  /** Closing takes the writer by value, so nothing is submitted afterwards. */
  function SubmitStep<C>(s: Writer<C>, config: C): Writer<C> {
    if s.closed then s
    else
      s.(requested := s.requested + 1, pending := Some((s.requested + 1, config)), submitted := s.submitted + [config])
  }

  function TakeStep<C>(s: Writer<C>): Writer<C> {
    if !s.worker.Waiting? then s
    else
      match s.pending
      case Some(job) => s.(pending := None, worker := Holding(job.0, job.1))
      case None => if s.closed then s.(worker := Exited) else s
  }

  function WriteStep<C>(s: Writer<C>, failure: Option<string>): Writer<C> {
    if !s.worker.Holding? then s
    else
      s.(worker := Written(s.worker.sequence, failure),
         disk := if failure.None? then Some(s.worker.config) else s.disk,
         attempts := s.attempts + [Attempt(s.worker.sequence, s.worker.config, failure.None?)])
  }

  function ReportStep<C>(s: Writer<C>): Writer<C> {
    if !s.worker.Written? then s
    else s.(completed := s.worker.sequence, error := s.worker.failure, worker := Waiting)
  }

  function CloseStep<C>(s: Writer<C>): Writer<C> {
    s.(closed := true)
  }

  function Step<C>(s: Writer<C>, e: Event<C>): Writer<C> {
    match e
    case Submit(config) => SubmitStep(s, config)
    case TakeJob => TakeStep(s)
    case WriteFile(failure) => WriteStep(s, failure)
    case Report => ReportStep(s)
    case Close => CloseStep(s)
  }

  function Run<C>(s: Writer<C>, events: seq<Event<C>>): Writer<C>
    decreases |events|
  {
    if events == [] then s else Run(Step(s, events[0]), events[1..])
  }

  /** What a flush returns if it looks now; it waits while the answer is `None`, until its deadline. */
  function FlushResult<C>(s: Writer<C>): Option<Option<string>> {
    if s.completed < s.requested then None else Some(s.error)
  }

  function Status<C>(s: Writer<C>): SaveStatus {
    if s.completed < s.requested then Pending
    else
      match s.error
      case Some(error) => Failed(error)
      case None => Persisted
  }

  // ----- What every run keeps -----

  /** The configuration with number `n` is the `n`th submitted. */
  predicate IsJob<C(==)>(submitted: seq<C>, n: nat, config: C) {
    1 <= n <= |submitted| && submitted[n - 1] == config
  }

  ghost predicate AreJobs<C>(submitted: seq<C>, attempts: seq<Attempt<C>>) {
    forall i :: 0 <= i < |attempts| ==> IsJob(submitted, attempts[i].sequence, attempts[i].config)
  }

  /** Numbers of disk writes strictly increase: an older configuration never replaces a newer one. */
  ghost predicate Increasing<C>(attempts: seq<Attempt<C>>) {
    forall i, j :: 0 <= i < j < |attempts| ==> attempts[i].sequence < attempts[j].sequence
  }

  function LastTried<C>(attempts: seq<Attempt<C>>): nat {
    if attempts == [] then 0 else Last(attempts).sequence
  }

  /** The newest configuration that replaced the file, if any did. */
  function OnDisk<C>(attempts: seq<Attempt<C>>, before: Option<C>): Option<C> {
    if attempts == [] then before
    else if Last(attempts).succeeded then Some(Last(attempts).config)
    else OnDisk(Init(attempts), before)
  }

  /** The newest number the worker has in hand or has reported. */
  function InHand<C>(s: Writer<C>): nat {
    if s.worker.Holding? || s.worker.Written? then s.worker.sequence else s.completed
  }

  predicate Counted<C>(s: Writer<C>) {
    && s.requested == |s.submitted|
    && s.completed <= InHand(s) <= s.requested
    && (s.worker.Holding? || s.worker.Written? ==> s.completed < s.worker.sequence)
    && (s.pending.None? ==> InHand(s) == s.requested)
    && (s.pending.Some? ==> InHand(s) < s.requested && s.pending.value.0 == s.requested)
    && (s.worker.Exited? ==> s.closed && s.pending.None?)
  }

  ghost predicate Tracked<C>(s: Writer<C>) {
    && (s.pending.Some? ==> IsJob(s.submitted, s.pending.value.0, s.pending.value.1))
    && (s.worker.Holding? ==> IsJob(s.submitted, s.worker.sequence, s.worker.config))
    && AreJobs(s.submitted, s.attempts)
    && Increasing(s.attempts)
    && LastTried(s.attempts) == (if s.worker.Written? then s.worker.sequence else s.completed)
  }

  predicate Reported<C>(s: Writer<C>) {
    && (s.attempts == [] ==> s.error.None? && !s.worker.Written?)
    && (s.attempts != [] && s.worker.Written? ==> Last(s.attempts).succeeded == s.worker.failure.None?)
    && (s.attempts != [] && !s.worker.Written? ==> Last(s.attempts).succeeded == s.error.None?)
  }

  ghost predicate Good<C>(s: Writer<C>, before: Option<C>) {
    Counted(s) && Tracked(s) && Reported(s) && s.disk == OnDisk(s.attempts, before)
  }

  lemma JobsStayJobs<C>(submitted: seq<C>, config: C, attempts: seq<Attempt<C>>)
    requires AreJobs(submitted, attempts)
    ensures AreJobs(submitted + [config], attempts)
  {
  }

  lemma OneMoreJob<C>(submitted: seq<C>, attempts: seq<Attempt<C>>, attempt: Attempt<C>)
    requires AreJobs(submitted, attempts) && IsJob(submitted, attempt.sequence, attempt.config)
    ensures AreJobs(submitted, attempts + [attempt])
  {
  }

  lemma SubmitKeeps<C>(s: Writer<C>, config: C, before: Option<C>)
    requires Good(s, before)
    ensures Good(SubmitStep(s, config), before)
  {
    JobsStayJobs(s.submitted, config, s.attempts);
  }

  lemma OneMoreAttempt<C>(attempts: seq<Attempt<C>>, attempt: Attempt<C>, before: Option<C>)
    requires Increasing(attempts) && LastTried(attempts) < attempt.sequence
    ensures Increasing(attempts + [attempt])
    ensures LastTried(attempts + [attempt]) == attempt.sequence
    ensures OnDisk(attempts + [attempt], before)
         == if attempt.succeeded then Some(attempt.config) else OnDisk(attempts, before)
  {
    assert Init(attempts + [attempt]) == attempts;
    forall i | 0 <= i < |attempts|
      ensures attempts[i].sequence <= LastTried(attempts)
    {
    }
  }

  lemma WriteKeeps<C>(s: Writer<C>, failure: Option<string>, before: Option<C>)
    requires Good(s, before) && s.worker.Holding?
    ensures Good(WriteStep(s, failure), before)
  {
    var attempt := Attempt(s.worker.sequence, s.worker.config, failure.None?);
    OneMoreAttempt(s.attempts, attempt, before);
    OneMoreJob(s.submitted, s.attempts, attempt);
    var t := WriteStep(s, failure);
    assert Last(t.attempts) == attempt;
  }

  lemma TakeKeeps<C>(s: Writer<C>, before: Option<C>)
    requires Good(s, before)
    ensures Good(TakeStep(s), before)
  {
  }

  lemma ReportKeeps<C>(s: Writer<C>, before: Option<C>)
    requires Good(s, before)
    ensures Good(ReportStep(s), before)
  {
  }

  lemma CloseKeeps<C>(s: Writer<C>, before: Option<C>)
    requires Good(s, before)
    ensures Good(CloseStep(s), before)
  {
  }

  lemma StepKeeps<C>(s: Writer<C>, e: Event<C>, before: Option<C>)
    requires Good(s, before)
    ensures Good(Step(s, e), before)
  {
    match e {
      case Submit(config) => SubmitKeeps(s, config, before);
      case WriteFile(failure) =>
        if s.worker.Holding? {
          WriteKeeps(s, failure, before);
        }
      case TakeJob => TakeKeeps(s, before);
      case Report => ReportKeeps(s, before);
      case Close => CloseKeeps(s, before);
    }
  }

  lemma {:induction false} RunKeeps<C>(s: Writer<C>, events: seq<Event<C>>, before: Option<C>)
    requires Good(s, before)
    ensures Good(Run(s, events), before)
    decreases |events|
  {
    if events != [] {
      StepKeeps(s, events[0], before);
      RunKeeps(Step(s, events[0]), events[1..], before);
    }
  }

  // ----- What callers may rely on -----

  /** A flush that returns Ok after anything was submitted means the disk holds the configuration submitted last. */
  lemma FlushOkMeansLatest<C>(events: seq<Event<C>>, before: Option<C>)
    ensures
      var s := Run(Fresh(before), events);
      FlushResult(s) == Some(None) ==> s.disk == if s.submitted == [] then before else Some(Last(s.submitted))
  {
    RunKeeps(Fresh(before), events, before);
  }

  /** Every disk write is of a submitted configuration, newer than all writes before it. */
  lemma NothingOlderIsWritten<C>(events: seq<Event<C>>, before: Option<C>)
    ensures
      var s := Run(Fresh(before), events);
      Increasing(s.attempts) && AreJobs(s.submitted, s.attempts)
  {
    RunKeeps(Fresh(before), events, before);
  }

  /** When the worker has exited, the configuration submitted last was tried: closing loses nothing pending. */
  lemma ExitMeansDrained<C>(events: seq<Event<C>>, before: Option<C>)
    ensures
      var s := Run(Fresh(before), events);
      s.worker.Exited? ==>
        && s.completed == s.requested == |s.submitted|
        && (s.submitted != [] ==> s.attempts != [] && Last(s.attempts).config == Last(s.submitted))
  {
    RunKeeps(Fresh(before), events, before);
  }

  // ----- Closing -----

  /** The worker's next step, with the outcome of its disk write should it be at one. */
  function WorkerStep<C>(s: Writer<C>, failure: Option<string>): Writer<C> {
    match s.worker
    case Waiting => TakeStep(s)
    case Holding(_, _) => WriteStep(s, failure)
    case Written(_, _) => ReportStep(s)
    case Exited => s
  }

  function WorkerRun<C>(s: Writer<C>, failures: seq<Option<string>>): Writer<C>
    decreases |failures|
  {
    if failures == [] then s else WorkerRun(WorkerStep(s, failures[0]), failures[1..])
  }

  /** Steps left to a worker that is never waiting for anyone. */
  function StepsLeft<C>(s: Writer<C>): nat {
    (if s.pending.Some? then 3 else 0)
    + match s.worker
      case Waiting => 1
      case Holding(_, _) => 3
      case Written(_, _) => 2
      case Exited => 0
  }

  /** Each step of the worker keeps the invariant. */
  lemma WorkerStepKeeps<C>(s: Writer<C>, failure: Option<string>, before: Option<C>)
    requires Good(s, before)
    ensures Good(WorkerStep(s, failure), before)
  {
    match s.worker
    case Waiting => StepKeeps(s, TakeJob, before);
    case Holding(_, _) => StepKeeps(s, WriteFile(failure), before);
    case Written(_, _) => StepKeeps(s, Report, before);
    case Exited =>
  }

  /** Once closed, each step of the worker gets it closer to its exit. */
  lemma WorkerStepDrains<C>(s: Writer<C>, failure: Option<string>)
    requires s.closed
    ensures WorkerStep(s, failure).closed
    ensures s.worker.Exited? || StepsLeft(WorkerStep(s, failure)) < StepsLeft(s)
  {
  }

  lemma ExitedHasNoneLeft<C>(s: Writer<C>, before: Option<C>)
    requires Good(s, before) && s.closed && s.worker.Exited?
    ensures StepsLeft(s) == 0
  {
  }

  /** Once closed, the worker never waits: it exits after at most six of its own steps, whatever its writes do. */
  lemma {:induction false} CloseDrains<C>(s: Writer<C>, failures: seq<Option<string>>, before: Option<C>)
    requires Good(s, before) && s.closed && |failures| >= StepsLeft(s)
    ensures StepsLeft(s) <= 6
    ensures WorkerRun(s, failures).worker.Exited?
    decreases |failures|
  {
    if s.worker.Exited? {
      ExitedHasNoneLeft(s, before);
    }
    if failures != [] {
      WorkerStepDrains(s, failures[0]);
      WorkerStepKeeps(s, failures[0], before);
      CloseDrains(WorkerStep(s, failures[0]), failures[1..], before);
    }
  }

  // ----- What is submitted is written -----

  /** The configurations a run submits before it closes the writer. */
  function SubmittedIn<C>(events: seq<Event<C>>, closed: bool): seq<C> {
    if events == [] then []
    else
      (if events[0].Submit? && !closed then [events[0].config] else []) + SubmittedIn(events[1..], closed || events[0].Close?)
  }

  lemma {:induction false} EverySubmissionCounts<C>(s: Writer<C>, events: seq<Event<C>>)
    ensures Run(s, events).submitted == s.submitted + SubmittedIn(events, s.closed)
    decreases |events|
  {
    if events == [] {
      assert s.submitted + [] == s.submitted;
    } else {
      var s' := Step(s, events[0]);
      assert s'.submitted == s.submitted + (if events[0].Submit? && !s.closed then [events[0].config] else []);
      EverySubmissionCounts(s', events[1..]);
    }
  }

  /** The worker has nothing left to do but wait. */
  predicate Settled<C>(s: Writer<C>) {
    s.pending.None? && (s.worker.Waiting? || s.worker.Exited?)
  }

  /** Steps of the worker until nothing is left to do. */
  function Outstanding<C>(s: Writer<C>): nat {
    (if s.pending.Some? then 3 else 0) + (if s.worker.Holding? then 2 else if s.worker.Written? then 1 else 0)
  }

  /** Nothing newer than the last failure stands in the way of a good end. */
  predicate Hopeful<C>(s: Writer<C>) {
    || s.pending.Some?
    || s.worker.Holding?
    || (if s.worker.Written? then s.worker.failure.None? else s.error.None?)
  }

  lemma WorkerStepSettles<C>(s: Writer<C>, failure: Option<string>)
    requires s.pending.Some? ==> !s.worker.Exited?
    ensures
      var s' := WorkerStep(s, failure);
      && s'.submitted == s.submitted && s'.requested == s.requested && s'.closed == s.closed
      && (s'.pending.Some? ==> !s'.worker.Exited?)
      && (Settled(s) ==> Settled(s'))
      && (!Settled(s) ==> Outstanding(s') < Outstanding(s))
      && (failure.None? && Hopeful(s) ==> Hopeful(s'))
  {
  }

  /** However busy the writer is, after five steps of its worker nothing is outstanding; and if their writes succeed, the
      file holds the configuration submitted last and a flush says so. */
  lemma {:induction false} WorkerSettles<C>(s: Writer<C>, failures: seq<Option<string>>, before: Option<C>)
    requires Good(s, before) && |failures| >= Outstanding(s)
    ensures Outstanding(s) <= 5
    ensures
      var t := WorkerRun(s, failures);
      && Good(t, before) && Settled(t) && t.completed == t.requested && t.submitted == s.submitted
      && (Hopeful(s) && (forall k :: 0 <= k < |failures| ==> failures[k].None?) ==> t.error.None?)
    decreases |failures|
  {
    if failures != [] {
      var s' := WorkerStep(s, failures[0]);
      WorkerStepSettles(s, failures[0]);
      WorkerStepKeeps(s, failures[0], before);
      WorkerSettles(s', failures[1..], before);
    }
  }

  lemma SettledMeansWritten<C>(s: Writer<C>, before: Option<C>)
    requires Good(s, before) && Settled(s) && s.error.None?
    ensures FlushResult(s) == Some(None) && Status(s) == Persisted
    ensures s.disk == if s.submitted == [] then before else Some(Last(s.submitted))
  {
  }

  /** After any run whose last submission is still to be tried, or went well, the worker gets it onto the disk. */
  lemma LatestIsWritten<C>(events: seq<Event<C>>, failures: seq<Option<string>>, before: Option<C>)
    requires |failures| >= 5 && forall k :: 0 <= k < |failures| ==> failures[k].None?
    ensures
      var s, submitted := Run(Fresh(before), events), SubmittedIn(events, false);
      Hopeful(s) ==>
        var t := WorkerRun(s, failures);
        && FlushResult(t) == Some(None) && Status(t) == Persisted
        && t.disk == if submitted == [] then before else Some(Last(submitted))
  {
    var s := Run(Fresh(before), events);
    RunKeeps(Fresh(before), events, before);
    EverySubmissionCounts(Fresh(before), events);
    assert s.submitted == SubmittedIn(events, false);
    if Hopeful(s) {
      WorkerSettles(s, failures, before);
      SettledMeansWritten(WorkerRun(s, failures), before);
    }
  }

  // ----- The object -----

  /** The fields under the lock, and beside them the worker's job in hand and the file. */
  class ConfigWriter<C> {
    var requested: nat
    var completed: nat
    var pending: Option<(nat, C)>
    var error: Option<string>
    var closed: bool
    var worker: Worker<C>
    var disk: Option<C>
    /** What the file held at first, everything submitted, and every disk write. */
    ghost const before: Option<C>
    ghost var submitted: seq<C>
    ghost var attempts: seq<Attempt<C>>

    ghost predicate Valid()
      reads this
    {
      Good(State(), before)
    }

    ghost function State(): Writer<C>
      reads this
    {
      Writer(requested, completed, pending, error, closed, worker, disk, submitted, attempts)
    }

    constructor (before: Option<C>)
      ensures Valid() && State() == Fresh(before) && this.before == before
    {
      this.before := before;
      requested, completed, pending, error, closed := 0, 0, None, None, false;
      worker, disk := Waiting, before;
      submitted, attempts := [], [];
    }

    method Submit(config: C)
      requires Valid() && !closed
      modifies this
      ensures Valid() && State() == SubmitStep(old(State()), config)
    {
      StepKeeps(State(), Event.Submit(config), before);
      requested := requested + 1;
      pending := Some((requested, config));
      submitted := submitted + [config];
    }

    /** One look of the worker at the condition: it leaves with the pending job, leaves for good, or waits on. */
    method TakeJob()
      requires Valid() && worker.Waiting?
      modifies this
      ensures Valid() && State() == TakeStep(old(State()))
      ensures worker.Exited? ==> completed == requested && (submitted != [] ==> Last(attempts).config == Last(submitted))
    {
      StepKeeps(State(), Event.TakeJob, before);
      if pending.None? && !closed {
        return;
      }
      match pending {
        case Some(job) =>
          pending := None;
          worker := Holding(job.0, job.1);
        case None =>
          worker := Exited;
      }
    }

    /** The write itself, outside the lock; `failure` is how it ends. */
    method WriteFile(failure: Option<string>)
      requires Valid() && worker.Holding?
      modifies this
      ensures Valid() && State() == WriteStep(old(State()), failure)
    {
      StepKeeps(State(), Event.WriteFile(failure), before);
      attempts := attempts + [Attempt(worker.sequence, worker.config, failure.None?)];
      if failure.None? {
        disk := Some(worker.config);
      }
      worker := Written(worker.sequence, failure);
    }

    method Report()
      requires Valid() && worker.Written?
      modifies this
      ensures Valid() && State() == ReportStep(old(State()))
    {
      StepKeeps(State(), Event.Report, before);
      completed := worker.sequence;
      error := worker.failure;
      worker := Waiting;
    }

    method ReadStatus() returns (status: SaveStatus)
      ensures status == Status(State())
      ensures status == Persisted <==> FlushResult(State()) == Some(None)
    {
      if completed < requested {
        return Pending;
      }
      match error {
        case Some(message) => return Failed(message);
        case None => return Persisted;
      }
    }

    /** One look of a flush: an answer, or `None` to wait on; past its deadline it gives up. Ok after anything was
        submitted means the disk holds the latest. */
    method FlushLook(expired: bool) returns (answer: Option<Option<string>>)
      requires Valid()
      ensures answer == Some(None) && submitted != [] ==> disk == Some(Last(submitted))
      ensures answer == if FlushResult(State()).None? && expired then Some(Some("Configuration save timed out"))
                        else FlushResult(State())
    {
      if completed < requested {
        if expired {
          return Some(Some("Configuration save timed out"));
        }
        return None;
      }
      return Some(error);
    }

    method Close()
      requires Valid()
      modifies this
      ensures Valid() && State() == CloseStep(old(State()))
    {
      StepKeeps(State(), Event.Close, before);
      closed := true;
    }
  }
}
