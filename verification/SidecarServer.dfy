/** The warm sidecar server (src/transcription/sidecar_server.rs): a slot that a request empties, and
    refills only under the epoch it started with, while shutdowns bump the epoch and take the slot. */
module SidecarServer {
  import opened Wrappers

  /** A server process: what it serves, and the epoch it was spawned under. */
  datatype Server = Server(spec: nat, born: nat, alive: bool)

  // ----- Interleavings -----

  /** Where the holder of the request lock stands; `Checked` holds the slot lock. */
  datatype Phase =
    | Locked
    | Taking
    | Holding(current: Option<nat>)
    | Spawning
    | Installing(w: nat)
    | Checked(w: nat)
    | Requesting(w: nat)
    | Failing

  datatype Request = Request(spec: nat, started: nat, retried: bool, phase: Phase)

  /** `installed` records the epoch under which the slot was last filled; `pending` counts shutdowns
      between their bump and their take. */
  datatype State = State(epoch: nat, slot: Option<nat>, installed: nat, pending: nat, servers: seq<Server>,
                         request: Option<Request>)

  const Initial: State := State(0, None, 0, 0, [], None)

  /** How a request to the server ends. */
  datatype Ending = Succeeds | Fails | Disconnects(cancelled: bool)

  datatype Event =
    | Acquire(spec: nat)
    | ReadEpoch
    | TakeOut
    | Reuse
    | Spawn(ok: bool)
    | CheckEpoch
    | Insert
    | End(ending: Ending)
    | Cleanup
    | Bump
    | Take
    | Die(w: nat)

  function InPhase(s: State, phase: Phase): State
    requires s.request.Some?
  {
    s.(request := Some(s.request.value.(phase := phase)))
  }

  function Killed(s: State, w: nat): State {
    if w < |s.servers| then s.(servers := s.servers[w := s.servers[w].(alive := false)]) else s
  }

  function SlotTaken(s: State): State {
    if s.slot.Some? then Killed(s, s.slot.value).(slot := None) else s
  }

  /** The server held by the request itself. */
  function Local(s: State): Option<nat> {
    if s.request.None? then None
    else
      match s.request.value.phase
      case Holding(current) => current
      case Installing(w) => Some(w)
      case Checked(w) => Some(w)
      case _ => None
  }

  predicate Matches(s: State, w: nat)
    requires s.request.Some?
  {
    w < |s.servers| && s.servers[w].spec == s.request.value.spec && s.servers[w].alive
  }

  /** Reuse a matching live server, or kill what was taken and spawn. */
  function ReuseStep(s: State, current: Option<nat>): State
    requires s.request.Some?
  {
    if current.Some? && Matches(s, current.value) then InPhase(s, Installing(current.value))
    else if current.Some? then InPhase(Killed(s, current.value), Spawning)
    else InPhase(s, Spawning)
  }

  /** A failed spawn returns at once. */
  function SpawnStep(s: State, ok: bool): State
    requires s.request.Some?
  {
    if !ok then s.(request := None)
    else
      InPhase(s.(servers := s.servers + [Server(s.request.value.spec, s.request.value.started, true)]), Installing(|s.servers|))
  }

  /** A refused install kills the newcomer and returns at once. */
  function CheckStep(s: State, w: nat): State
    requires s.request.Some?
  {
    if s.epoch == s.request.value.started then InPhase(s, Checked(w)) else Killed(s, w).(request := None)
  }

  function InsertStep(s: State, w: nat): State
    requires s.request.Some?
  {
    InPhase(s.(slot := Some(w), installed := s.request.value.started), Requesting(w))
  }

  /** One respawn after a lost connection, unless a shutdown or cancellation came first. */
  function EndStep(s: State, ending: Ending): State
    requires s.request.Some?
  {
    match ending
    case Succeeds => s.(request := None)
    case Fails => InPhase(s, Failing)
    case Disconnects(cancelled) =>
      if s.request.value.retried then InPhase(s, Failing)
      else if s.epoch != s.request.value.started || cancelled then s.(request := None)
      else
        var s := SlotTaken(s);
        s.(request := Some(s.request.value.(retried := true, phase := Spawning)))
  }

  function HolderStep(s: State, e: Event): State
    requires s.request.Some?
  {
    match (e, s.request.value.phase)
    case (ReadEpoch, Locked) => s.(request := Some(s.request.value.(started := s.epoch, phase := Taking)))
    case (TakeOut, Taking) => InPhase(s.(slot := None), Holding(s.slot))
    case (Reuse, Holding(current)) => ReuseStep(s, current)
    case (Spawn(ok), Spawning) => SpawnStep(s, ok)
    case (CheckEpoch, Installing(w)) => CheckStep(s, w)
    case (Insert, Checked(w)) => InsertStep(s, w)
    case (End(ending), Requesting(_)) => EndStep(s, ending)
    case (Cleanup, Failing) => SlotTaken(s).(request := None)
    case _ => s
  }

  predicate SlotLocked(s: State) {
    s.request.Some? && s.request.value.phase.Checked?
  }

  function Step(s: State, e: Event): State {
    match e
    case Acquire(spec) => if s.request.None? then s.(request := Some(Request(spec, 0, false, Locked))) else s
    case Bump => s.(epoch := s.epoch + 1, pending := s.pending + 1)
    case Take => if s.pending > 0 && !SlotLocked(s) then SlotTaken(s).(pending := s.pending - 1) else s
    case Die(w) => Killed(s, w)
    case _ => if s.request.Some? then HolderStep(s, e) else s
  }

  function Run(s: State, events: seq<Event>): State
    decreases |events|
  {
    if events == [] then s else Run(Step(s, events[0]), events[1..])
  }

  // ----- What every interleaving keeps -----

  /** What is installed under an old epoch is in the slot, or about to enter it, only while some
      shutdown stands between its bump and its take. */
  ghost predicate InstalledIsCurrent(s: State) {
    && s.installed <= s.epoch
    && (s.request.Some? ==> s.request.value.started <= s.epoch)
    && (s.slot.Some? ==> s.slot.value < |s.servers| && (s.installed == s.epoch || s.pending > 0))
    && (s.request.Some? && s.request.value.phase.Checked? ==> s.request.value.started == s.epoch || s.pending > 0)
    && (Local(s).Some? ==> Local(s).value < |s.servers| && s.slot.None?)
    && (s.request.Some? && (s.request.value.phase.Spawning? || s.request.value.phase.Holding?) ==> s.slot.None?)
  }

  /** Every live server is in the slot or held by the request in progress. */
  ghost predicate NoneLeaked(s: State) {
    forall w :: 0 <= w < |s.servers| && s.servers[w].alive ==> s.slot == Some(w) || Local(s) == Some(w)
  }

  ghost predicate Safe(s: State) {
    InstalledIsCurrent(s) && NoneLeaked(s)
  }

  lemma HolderIsSafe(s: State, e: Event)
    requires Safe(s) && s.request.Some?
    ensures Safe(HolderStep(s, e))
  {
  }

  lemma StepIsSafe(s: State, e: Event)
    requires Safe(s)
    ensures Safe(Step(s, e))
  {
    if s.request.Some? {
      HolderIsSafe(s, e);
    }
  }

  /** In every interleaving the slot is refilled only under the current epoch or during a shutdown that
      will still take it, and no live server is lost track of. */
  lemma {:induction false} RunIsSafe(s: State, events: seq<Event>)
    requires Safe(s)
    ensures Safe(Run(s, events))
    decreases |events|
  {
    if events != [] {
      StepIsSafe(s, events[0]);
      RunIsSafe(Step(s, events[0]), events[1..]);
    }
  }

  // ----- A request that is not interrupted -----

  /** The request's own steps up to the check: it takes the slot out and reuses what it finds, or spawns. */
  function Connected(s: State, spec: nat): State {
    var s := Step(Step(Step(Step(s, Acquire(spec)), ReadEpoch), TakeOut), Reuse);
    if s.request.Some? && s.request.value.phase.Spawning? then Step(s, Spawn(true)) else s
  }

  lemma ConnectsTo(s: State, spec: nat)
    requires Safe(s) && s.request.None?
    ensures
      var s', r := Connected(s, spec), Request(spec, s.epoch, false, Taking);
      && s'.epoch == s.epoch && s'.slot.None?
      && if s.slot.Some? && s.servers[s.slot.value].spec == spec && s.servers[s.slot.value].alive then
           s'.request == Some(r.(phase := Installing(s.slot.value))) && s'.servers == s.servers
         else
           && s'.request == Some(r.(phase := Installing(|s.servers|)))
           && |s'.servers| == |s.servers| + 1 && s'.servers[|s.servers|] == Server(spec, s.epoch, true)
           && (s.slot.Some? ==> !s'.servers[s.slot.value].alive)
  {
  }

  lemma ConnectedIsInstalled(s: State, r: Request, w: nat)
    requires s.request == Some(r.(phase := Installing(w))) && r.started == s.epoch
    ensures Step(Step(Step(s, CheckEpoch), Insert), End(Succeeds)) == s.(slot := Some(w), installed := s.epoch, request := None)
  {
  }

  /** A request on a free lock, with no shutdown meanwhile, is served by a live server of its spec, the one in the slot if
      that is one, and leaves it in the slot. */
  lemma RequestIsServed(s: State, spec: nat)
    requires Safe(s) && s.request.None?
    ensures
      var s' := Step(Step(Step(Connected(s, spec), CheckEpoch), Insert), End(Succeeds));
      && s'.request.None? && s'.epoch == s.epoch
      && s'.slot.Some? && s'.slot.value < |s'.servers|
      && s'.servers[s'.slot.value].spec == spec && s'.servers[s'.slot.value].alive
      && (s.slot.Some? && s.servers[s.slot.value].spec == spec && s.servers[s.slot.value].alive ==>
            s'.slot == s.slot && s'.servers == s.servers)
  {
    ConnectsTo(s, spec);
    var r := Request(spec, s.epoch, false, Taking);
    if s.slot.Some? && s.servers[s.slot.value].spec == spec && s.servers[s.slot.value].alive {
      ConnectedIsInstalled(Connected(s, spec), r, s.slot.value);
    } else {
      ConnectedIsInstalled(Connected(s, spec), r, |s.servers|);
    }
  }

  /** A server whose connection is lost is killed and replaced once. */
  lemma LostServerIsReplacedOnce(s: State, w: nat)
    requires Safe(s) && s.request.Some? && s.request.value.phase == Requesting(w) && s.request.value.started == s.epoch
    ensures
      var lost := Step(s, End(Disconnects(false)));
      if s.request.value.retried then lost.request == Some(s.request.value.(phase := Failing))
      else
        var s' := Step(Step(Step(lost, Spawn(true)), CheckEpoch), Insert);
        && s'.request == Some(s.request.value.(retried := true, phase := Requesting(|s.servers|)))
        && s'.slot == Some(|s.servers|) && |s'.servers| == |s.servers| + 1
        && s'.servers[|s.servers|] == Server(s.request.value.spec, s.epoch, true)
        && (s.slot.Some? ==> !s'.servers[s.slot.value].alive)
  {
  }

  /** A request that fails for good leaves the slot empty and no server of its own. */
  lemma FailureEmptiesTheSlot(s: State, w: nat)
    requires Safe(s) && s.request.Some? && s.request.value.phase == Requesting(w)
    ensures
      var s' := Step(Step(s, End(Fails)), Cleanup);
      s'.request.None? && s'.slot.None? && (s.slot.Some? ==> !s'.servers[s.slot.value].alive)
  {
  }

  // ----- Does a shutdown reap every server spawned before it? -----

  /** A server spawned before some completed shutdown is still in the slot. */
  ghost predicate Survivor(s: State) {
    s.pending == 0 && s.slot.Some? && s.slot.value < |s.servers| && s.servers[s.slot.value].born != s.epoch
  }

  /** A request takes out a server that was spawned before the current epoch, which the request has already seen, and
      that it will reuse: a shutdown's own take comes later and finds the slot empty. */
  ghost predicate TakesOldOut(s: State, e: Event) {
    && e.TakeOut? && s.request.Some? && s.request.value.phase.Taking? && s.request.value.started == s.epoch
    && s.slot.Some? && Matches(s, s.slot.value) && s.servers[s.slot.value].born != s.epoch
  }

  ghost predicate NeverTakesOldOut(s: State, events: seq<Event>)
    decreases |events|
  {
    events != [] ==> !TakesOldOut(s, events[0]) && NeverTakesOldOut(Step(s, events[0]), events[1..])
  }

  /** What the request holds was born in the epoch it started in, or will be killed: because it does not match, or
      because the epoch has moved on and it will be refused. */
  ghost predicate HeldIsYoung(s: State) {
    Local(s).Some? && Local(s).value < |s.servers| ==>
      var w, r := Local(s).value, s.request.value;
      || s.servers[w].born == r.started
      || (!r.phase.Checked? && r.started != s.epoch)
      || (r.phase.Holding? && !Matches(s, w))
  }

  /** Birth and install epoch agree in the slot. */
  ghost predicate BornWhenInstalled(s: State) {
    && (s.slot.Some? && s.slot.value < |s.servers| ==> s.servers[s.slot.value].born == s.installed)
    && HeldIsYoung(s)
  }

  lemma BirthIsKept(s: State, e: Event)
    requires Safe(s) && BornWhenInstalled(s) && !TakesOldOut(s, e)
    ensures BornWhenInstalled(Step(s, e))
  {
    if s.request.Some? {
      HolderBirthIsKept(s, e);
    }
  }

  lemma HolderBirthIsKept(s: State, e: Event)
    requires Safe(s) && BornWhenInstalled(s) && !TakesOldOut(s, e) && s.request.Some?
    ensures BornWhenInstalled(HolderStep(s, e))
  {
  }

  lemma {:induction false} NoSurvivor(s: State, events: seq<Event>)
    requires Safe(s) && BornWhenInstalled(s) && NeverTakesOldOut(s, events)
    ensures Safe(Run(s, events)) && BornWhenInstalled(Run(s, events)) && !Survivor(Run(s, events))
    decreases |events|
  {
    if events != [] {
      StepIsSafe(s, events[0]);
      BirthIsKept(s, events[0]);
      NoSurvivor(Step(s, events[0]), events[1..]);
    }
  }

  /** As long as no request takes out an old server that it will reuse, no server survives a completed shutdown. */
  lemma NoSurvivorFromTheStart(events: seq<Event>)
    requires NeverTakesOldOut(Initial, events)
    ensures !Survivor(Run(Initial, events))
  {
    NoSurvivor(Initial, events);
  }

  /** The shutdowns under way take a slot that is empty. */
  lemma {:induction false} ShutdownsFindNothing(s: State) returns (takes: seq<Event>)
    requires s.slot.None? && !SlotLocked(s)
    ensures Run(s, takes) == s.(pending := 0) && NeverTakesOldOut(s, takes)
    decreases s.pending
  {
    if s.pending == 0 {
      takes := [];
    } else {
      var rest := ShutdownsFindNothing(Step(s, Take));
      takes := [Take] + rest;
      assert takes[1..] == rest;
    }
  }

  /** The take-out is all it needs: if the shutdowns under way complete next, the server is put back, alive. */
  lemma TakingOldOutLetsItSurvive(s: State) returns (more: seq<Event>)
    requires Safe(s) && TakesOldOut(s, TakeOut)
    ensures NeverTakesOldOut(Step(s, TakeOut), more)
    ensures
      var s' := Run(Step(s, TakeOut), more);
      Survivor(s') && s'.slot == s.slot && s'.servers == s.servers && s'.servers[s'.slot.value].alive
  {
    var held := Step(s, TakeOut);
    var takes := ShutdownsFindNothing(held);
    var drained := held.(pending := 0);
    var rest := [Reuse, CheckEpoch, Insert];
    more := takes + rest;
    RunAppend(held, takes, rest);
    NeverAppend(held, takes, rest);
    assert rest[1..] == [CheckEpoch, Insert] && rest[1..][1..] == [Insert] && rest[1..][1..][1..] == [];
    var s1 := Step(drained, Reuse);
    var s2 := Step(s1, CheckEpoch);
    assert Run(drained, rest) == Run(s1, [CheckEpoch, Insert]) == Run(s2, [Insert]) == Step(s2, Insert);
  }

  lemma {:induction false} NeverAppend(s: State, a: seq<Event>, b: seq<Event>)
    requires NeverTakesOldOut(s, a) && forall i :: 0 <= i < |b| ==> !b[i].TakeOut?
    ensures NeverTakesOldOut(s, a + b)
    decreases |a| + |b|
  {
    if a != [] {
      assert (a + b)[1..] == a[1..] + b;
      NeverAppend(Step(s, a[0]), a[1..], b);
    } else if b != [] {
      assert a + b == b;
      NeverAppend(Step(s, b[0]), [], b[1..]);
      assert [] + b[1..] == b[1..];
    }
  }

  lemma {:induction false} RunAppend(s: State, a: seq<Event>, b: seq<Event>)
    ensures Run(s, a + b) == Run(Run(s, a), b)
    decreases |a|
  {
    if a == [] {
      assert a + b == b;
    } else {
      assert (a + b)[1..] == a[1..] + b;
      RunAppend(Step(s, a[0]), a[1..], b);
    }
  }

  /** Exactly then: after any run without such a take-out, taking the slot out can lead to a survivor, with no further
      such take-out, if and only if it is one. */
  lemma SurvivesExactlyWhenTakenOut(events: seq<Event>)
    requires NeverTakesOldOut(Initial, events)
    ensures
      var s := Run(Initial, events);
      TakesOldOut(s, TakeOut) <==>
        exists more :: NeverTakesOldOut(Step(s, TakeOut), more) && Survivor(Run(Step(s, TakeOut), more))
  {
    var s := Run(Initial, events);
    NoSurvivor(Initial, events);
    if TakesOldOut(s, TakeOut) {
      var more := TakingOldOutLetsItSurvive(s);
    } else {
      StepIsSafe(s, TakeOut);
      BirthIsKept(s, TakeOut);
      forall more | NeverTakesOldOut(Step(s, TakeOut), more)
        ensures !Survivor(Run(Step(s, TakeOut), more))
      {
        NoSurvivor(Step(s, TakeOut), more);
      }
    }
  }

  /** One more event after a run. */
  lemma Extended(events: seq<Event>, s: State, e: Event) returns (events': seq<Event>, s': State)
    requires s == Run(Initial, events) && NeverTakesOldOut(Initial, events) && !TakesOldOut(s, e)
    ensures events' == events + [e] && s' == Step(s, e) && s' == Run(Initial, events')
    ensures NeverTakesOldOut(Initial, events')
  {
    RunAppend(Initial, events, [e]);
    NeverOneMore(Initial, events, e);
    return events + [e], Step(s, e);
  }

  lemma {:induction false} NeverOneMore(s: State, events: seq<Event>, e: Event)
    requires NeverTakesOldOut(s, events) && !TakesOldOut(Run(s, events), e)
    ensures NeverTakesOldOut(s, events + [e])
    decreases |events|
  {
    if events != [] {
      assert (events + [e])[1..] == events[1..] + [e];
      NeverOneMore(Step(s, events[0]), events[1..], e);
    } else {
      assert (events + [e])[1..] == [];
    }
  }

  lemma ServerIsStarted() returns (events: seq<Event>)
    ensures NeverTakesOldOut(Initial, events)
    ensures Run(Initial, events) == State(0, None, 0, 0, [Server(7, 0, true)], Some(Request(7, 0, false, Installing(0))))
  {
    var s := Initial;
    events := [];
    events, s := Extended(events, s, Acquire(7));
    events, s := Extended(events, s, ReadEpoch);
    events, s := Extended(events, s, TakeOut);
    events, s := Extended(events, s, Reuse);
    events, s := Extended(events, s, Spawn(true));
    assert s.servers == [Server(7, 0, true)];
  }

  lemma ServerIsInstalled() returns (events: seq<Event>)
    ensures NeverTakesOldOut(Initial, events)
    ensures Run(Initial, events) == State(0, Some(0), 0, 0, [Server(7, 0, true)], None)
  {
    events := ServerIsStarted();
    var s := Run(Initial, events);
    events, s := Extended(events, s, CheckEpoch);
    events, s := Extended(events, s, Insert);
    events, s := Extended(events, s, End(Succeeds));
  }

  /** Such a take-out is reachable: one request installs a server, a shutdown bumps the epoch, and a second request reads
      the new epoch before the shutdown takes the slot. */
  lemma OldServerCanBeTakenOut() returns (events: seq<Event>)
    ensures NeverTakesOldOut(Initial, events) && TakesOldOut(Run(Initial, events), TakeOut)
  {
    events := ServerIsInstalled();
    var s := Run(Initial, events);
    events, s := Extended(events, s, Bump);
    events, s := Extended(events, s, Acquire(7));
    events, s := Extended(events, s, ReadEpoch);
  }

  // ----- The object -----

  /** The static slot, the epoch, the server processes, and the request that holds the request lock. */
  class Slot {
    var running: Option<nat>
    var epoch: nat
    var servers: seq<Server>
    var request: Option<Request>
    ghost var installed: nat
    ghost var pending: nat

    ghost function Value(): State
      reads this
    {
      State(epoch, running, installed, pending, servers, request)
    }

    ghost predicate Valid()
      reads this
    {
      Safe(Value())
    }

    constructor ()
      ensures Valid() && Value() == Initial
    {
      running, epoch, servers, request := None, 0, [], None;
      installed, pending := 0, 0;
    }

    method TakeRunning() returns (taken: Option<nat>)
      modifies this`running
      ensures taken == old(running) && running == None
    {
      taken := running;
      running := None;
    }

    method Kill(w: nat)
      modifies this`servers
      ensures Value() == Killed(old(Value()), w)
    {
      if w < |servers| {
        servers := servers[w := servers[w].(alive := false)];
      }
    }

    /** The request lock is taken, then the epoch is read. */
    method BeginRequest(spec: nat)
      requires Valid() && request.None?
      modifies this`request
      ensures Valid() && Value() == Step(Step(old(Value()), Acquire(spec)), ReadEpoch)
    {
      request := Some(Request(spec, epoch, false, Taking));
      StepIsSafe(old(Value()), Acquire(spec));
      StepIsSafe(Step(old(Value()), Acquire(spec)), ReadEpoch);
    }

    method TakeOutRunning()
      requires Valid() && request.Some? && request.value.phase.Taking?
      modifies this`running, this`request
      ensures Valid() && Value() == Step(old(Value()), TakeOut)
    {
      var current := TakeRunning();
      request := Some(request.value.(phase := Holding(current)));
      StepIsSafe(old(Value()), TakeOut);
    }

    /** Reuse what was taken out if it matches and lives; kill it otherwise. */
    method ReuseOrKill()
      requires Valid() && request.Some? && request.value.phase.Holding?
      modifies this`servers, this`request
      ensures Valid() && Value() == Step(old(Value()), Reuse)
    {
      var current := request.value.phase.current;
      StepIsSafe(Value(), Reuse);
      if current.Some? {
        var w := current.value;
        if w < |servers| && servers[w].spec == request.value.spec && servers[w].alive {
          request := Some(request.value.(phase := Installing(w)));
          return;
        }
        Kill(w);
      }
      request := Some(request.value.(phase := Spawning));
    }

    /** Install what the request holds unless a shutdown happened since it started; kill it then. */
    method InstallRunning() returns (installedIt: bool)
      requires Valid() && request.Some? && request.value.phase.Installing?
      modifies this
      ensures Valid() && Value() == Step(Step(old(Value()), CheckEpoch), Insert)
      ensures installedIt <==> epoch == old(request.value.started)
      ensures installedIt ==> running == Some(old(request.value.phase.w)) && servers == old(servers)
      ensures !installedIt ==> running == old(running) && request == None
    {
      var w := request.value.phase.w;
      StepIsSafe(Value(), CheckEpoch);
      StepIsSafe(Step(Value(), CheckEpoch), Insert);
      if epoch != request.value.started {
        Kill(w);
        request := None;
        return false;
      }
      running, installed := Some(w), epoch;
      request := Some(request.value.(phase := Requesting(w)));
      return true;
    }

    /** Bump, then take. */
    method ShutdownAll()
      requires Valid() && !SlotLocked(Value())
      modifies this
      ensures Valid() && Value() == Step(Step(old(Value()), Bump), Take)
      ensures epoch == old(epoch) + 1 && running == None
    {
      StepIsSafe(Value(), Bump);
      StepIsSafe(Step(Value(), Bump), Take);
      epoch := epoch + 1;
      var taken := TakeRunning();
      if taken.Some? {
        Kill(taken.value);
      }
    }
  }
}
