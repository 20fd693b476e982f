/** Typing the paste shortcut (src/portal/paste.rs): whatever is acknowledged and whenever the request dies, the keys
    typed for one request are one chord, pressed in order and released in reverse, by one of its clones only. */
module KeyChords {
  import opened Sequences

  const KEY_LEFTCTRL := 29
  const KEY_LEFTSHIFT := 42
  const KEY_V := 47

  datatype Shortcut = CtrlV | CtrlShiftV

  datatype KeyEvent = KeyEvent(key: int, pressed: bool)

  datatype InjectionResult = Sent | Cancelled | Failed

  function ShortcutKeys(shortcut: Shortcut): seq<int> {
    match shortcut
    case CtrlV => [KEY_LEFTCTRL, KEY_V]
    case CtrlShiftV => [KEY_LEFTCTRL, KEY_LEFTSHIFT, KEY_V]
  }

  // ----- Chords -----

  function Presses(keys: seq<int>): seq<KeyEvent> {
    if keys == [] then [] else Presses(Init(keys)) + [KeyEvent(Last(keys), true)]
  }

  /** The keys released last to first. */
  function Releases(keys: seq<int>): seq<KeyEvent> {
    if keys == [] then [] else [KeyEvent(Last(keys), false)] + Releases(Init(keys))
  }

  /** The first `n` keys pressed in order and exactly those released in reverse. */
  function Chord(keys: seq<int>, n: nat): seq<KeyEvent>
    requires n <= |keys|
  {
    Presses(keys[..n]) + Releases(keys[..n])
  }

  /** The keys down after some events. */
  function Held(events: seq<KeyEvent>): set<int> {
    if events == [] then {}
    else
      var before, e := Held(Init(events)), Last(events);
      if e.pressed then before + {e.key} else before - {e.key}
  }

  lemma {:induction false} HeldAfterPresses(keys: seq<int>, key: int)
    ensures key in Held(Presses(keys)) <==> key in keys
  {
    if keys != [] {
      var init, last := Init(keys), Last(keys);
      HeldAfterPresses(init, key);
      assert Init(Presses(keys)) == Presses(init);
      assert keys == init + [last];
    }
  }

  lemma HeldAfterRelease(before: seq<KeyEvent>, key: int)
    ensures Held(before + [KeyEvent(key, false)]) == Held(before) - {key}
  {
    assert Init(before + [KeyEvent(key, false)]) == before;
  }

  lemma ReleasesFromTheLast(before: seq<KeyEvent>, keys: seq<int>)
    requires keys != []
    ensures before + Releases(keys)
         == (before + [KeyEvent(Last(keys), false)]) + Releases(Init(keys))
  {
  }

  lemma {:induction false} HeldAfterReleases(before: seq<KeyEvent>, keys: seq<int>, key: int)
    ensures key in Held(before + Releases(keys)) <==> key in Held(before) && key !in keys
    decreases |keys|
  {
    if keys == [] {
      assert before + Releases(keys) == before;
    } else {
      var init, last := Init(keys), Last(keys);
      HeldAfterRelease(before, last);
      ReleasesFromTheLast(before, keys);
      HeldAfterReleases(before + [KeyEvent(last, false)], init, key);
      assert key in keys <==> key in init || key == last;
    }
  }

  /** A chord leaves no key down. */
  lemma NoKeyIsLeftHeld(keys: seq<int>, n: nat)
    requires n <= |keys|
    ensures Held(Chord(keys, n)) == {}
  {
    forall key
      ensures key !in Held(Chord(keys, n))
    {
      HeldAfterPresses(keys[..n], key);
      HeldAfterReleases(Presses(keys[..n]), keys[..n], key);
    }
  }

  // ----- The clones of one request, interleaved -----

  /** One sender: `n` keys attempted, of which `down` are still to be released. */
  datatype Sender =
    | Idle
    | Lost
    | Pressing(n: nat)
    | Releasing(n: nat, down: nat, result: InjectionResult)
    | Finished(n: nat, result: InjectionResult)

  /** What the clones share, every sender, all events typed so far and whether all were acknowledged. */
  datatype Senders = Senders(started: bool, clones: seq<Sender>, typed: seq<KeyEvent>, acknowledged: bool)

  /** A clone takes its next step: `current` is what its look at the request finds, `ack` how the key event it sends,
      if any, is answered. */
  datatype Turn = Turn(clone: nat, current: bool, ack: bool)

  function Fresh(clones: nat): Senders {
    Senders(false, seq(clones, _ => Idle), [], true)
  }

  function Typed(s: Senders, e: KeyEvent, ack: bool): Senders {
    s.(typed := s.typed + [e], acknowledged := s.acknowledged && ack)
  }

  function Placed(s: Senders, i: nat, sender: Sender): Senders
    requires i < |s.clones|
  {
    s.(clones := s.clones[i := sender])
  }

  function Step(s: Senders, keys: seq<int>, t: Turn): Senders {
    if t.clone >= |s.clones| then s
    else
      match s.clones[t.clone]
      case Idle =>
        if t.current && !s.started then Placed(s.(started := true), t.clone, Pressing(0)) else Placed(s, t.clone, Lost)
      case Pressing(n) =>
        if n >= |keys| then Placed(s, t.clone, Releasing(n, n, Sent))
        else if !t.current then Placed(s, t.clone, Releasing(n, n, Cancelled))
        else
          Placed(Typed(s, KeyEvent(keys[n], true), t.ack), t.clone,
                 if t.ack then Pressing(n + 1) else Releasing(n + 1, n + 1, Failed))
      case Releasing(n, down, result) =>
        if down == 0 || down > |keys| then Placed(s, t.clone, Finished(n, result))
        else
          Placed(Typed(s, KeyEvent(keys[down - 1], false), t.ack), t.clone,
                 Releasing(n, down - 1, if t.ack then result else Failed))
      case _ => s
  }

  function Run(s: Senders, keys: seq<int>, turns: seq<Turn>): Senders
    decreases |turns|
  {
    if turns == [] then s else Run(Step(s, keys, turns[0]), keys, turns[1..])
  }

  predicate Owns(sender: Sender) {
    sender.Pressing? || sender.Releasing? || sender.Finished?
  }

  predicate IsVerdict(result: InjectionResult, n: nat, keys: seq<int>, acknowledged: bool) {
    && (result == Sent <==> n == |keys| && acknowledged)
    && (result == Failed <==> !acknowledged)
  }

  /** Everything typed so far is this sender's, and is its chord up to where it stands. */
  predicate Follows(s: Senders, keys: seq<int>, sender: Sender) {
    match sender
    case Pressing(n) => n <= |keys| && s.typed == Presses(keys[..n]) && s.acknowledged
    case Releasing(n, down, result) =>
      && down <= n <= |keys|
      && s.typed + Releases(keys[..down]) == Chord(keys, n)
      && IsVerdict(result, n, keys, s.acknowledged)
    case Finished(n, result) =>
      n <= |keys| && s.typed == Chord(keys, n) && IsVerdict(result, n, keys, s.acknowledged)
    case _ => false
  }

  ghost predicate Won(s: Senders, keys: seq<int>, w: nat) {
    && w < |s.clones|
    && Follows(s, keys, s.clones[w])
    && forall i :: 0 <= i < |s.clones| && i != w ==> !Owns(s.clones[i])
  }

  ghost predicate Good(s: Senders, keys: seq<int>) {
    if s.started then
      exists w: nat :: Won(s, keys, w)
    else
      && s.typed == [] && s.acknowledged
      && forall i :: 0 <= i < |s.clones| ==> !Owns(s.clones[i])
  }

  lemma OnePressMore(keys: seq<int>, n: nat)
    requires n < |keys|
    ensures Presses(keys[..n + 1]) == Presses(keys[..n]) + [KeyEvent(keys[n], true)]
  {
    assert keys[..n + 1][..n] == keys[..n];
  }

  lemma OneReleaseFirst(keys: seq<int>, down: nat)
    requires 0 < down <= |keys|
    ensures Releases(keys[..down]) == [KeyEvent(keys[down - 1], false)] + Releases(keys[..down - 1])
  {
    assert keys[..down][..down - 1] == keys[..down - 1];
  }

  lemma PressStep(s: Senders, keys: seq<int>, t: Turn)
    requires Won(s, keys, t.clone) && s.clones[t.clone].Pressing?
    ensures Won(Step(s, keys, t), keys, t.clone)
  {
    var n := s.clones[t.clone].n;
    if n < |keys| {
      OnePressMore(keys, n);
    }
  }

  lemma ReleaseStep(s: Senders, keys: seq<int>, t: Turn)
    requires Won(s, keys, t.clone) && s.clones[t.clone].Releasing?
    ensures Won(Step(s, keys, t), keys, t.clone)
  {
    var down := s.clones[t.clone].down;
    if down > 0 {
      OneReleaseFirst(keys, down);
      var e := KeyEvent(keys[down - 1], false);
      assert s.typed + [e] + Releases(keys[..down - 1]) == s.typed + ([e] + Releases(keys[..down - 1]));
    }
  }

  lemma WinnerStep(s: Senders, keys: seq<int>, t: Turn)
    requires Won(s, keys, t.clone)
    ensures Won(Step(s, keys, t), keys, t.clone)
  {
    match s.clones[t.clone] {
      case Pressing(_) => PressStep(s, keys, t);
      case Releasing(_, _, _) => ReleaseStep(s, keys, t);
      case _ =>
    }
  }

  lemma StepKeeps(s: Senders, keys: seq<int>, t: Turn)
    requires Good(s, keys)
    ensures Good(Step(s, keys, t), keys)
  {
    if s.started {
      var w: nat :| Won(s, keys, w);
      if t.clone == w {
        WinnerStep(s, keys, t);
      } else {
        assert Won(Step(s, keys, t), keys, w);
      }
    } else if t.clone < |s.clones| && s.clones[t.clone].Idle? && t.current {
      assert Won(Step(s, keys, t), keys, t.clone);
    }
  }

  lemma {:induction false} RunKeeps(s: Senders, keys: seq<int>, turns: seq<Turn>)
    requires Good(s, keys)
    ensures Good(Run(s, keys, turns), keys)
    decreases |turns|
  {
    if turns != [] {
      StepKeeps(s, keys, turns[0]);
      RunKeeps(Step(s, keys, turns[0]), keys, turns[1..]);
    }
  }

  /** However the clones of a request interleave, what they typed together is the beginning of one chord. */
  lemma ClonesTypeOneChord(clones: nat, keys: seq<int>, turns: seq<Turn>) returns (n: nat)
    ensures n <= |keys| && Run(Fresh(clones), keys, turns).typed <= Chord(keys, n)
  {
    var s := Run(Fresh(clones), keys, turns);
    RunKeeps(Fresh(clones), keys, turns);
    n := 0;
    if s.started {
      var w: nat :| Won(s, keys, w);
      n := s.clones[w].n;
    }
  }

  /** When some clone has finished, the whole chord was typed, no key is down and no other clone typed anything; it
      reports Sent exactly when every key was pressed and every event acknowledged. */
  lemma FinishedMeansReleased(clones: nat, keys: seq<int>, turns: seq<Turn>, i: nat)
    requires i < |Run(Fresh(clones), keys, turns).clones|
    requires Run(Fresh(clones), keys, turns).clones[i].Finished?
    ensures
      var s := Run(Fresh(clones), keys, turns);
      var done := s.clones[i];
      && done.n <= |keys| && s.typed == Chord(keys, done.n) && Held(s.typed) == {}
      && (done.result == Sent <==> done.n == |keys| && s.acknowledged)
      && forall j :: 0 <= j < |s.clones| && j != i ==> !Owns(s.clones[j])
  {
    var s := Run(Fresh(clones), keys, turns);
    RunKeeps(Fresh(clones), keys, turns);
    var w: nat :| Won(s, keys, w);
    assert w == i;
    NoKeyIsLeftHeld(keys, s.clones[i].n);
  }

  /** Turns left to a sender before it is done. */
  function TurnsLeft(sender: Sender, keys: seq<int>): nat {
    match sender
    case Pressing(n) => if n < |keys| then 2 * (|keys| - n) + n + 2 else n + 2
    case Releasing(_, down, _) => down + 1
    case _ => 0
  }

  /** A sender that began always gets to its releases, whether or not the request dies or keys fail on the way. */
  lemma {:induction false} BegunIsFinished(s: Senders, keys: seq<int>, w: nat, turns: seq<Turn>)
    requires Won(s, keys, w) && forall k :: 0 <= k < |turns| ==> turns[k].clone == w
    requires |turns| >= TurnsLeft(s.clones[w], keys)
    ensures |Run(s, keys, turns).clones| == |s.clones| && Run(s, keys, turns).clones[w].Finished?
    decreases |turns|
  {
    if turns != [] {
      WinnerStep(s, keys, turns[0]);
      BegunIsFinished(Step(s, keys, turns[0]), keys, w, turns[1..]);
    }
  }

  /** Turns of one clone in which the request lives and every key is acknowledged. */
  ghost predicate Unhindered(turns: seq<Turn>, w: nat) {
    forall k :: 0 <= k < |turns| ==> turns[k] == Turn(w, true, true)
  }

  predicate OnItsWay(sender: Sender, keys: seq<int>) {
    || (sender.Pressing? && sender.n <= |keys|)
    || (sender.Releasing? && sender.n == |keys| && sender.down <= |keys| && sender.result == Sent)
    || sender == Finished(|keys|, Sent)
  }

  lemma {:induction false} OnItsWayArrives(s: Senders, keys: seq<int>, w: nat, turns: seq<Turn>)
    requires Won(s, keys, w) && OnItsWay(s.clones[w], keys) && Unhindered(turns, w)
    requires |turns| >= TurnsLeft(s.clones[w], keys)
    ensures var s' := Run(s, keys, turns); Won(s', keys, w) && s'.clones[w] == Finished(|keys|, Sent)
    decreases |turns|
  {
    if turns != [] {
      WinnerStep(s, keys, turns[0]);
      OnItsWayArrives(Step(s, keys, turns[0]), keys, w, turns[1..]);
    }
  }

  /** The first clone of a live request sends the whole chord, if its keys are acknowledged. */
  lemma FirstCloneSends(s: Senders, keys: seq<int>, w: nat, turns: seq<Turn>)
    requires Good(s, keys) && !s.started && w < |s.clones| && s.clones[w].Idle?
    requires Unhindered(turns, w) && |turns| >= 3 * |keys| + 3
    ensures
      var s' := Run(s, keys, turns);
      |s'.clones| == |s.clones| && s'.clones[w] == Finished(|keys|, Sent) && s'.typed == Chord(keys, |keys|)
  {
    StepKeeps(s, keys, turns[0]);
    OnItsWayArrives(Step(s, keys, turns[0]), keys, w, turns[1..]);
    RunKeepsClones(s, keys, turns);
  }

  lemma {:induction false} RunKeepsClones(s: Senders, keys: seq<int>, turns: seq<Turn>)
    ensures |Run(s, keys, turns).clones| == |s.clones|
    decreases |turns|
  {
    if turns != [] {
      RunKeepsClones(Step(s, keys, turns[0]), keys, turns[1..]);
    }
  }
}
