/** Delivering a transcript (src/portal/paste.rs, src/application.rs): portal delivery, portal injection and the
    ydotool fallback share one request, and together they type at most one chord for it. */
module Delivery {
  import opened KeyChords
  import opened Sequences

  datatype DeliveryOutcome = ShortcutSent | ClipboardOnly | Unavailable | Cancelled

  /** The request shared by the UI, the actor and the fallback. Another party may cancel it, and its deadline may pass,
      at any moment: `lifetime` is the number of looks that still find it alive. */
  class DeliveryRequest {
    const lifetime: nat
    var looks: nat
    var cancelled: bool
    var started: bool
    /** Every key event sent on the request's behalf. */
    var typed: seq<KeyEvent>
    /** What a paste would have inserted when the first key was sent. */
    ghost var pasting: string

    ghost predicate Valid()
      reads this
    {
      if started then IsChord(typed) else typed == []
    }

    /** No later look finds the request alive. */
    predicate Dead()
      reads this
    {
      cancelled || looks >= lifetime
    }

    /** The next `n` looks still find the request alive. */
    predicate Lasts(n: nat)
      reads this
    {
      !cancelled && looks + n <= lifetime
    }

    constructor (lifetime: nat)
      ensures Valid() && !started && !cancelled && looks == 0 && this.lifetime == lifetime
    {
      this.lifetime := lifetime;
      looks, cancelled, started, typed, pasting := 0, false, false, [], "";
    }

    method Cancel()
      modifies this`cancelled
      ensures cancelled
    {
      cancelled := true;
    }

    method IsCurrent() returns (current: bool)
      modifies this`looks
      ensures current <==> !old(Dead())
      ensures old(Dead()) ==> Dead()
      ensures looks == old(looks) + 1
    {
      current := !cancelled && looks < lifetime;
      looks := looks + 1;
    }

    /** Only one caller over the request's life is let through; `serving` is what a paste would insert now. */
    method BeginInjection(ghost serving: string) returns (begun: bool)
      modifies this`looks, this`started, this`pasting
      ensures begun <==> !old(Dead()) && !old(started)
      ensures pasting == if begun then serving else old(pasting)
      ensures started <==> old(started) || begun
      ensures old(Dead()) ==> Dead()
      ensures looks == old(looks) + 1
    {
      begun := false;
      var current := IsCurrent();
      if current && !started {
        started := true;
        begun := true;
        pasting := serving;
      }
    }
  }

  /** What was typed is one chord of some shortcut, cut at some key. */
  ghost predicate IsChord(typed: seq<KeyEvent>) {
    exists shortcut, n: nat :: IsChordOf(typed, shortcut, n)
  }

  ghost predicate IsChordOf(typed: seq<KeyEvent>, shortcut: Shortcut, n: nat) {
    n <= |ShortcutKeys(shortcut)| && typed == Chord(ShortcutKeys(shortcut), n)
  }

  /** The first `events` key events were all acknowledged. */
  predicate AllAcknowledged(ack: nat -> bool, events: nat)
    decreases events
  {
    events == 0 || (ack(events - 1) && AllAcknowledged(ack, events - 1))
  }

  ghost predicate AcknowledgesAll(ack: nat -> bool) {
    forall k :: ack(k)
  }

  lemma {:induction false} AllAreAcknowledged(ack: nat -> bool, n: nat)
    requires AcknowledgesAll(ack)
    ensures AllAcknowledged(ack, n)
    decreases n
  {
    if n > 0 {
      AllAreAcknowledged(ack, n - 1);
    }
  }

  lemma {:induction false} EarlierEventsToo(ack: nat -> bool, n: nat, events: nat)
    requires n <= events && AllAcknowledged(ack, events)
    ensures AllAcknowledged(ack, n)
    decreases events
  {
    if n < events {
      EarlierEventsToo(ack, n, events - 1);
    }
  }

  lemma PressedOneMore(pressed: seq<int>, key: int)
    ensures Presses(pressed + [key]) == Presses(pressed) + [KeyEvent(key, true)]
  {
    OnePressMore(pressed + [key], |pressed|);
    assert Init(pressed + [key]) == pressed;
  }

  lemma OneKeyMore(keys: seq<int>, i: nat)
    requires i < |keys|
    ensures keys[..i + 1] == keys[..i] + [keys[i]]
  {
  }

  lemma {:induction false} ChordLength(keys: seq<int>)
    ensures |Presses(keys)| == |keys| && |Releases(keys)| == |keys|
  {
    if keys != [] {
      ChordLength(Init(keys));
    }
  }

  /** Press the keys in order until one fails or the request is found dead. */
  method PressKeys(keys: seq<int>, request: DeliveryRequest, ack: nat -> bool)
    returns (result: InjectionResult, pressed: seq<int>)
    requires request.typed == []
    modifies request`looks, request`typed
    ensures |pressed| <= |keys| && pressed == keys[..|pressed|]
    ensures request.typed == Presses(pressed)
    ensures old(request.Dead()) ==> request.Dead()
    ensures |pressed| < |keys| ==> request.Dead() || (pressed != [] && !ack(|pressed| - 1))
    ensures |pressed| < |keys| ==> !old(request.Lasts(|keys|)) || (pressed != [] && !ack(|pressed| - 1))
    ensures result == Sent <==> |pressed| == |keys| && AllAcknowledged(ack, |pressed|)
    ensures result == Failed <==> !AllAcknowledged(ack, |pressed|)
  {
    pressed := [];
    for i := 0 to |keys|
      invariant |pressed| == i && pressed == keys[..i] && request.typed == Presses(pressed)
      invariant AllAcknowledged(ack, i)
      invariant old(request.Dead()) ==> request.Dead()
      invariant request.looks == old(request.looks) + i
    {
      var current := request.IsCurrent();
      if !current {
        return InjectionResult.Cancelled, pressed;
      }
      PressedOneMore(pressed, keys[i]);
      OneKeyMore(keys, i);
      pressed := pressed + [keys[i]];
      request.typed := request.typed + [KeyEvent(keys[i], true)];
      if !ack(i) {
        return Failed, pressed;
      }
    }
    result := Sent;
  }

  /** Release every attempted key, last first, whatever fails. */
  method ReleaseKeys(pressed: seq<int>, request: DeliveryRequest, ack: nat -> bool, before: InjectionResult)
    returns (result: InjectionResult)
    requires request.typed == Presses(pressed)
    requires before == Failed <==> !AllAcknowledged(ack, |pressed|)
    modifies request`typed
    ensures request.typed == Presses(pressed) + Releases(pressed)
    ensures result == if AllAcknowledged(ack, |request.typed|) then before else Failed
  {
    result := before;
    var down := |pressed|;
    ChordLength(pressed);
    assert pressed[..down] == pressed;
    while down > 0
      invariant down <= |pressed| && |request.typed| == 2 * |pressed| - down
      invariant request.typed + Releases(pressed[..down]) == Presses(pressed) + Releases(pressed)
      invariant result == if AllAcknowledged(ack, |request.typed|) then before else Failed
    {
      var event := KeyEvent(pressed[down - 1], false);
      OneReleaseFirst(pressed, down);
      assert request.typed + [event] + Releases(pressed[..down - 1])
          == request.typed + ([event] + Releases(pressed[..down - 1]));
      if !ack(|request.typed|) {
        result := Failed;
      }
      request.typed := request.typed + [event];
      down := down - 1;
    }
    assert request.typed == request.typed + Releases(pressed[..0]);
  }

  /** The whole chord of `shortcut` was typed and every event acknowledged. */
  ghost predicate FullySent(typed: seq<KeyEvent>, shortcut: Shortcut, ack: nat -> bool) {
    var n := |ShortcutKeys(shortcut)|;
    IsChordOf(typed, shortcut, n) && AllAcknowledged(ack, 2 * n)
  }

  /** Type the chord; `ack(k)` is how the `k`th event sent is answered. `n` counts the keys attempted. */
  method SendChord(shortcut: Shortcut, request: DeliveryRequest, ack: nat -> bool, ghost serving: string)
    returns (result: InjectionResult, ghost n: nat)
    requires request.Valid()
    modifies request
    ensures request.Valid()
    ensures old(request.Dead()) ==> request.Dead()
    ensures old(request.started) || old(request.Dead()) ==>
              result == InjectionResult.Cancelled && request.typed == old(request.typed)
              && request.started == old(request.started) && request.pasting == old(request.pasting)
    ensures !old(request.started) && !old(request.Dead()) ==>
              && request.started && n <= |ShortcutKeys(shortcut)| && request.pasting == serving
              && request.typed == Chord(ShortcutKeys(shortcut), n)
              && (n < |ShortcutKeys(shortcut)| ==> request.Dead() || (n > 0 && !ack(n - 1)))
              && (result == Sent <==> FullySent(request.typed, shortcut, ack))
              && (result == Failed <==> !AllAcknowledged(ack, 2 * n))
    ensures !old(request.started) && old(request.Lasts(4)) && AcknowledgesAll(ack) ==> result == Sent
  {
    n := 0;
    var begun := request.BeginInjection(serving);
    if !begun {
      return InjectionResult.Cancelled, 0;
    }
    var keys, pressed := ShortcutKeys(shortcut), [];
    result, pressed := PressKeys(keys, request, ack);
    result := ReleaseKeys(pressed, request, ack, result);
    n := |pressed|;
    ChordLength(pressed);
    ChordLength(keys);
    assert keys[..|keys|] == keys;
    assert IsChordOf(request.typed, shortcut, n);
    if AllAcknowledged(ack, 2 * n) {
      EarlierEventsToo(ack, n, 2 * n);
    }
    if AcknowledgesAll(ack) {
      AllAreAcknowledged(ack, 2 * n);
    }
  }

  // ----- The portal actor -----

  datatype SessionAnswer = Ready(clipboardEnabled: bool) | NoGrant | SessionFailed | SessionTimedOut

  datatype SelectionAnswer = Owned | SelectionFailed | SelectionTimedOut

  /** How the desktop answers one attempt at a delivery. */
  datatype Answers = Answers(replyClosed: bool, session: SessionAnswer, selection: SelectionAnswer)

  function ChordOutcome(result: InjectionResult): DeliveryOutcome {
    match result
    case Sent => ShortcutSent
    case Cancelled => DeliveryOutcome.Cancelled
    case Failed => ClipboardOnly
  }

  /** An attempt in which the desktop gives the session and the selection. */
  predicate IsGrant(a: Answers) {
    !a.replyClosed && a.session == Ready(true) && a.selection == Owned
  }

  /** The first attempt is granted, or it finds a stale session and the second is granted. */
  predicate Grants(answers: nat -> Answers) {
    || IsGrant(answers(0))
    || (!answers(0).replyClosed && answers(0).session == Ready(true) && answers(0).selection == SelectionFailed
        && IsGrant(answers(1)))
  }

  /** The desktop gives no session with a clipboard. */
  predicate Refuses(a: Answers) {
    !a.replyClosed && !a.session.SessionTimedOut? && a.session != Ready(true)
  }

  /** The desktop gives the session, and never answers about the selection. */
  predicate HangsOnSelection(a: Answers) {
    !a.replyClosed && a.session == Ready(true) && a.selection == SelectionTimedOut
  }

  class PasteActor {
    /** What the portal serves to the application that reads the selection. */
    var current: string

    constructor ()
      ensures current == ""
    {
      current := "";
    }

    /** `DeliveryRequest::session`: a dead request opens nothing, and running out of time cancels it. */
    method Session(request: DeliveryRequest, answer: SessionAnswer) returns (live: SessionAnswer)
      modifies request`looks, request`cancelled
      ensures live.Ready? || live.SessionFailed? ==> live == answer
      ensures old(request.Dead()) ==> request.Dead()
      ensures old(request.Dead()) ==> live == NoGrant
      ensures request.looks == old(request.looks) + 1
      ensures !old(request.Dead()) && !answer.SessionTimedOut? ==> live == answer && request.cancelled == old(request.cancelled)
      ensures !old(request.Dead()) && answer.SessionTimedOut? ==> live == NoGrant && request.cancelled
    {
      var alive := request.IsCurrent();
      if !alive {
        return NoGrant;
      }
      if answer.SessionTimedOut? {
        request.Cancel();
        return NoGrant;
      }
      return answer;
    }

    /** Own the selection with `text` and type the shortcut. A stale session is recreated once, before any input. */
    method Deliver(text: string, shortcut: Shortcut, request: DeliveryRequest, answers: nat -> Answers,
        ack: nat -> bool) returns (outcome: DeliveryOutcome)
      requires request.Valid()
      modifies this, request
      ensures request.Valid()
      ensures old(request.Dead()) ==> request.Dead()
      ensures outcome == ShortcutSent <==>
                !old(request.started) && request.started && FullySent(request.typed, shortcut, ack)
      ensures outcome == ShortcutSent || outcome == ClipboardOnly ==> current == text
      ensures outcome == Unavailable || outcome == DeliveryOutcome.Cancelled ==>
                current == old(current) && request.typed == old(request.typed)
                && request.started == old(request.started)
      ensures old(request.started) ==> request.typed == old(request.typed)
      ensures request.pasting == if !old(request.started) && request.started then text else old(request.pasting)
      ensures outcome == Unavailable ==> !old(request.Dead())
      ensures !old(request.started) && old(request.Lasts(10)) && Grants(answers) && AcknowledgesAll(ack) ==>
                outcome == ShortcutSent
      ensures old(request.Lasts(10)) && Refuses(answers(0)) ==> outcome == Unavailable
      ensures old(request.Lasts(10)) && HangsOnSelection(answers(0)) ==>
                outcome == DeliveryOutcome.Cancelled && request.Dead()
    {
      outcome := Unavailable;
      for k := 0 to 2
        invariant k > 0 && old(request.Lasts(10)) ==> !Refuses(answers(0)) && !HangsOnSelection(answers(0))
        invariant request.looks == old(request.looks) + 3 * k
        invariant request.cancelled == old(request.cancelled)
        invariant k > 0 && Grants(answers) && old(request.Lasts(10)) ==> k == 1 && !IsGrant(answers(0))
        invariant request.Valid() && outcome == Unavailable && current == old(current)
        invariant request.typed == old(request.typed) && request.started == old(request.started)
        invariant request.pasting == old(request.pasting)
        invariant old(request.Dead()) ==> request.Dead()
        invariant k > 0 ==> !old(request.Dead())
      {
        var alive := request.IsCurrent();
        if !alive || answers(k).replyClosed {
          outcome := DeliveryOutcome.Cancelled;
          break;
        }
        var live := Session(request, answers(k).session);
        if live.SessionFailed? {
          break;
        }
        alive := false;
        if live.Ready? {
          alive := request.IsCurrent();
        }
        if !alive || !live.clipboardEnabled {
          break;
        }
        match answers(k).selection {
          case Owned =>
            current := text;
            var result, n := SendChord(shortcut, request, ack, current);
            outcome := if result == Sent then ShortcutSent else ClipboardOnly;
            break;
          case SelectionFailed =>
          case SelectionTimedOut =>
            request.Cancel();
            outcome := DeliveryOutcome.Cancelled;
            break;
        }
      }
      if outcome == Unavailable {
        var alive := request.IsCurrent();
        if !alive {
          outcome := DeliveryOutcome.Cancelled;
        }
      }
    }

    /** Type the shortcut; whoever owns the clipboard serves the text. */
    method Inject(shortcut: Shortcut, request: DeliveryRequest, answer: SessionAnswer, ack: nat -> bool,
        ghost serving: string) returns (outcome: DeliveryOutcome)
      requires request.Valid()
      modifies request
      ensures request.Valid()
      ensures request.pasting == if !old(request.started) && request.started then serving else old(request.pasting)
      ensures old(request.started) ==> request.started
      ensures old(request.Dead()) ==> request.Dead()
      ensures outcome == ShortcutSent <==>
                !old(request.started) && request.started && FullySent(request.typed, shortcut, ack)
      ensures outcome == Unavailable ==> request.typed == old(request.typed) && request.started == old(request.started)
      ensures old(request.started) || old(request.Dead()) ==>
                request.typed == old(request.typed) && request.started == old(request.started)
      ensures !old(request.started) && old(request.Lasts(6)) && answer.Ready? && AcknowledgesAll(ack) ==>
                outcome == ShortcutSent
      ensures old(request.Lasts(3)) && !answer.Ready? && !answer.SessionTimedOut? ==>
                outcome == Unavailable && request.cancelled == old(request.cancelled)
                && request.looks <= old(request.looks) + 2
    {
      var live := Session(request, answer);
      var alive := false;
      if live.Ready? {
        alive := request.IsCurrent();
      }
      if alive {
        var result, n := SendChord(shortcut, request, ack, serving);
        return ChordOutcome(result);
      }
      if live.SessionFailed? {
        return Unavailable;
      }
      alive := request.IsCurrent();
      return if alive then Unavailable else DeliveryOutcome.Cancelled;
    }

    /** Inject through the portal, and only if that typed nothing fall back to ydotool. The command may not reach the
        actor, its reply may be lost after keys were sent, and the fallback's thread may die. */
    method TryAutopaste(shortcut: Shortcut, request: DeliveryRequest, env: Fallback, ghost serving: string)
      returns (outcome: DeliveryOutcome)
      requires request.Valid()
      modifies request
      ensures request.Valid()
      ensures request.pasting == if !old(request.started) && request.started then serving else old(request.pasting)
      ensures old(request.Dead()) ==> request.Dead()
      ensures old(request.started) || old(request.Dead()) ==> request.typed == old(request.typed)
      ensures outcome == ShortcutSent ==>
                !old(request.started) && request.started
                && (FullySent(request.typed, shortcut, env.portalAck) || FullySent(request.typed, shortcut, env.toolAck))
      ensures outcome == Unavailable && !env.replyLost ==>
                request.typed == old(request.typed) && request.started == old(request.started)
      ensures !old(request.started) && old(request.Lasts(7)) && PortalTypes(env) ==> outcome == ShortcutSent
      ensures !old(request.started) && old(request.Lasts(7)) && ToolTypes(env) ==> outcome == ShortcutSent
    {
      outcome := Unavailable;
      if env.reachesActor {
        outcome := Inject(shortcut, request, env.session, env.portalAck, serving);
        if env.replyLost {
          outcome := Unavailable;
        }
      }
      if outcome != Unavailable {
        return;
      }
      var alive := request.IsCurrent();
      if !alive {
        return;
      }
      if env.toolAvailable {
        var result, n := SendChord(shortcut, request, env.toolAck, serving);
        outcome := if env.toolDies then ClipboardOnly else ChordOutcome(result);
      }
    }
  }

  /** What the desktop does while a fallback paste runs. */
  datatype Fallback = Fallback(
    reachesActor: bool, session: SessionAnswer, portalAck: nat -> bool, replyLost: bool,
    toolAvailable: bool, toolAck: nat -> bool, toolDies: bool)

  predicate OpensPortal(env: Fallback) {
    env.reachesActor && env.session.Ready? && !env.replyLost
  }

  /** The portal types, and says so. */
  ghost predicate PortalTypes(env: Fallback) {
    OpensPortal(env) && AcknowledgesAll(env.portalAck)
  }

  /** The portal cannot be reached or refuses, and the tool types. */
  ghost predicate ToolTypes(env: Fallback) {
    && (!env.reachesActor || (!env.session.Ready? && !env.session.SessionTimedOut?))
    && env.toolAvailable && AcknowledgesAll(env.toolAck) && !env.toolDies
  }

  // ----- A whole delivery -----

  /** What happens around one delivery: whether it is still wanted at each check, whether the panel has focus for a
      clipboard write, whether another window of the program has focus, and whether a wait runs out of time. */
  datatype Surroundings = Surroundings(
    owned: nat -> bool, active: nat -> bool, focused: nat -> bool, timedOut: nat -> bool,
    reachesActor: bool, replyLost: bool, answers: nat -> Answers, ack: nat -> bool, fallback: Fallback)

  /** The delivery is wanted throughout, no window of the program has focus, and no wait runs out of time. */
  ghost predicate StaysWanted(env: Surroundings) {
    forall k :: env.owned(k) && !env.focused(k) && !env.timedOut(k)
  }

  ghost predicate PortalDelivers(env: Surroundings) {
    env.reachesActor && !env.replyLost && Grants(env.answers) && AcknowledgesAll(env.ack)
  }

  /** The portal's actor is gone, the clipboard can be set, and the fallback types. */
  ghost predicate FallbackDelivers(env: Surroundings) {
    && !env.reachesActor && (env.active(0) || env.active(1))
    && (PortalTypes(env.fallback) || ToolTypes(env.fallback))
  }

  class Desktop {
    const actor: PasteActor
    /** The clipboard as this program's window last set it. */
    var clipboard: string

    constructor ()
      ensures clipboard == "" && fresh(actor)
    {
      actor := new PasteActor();
      clipboard := "";
    }

    /** Deliver through the portal, and only if that typed nothing, secure the clipboard and use the fallback. */
    method DeliverTranscript(text: string, shortcut: Shortcut, request: DeliveryRequest, env: Surroundings)
      returns (outcome: DeliveryOutcome)
      requires request.Valid() && !request.started
      modifies this, actor, request
      ensures request.Valid()
      ensures request.typed != [] ==> request.pasting == text
      ensures outcome == ShortcutSent ==>
                && IsChordOf(request.typed, shortcut, |ShortcutKeys(shortcut)|)
                && (FullySent(request.typed, shortcut, env.ack)
                    || FullySent(request.typed, shortcut, env.fallback.portalAck)
                    || FullySent(request.typed, shortcut, env.fallback.toolAck))
      ensures old(request.Lasts(11)) && StaysWanted(env) && PortalDelivers(env) ==> outcome == ShortcutSent
      ensures old(request.Lasts(10)) && StaysWanted(env) && FallbackDelivers(env) ==> outcome == ShortcutSent
      ensures env.owned(0) && env.active(0) ==> clipboard == text
    {
      outcome := DeliveryOutcome.Cancelled;
      var copied := false;
      if !env.owned(0) {
        return;
      }
      if env.active(0) {
        clipboard := text;
        copied := true;
      }
      if !env.owned(1) {
        return;
      }
      var alive := request.IsCurrent();
      if alive && !env.focused(0) {
        outcome := AskPortal(text, shortcut, request, env);
      }
      if !env.owned(2) {
        return;
      }
      copied := copied || outcome == ShortcutSent || outcome == ClipboardOnly;
      if outcome != Unavailable {
        return;
      }
      outcome := FallBack(text, shortcut, request, env, copied);
    }

    /** Secure the clipboard, and type through the fallback. */
    method FallBack(text: string, shortcut: Shortcut, request: DeliveryRequest, env: Surroundings, secured: bool)
      returns (outcome: DeliveryOutcome)
      requires request.Valid() && (request.started ==> request.pasting == text) && (secured ==> clipboard == text)
      modifies this, actor, request
      ensures request.Valid() && (request.started ==> request.pasting == text)
      ensures outcome == ShortcutSent ==>
                request.started
                && (FullySent(request.typed, shortcut, env.fallback.portalAck)
                    || FullySent(request.typed, shortcut, env.fallback.toolAck))
      ensures !old(request.started) && old(request.Lasts(9)) && StaysWanted(env) ==>
                (secured || env.active(1)) && (PortalTypes(env.fallback) || ToolTypes(env.fallback)) ==>
                  outcome == ShortcutSent
      ensures clipboard == old(clipboard) || clipboard == text
    {
      outcome := Unavailable;
      var copied := secured;
      var alive := request.IsCurrent();
      if !alive {
        return;
      }
      if !copied {
        if !env.owned(3) {
          return;
        }
        if env.active(1) {
          clipboard := text;
          copied := true;
        }
      }
      if !env.owned(4) || !copied {
        return;
      }
      alive := request.IsCurrent();
      if alive && !env.focused(1) {
        outcome := actor.TryAutopaste(shortcut, request, env.fallback, clipboard);
        outcome := AwaitDelivery(outcome, request, false, env.timedOut(1));
      }
    }

    /** Ask the portal's actor, if it is there, and wait for its answer. */
    method AskPortal(text: string, shortcut: Shortcut, request: DeliveryRequest, env: Surroundings)
      returns (outcome: DeliveryOutcome)
      requires request.Valid() && !request.started
      modifies actor, request
      ensures request.Valid()
      ensures request.started ==> request.pasting == text
      ensures outcome == ShortcutSent ==> request.started && FullySent(request.typed, shortcut, env.ack)
      ensures old(request.Lasts(10)) && !env.timedOut(0) && PortalDelivers(env) ==> outcome == ShortcutSent
      ensures !env.reachesActor && !env.timedOut(0) ==>
                outcome == Unavailable && !request.started && request.looks == old(request.looks)
                && request.cancelled == old(request.cancelled)
    {
      outcome := Unavailable;
      if env.reachesActor {
        outcome := actor.Deliver(text, shortcut, request, env.answers, env.ack);
      }
      outcome := AwaitDelivery(outcome, request, env.replyLost, env.timedOut(0));
    }

    /** `await_delivery`: running out of time cancels the request. */
    method AwaitDelivery(sent: DeliveryOutcome, request: DeliveryRequest, replyLost: bool, timedOut: bool)
      returns (outcome: DeliveryOutcome)
      modifies request`cancelled
      ensures old(request.Dead()) || timedOut ==> request.Dead()
      ensures outcome == ShortcutSent ==> sent == ShortcutSent
      ensures !timedOut ==> outcome == (if replyLost then Unavailable else sent) && request.cancelled == old(request.cancelled)
    {
      if timedOut {
        request.Cancel();
        return DeliveryOutcome.Cancelled;
      }
      return if replyLost then Unavailable else sent;
    }
  }
}
