/** Retrying a stopped take: the button is offered only once nothing of the take is being decoded, so in every run
    at most one decode of a take can still reach history. */
module Retries {
  import opened Sequences
  import opened Wrappers
  import opened Chunking
  import opened Recording
  import opened Dictation

  /** A decode whose reply will not be dropped. */
  predicate Live(s: App, job: TakeJob) {
    job.token !in s.aborted
  }

  /** No take has two live decodes. */
  ghost predicate OneLive(s: App) {
    forall i, k :: 0 <= i < k < |s.takeJobs| && s.takeJobs[i].take.id == s.takeJobs[k].take.id ==>
      !(Live(s, s.takeJobs[i]) && Live(s, s.takeJobs[k]))
  }

  /** A take id, a generation and a token are handed out once; a decode of the current generation is one of the take
      that could be retried. */
  ghost predicate Minted(s: App) {
    && (forall i :: 0 <= i < |s.takeJobs| ==>
          && s.takeJobs[i].token <= s.token && s.takeJobs[i].take.id <= s.takeJobs[i].generation <= s.generation
          && (s.takeJobs[i].generation == s.generation && s.retryTake.Some? ==>
                s.takeJobs[i].take.id == s.retryTake.value.id))
    && (forall t :: t in s.aborted ==> t < s.token)
    && (s.owner == Mini ==>
          && s.retryTake.None?
          && forall i :: 0 <= i < |s.takeJobs| ==> s.takeJobs[i].generation < s.generation)
    && (s.retryTake.Some? ==> s.retryTake.value.id <= s.generation)
  }

  /** Every live decode of the retryable take hangs on the current token. */
  ghost predicate Revocable(s: App) {
    s.retryTake.Some? ==>
      forall i :: 0 <= i < |s.takeJobs| && s.takeJobs[i].take.id == s.retryTake.value.id && Live(s, s.takeJobs[i]) ==>
        s.takeJobs[i].token == s.token
  }

  /** While a retry is offered, no decode of that take can still reach history. */
  ghost predicate OfferedWhenDone(s: App) {
    s.retryOffered && s.retryTake.Some? ==>
      forall i :: 0 <= i < |s.takeJobs| && s.takeJobs[i].take.id == s.retryTake.value.id ==> !Live(s, s.takeJobs[i])
  }

  ghost predicate Orderly(s: App) {
    Minted(s) && OfferedWhenDone(s) && OneLive(s)
  }

  /** A retry leaves a single live decode exactly when the old one hangs on the current token. */
  lemma RetryIsSafeExactly(s: App)
    requires Minted(s) && OneLive(s)
    requires s.owner == Free && s.retryTake.Some?
    ensures OneLive(RetryStep(s)) <==> Revocable(s)
  {
    var s' := RetryStep(s);
    var id, n := s.retryTake.value.id, |s.takeJobs|;
    assert s'.takeJobs[n].take.id == id && Live(s', s'.takeJobs[n]);
    if !Revocable(s) {
      var i :| 0 <= i < n && s.takeJobs[i].take.id == id && Live(s, s.takeJobs[i]) && s.takeJobs[i].token != s.token;
      assert s'.takeJobs[i] == s.takeJobs[i] && Live(s', s'.takeJobs[i]);
    } else {
      forall i, k | 0 <= i < k <= n && s'.takeJobs[i].take.id == s'.takeJobs[k].take.id
        ensures !(Live(s', s'.takeJobs[i]) && Live(s', s'.takeJobs[k]))
      {
        assert s'.takeJobs[i] == s.takeJobs[i];
      }
    }
  }

  lemma RetryIsOrderly(s: App)
    requires Orderly(s) && s.retryOffered
    ensures Orderly(RetryStep(s))
  {
    if s.owner == Free && s.retryTake.Some? {
      RetryIsSafeExactly(s);
    }
  }

  lemma ReleasedIsOrderly(s: App)
    requires Orderly(s)
    ensures Orderly(Released(s).(chunked := None))
  {
  }

  /** A take with a new id has no earlier decode. */
  lemma SubmittedIsOrderly(s: App, take: RetryTake)
    requires Orderly(s) && s.owner == Free && take.id == s.generation
    requires forall i :: 0 <= i < |s.takeJobs| ==> s.takeJobs[i].generation < s.generation
    ensures Orderly(Submitted(s, take))
  {
  }

  lemma StopIsOrderly(s: App, backendReady: bool, polish: Polish)
    requires Orderly(s)
    ensures Orderly(StopStep(s, backendReady, polish))
  {
    if s.owner == Mini {
      var stopped := Released(s).(chunked := None);
      ReleasedIsOrderly(s);
      if backendReady {
        SubmittedIsOrderly(stopped, TakeAtStop(s));
      }
    }
  }

  lemma AnsweredIsOrderly(s: App, i: nat)
    requires Orderly(s) && i < |s.takeJobs|
    ensures Orderly(s.(takeJobs := Without(s.takeJobs, i)))
  {
    var rest := Without(s.takeJobs, i);
    forall k | 0 <= k < |rest|
      ensures rest[k] == s.takeJobs[if k < i then k else k + 1]
    {
    }
  }

  /** When the live decode of the current take is answered, no other is left of it. */
  lemma LastOfItsTake(s: App, i: nat)
    requires Orderly(s) && i < |s.takeJobs| && Live(s, s.takeJobs[i]) && !Stale(s, s.takeJobs[i])
    requires s.retryTake.Some?
    ensures
      var rest := Without(s.takeJobs, i);
      forall k :: 0 <= k < |rest| && rest[k].take.id == s.retryTake.value.id ==> !Live(s, rest[k])
  {
    var rest := Without(s.takeJobs, i);
    forall k | 0 <= k < |rest| && rest[k].take.id == s.retryTake.value.id
      ensures !Live(s, rest[k])
    {
      assert rest[k] == s.takeJobs[if k < i then k else k + 1];
    }
  }

  /** If the answer is current, nothing else of the retryable take is being decoded. */
  ghost predicate LastOne(s: App, job: TakeJob) {
    !Stale(s, job) && s.retryTake.Some? ==>
      forall k :: 0 <= k < |s.takeJobs| && s.takeJobs[k].take.id == s.retryTake.value.id ==> !Live(s, s.takeJobs[k])
  }

  lemma RecordedIsOrderly(s: App, job: TakeJob, o: Outcome)
    requires Orderly(s) && LastOne(s, job)
    ensures Orderly(Recorded(s, job, o))
  {
  }

  lemma ErrorShownIsOrderly(s: App, job: TakeJob)
    requires Orderly(s) && LastOne(s, job)
    ensures Orderly(ErrorShown(s, job))
  {
  }

  lemma TakeReplyIsOrderly(s: App, i: nat, reply: Reply, polish: Polish)
    requires Orderly(s)
    ensures Orderly(TakeReplyStep(s, i, reply, polish))
  {
    if i < |s.takeJobs| {
      var job, rest := s.takeJobs[i], s.(takeJobs := Without(s.takeJobs, i));
      AnsweredIsOrderly(s, i);
      if Live(s, job) {
        if !Stale(s, job) && s.retryTake.Some? {
          LastOfItsTake(s, i);
          assert forall k :: 0 <= k < |rest.takeJobs| ==> Live(rest, rest.takeJobs[k]) == Live(s, rest.takeJobs[k]);
        }
        match FinishChunkedTake(job.take.chunks, reply, polish, job.take.durationSecs, job.take.id)
        case Error(_) => ErrorShownIsOrderly(rest, job);
        case Complete(o) => RecordedIsOrderly(rest, job, o.(id := job.take.id));
      }
    }
  }

  lemma StartIsOrderly(s: App, mic: Microphone, whisper: bool)
    requires Orderly(s)
    ensures Orderly(StartStep(s, mic, whisper))
  {
  }

  lemma CancelIsOrderly(s: App)
    requires Orderly(s)
    ensures Orderly(CancelStep(s))
  {
  }

  /** Events that only concern capture and chunks leave deliveries alone. */
  predicate SameDeliveries(s: App, s': App) {
    && s'.owner == s.owner && s'.generation == s.generation && s'.token == s.token && s'.aborted == s.aborted
    && s'.takeJobs == s.takeJobs && s'.retryTake == s.retryTake && s'.retryOffered == s.retryOffered
  }

  lemma SameIsOrderly(s: App, s': App)
    requires Orderly(s) && SameDeliveries(s, s')
    ensures Orderly(s')
  {
  }

  lemma ChunkReplyDeliversNothing(s: App, i: nat, reply: Reply, freshId: nat, polish: Polish)
    ensures SameDeliveries(s, ChunkReplyStep(s, i, reply, freshId, polish))
  {
  }

  lemma CaptureDeliversNothing(rms: Measure, s: App, samples: seq<real>, timed: bool)
    ensures SameDeliveries(s, PushStep(s, samples)) && SameDeliveries(s, TickStep(rms, s, timed))
  {
  }

  lemma OtherStartIsOrderly(s: App, other: Owner, rate: nat, channels: nat)
    requires Orderly(s)
    ensures Orderly(OtherStartStep(s, other, rate, channels))
  {
  }

  lemma OtherStopIsOrderly(s: App)
    requires Orderly(s)
    ensures Orderly(OtherStopStep(s))
  {
  }

  lemma ArmedIsOrderly(s: App)
    requires Orderly(s)
    ensures Orderly(Armed(s))
  {
  }

  lemma VoiceStartIsOrderly(s: App, hasTarget: bool, rate: nat, channels: nat)
    requires Orderly(s)
    ensures Orderly(VoiceStartStep(s, hasTarget, rate, channels))
  {
    ArmedIsOrderly(s);
    OtherStartIsOrderly(Armed(s), VoiceEdit, rate, channels);
  }

  lemma CaptureIsOrderly(rms: Measure, s: App, samples: seq<real>, timed: bool)
    requires Orderly(s)
    ensures Orderly(PushStep(s, samples)) && Orderly(TickStep(rms, s, timed))
  {
    CaptureDeliversNothing(rms, s, samples, timed);
    SameIsOrderly(s, PushStep(s, samples));
    SameIsOrderly(s, TickStep(rms, s, timed));
  }

  lemma ChunkReplyIsOrderly(s: App, i: nat, reply: Reply, freshId: nat, polish: Polish)
    requires Orderly(s)
    ensures Orderly(ChunkReplyStep(s, i, reply, freshId, polish))
  {
    ChunkReplyDeliversNothing(s, i, reply, freshId, polish);
    SameIsOrderly(s, ChunkReplyStep(s, i, reply, freshId, polish));
  }

  lemma ClickedIsOrderly(s: App)
    requires Orderly(s)
    ensures Orderly(if s.retryOffered then RetryStep(s) else s)
  {
    if s.retryOffered {
      RetryIsOrderly(s);
    }
  }

  lemma ClosedIsOrderly(s: App)
    requires Orderly(s)
    ensures Orderly(s.(retryTake := None))
  {
  }

  lemma MicrophoneStepIsOrderly(rms: Measure, polish: Polish, s: App, e: Event)
    requires Orderly(s)
    requires e.Start? || e.OtherStart? || e.OtherStop? || e.VoiceStart? || e.Push? || e.Tick?
    ensures Orderly(Step(rms, polish, s, e))
  {
    match e
    case Start(mic, whisper) => StartIsOrderly(s, mic, whisper);
    case OtherStart(other, rate, channels) => OtherStartIsOrderly(s, other, rate, channels);
    case OtherStop => OtherStopIsOrderly(s);
    case VoiceStart(hasTarget, rate, channels) => VoiceStartIsOrderly(s, hasTarget, rate, channels);
    case Push(samples) => CaptureIsOrderly(rms, s, samples, false);
    case Tick(timed) => CaptureIsOrderly(rms, s, [], timed);
  }

  lemma StepIsOrderly(rms: Measure, polish: Polish, s: App, e: Event)
    requires Orderly(s)
    ensures Orderly(Step(rms, polish, s, e))
  {
    if e.ChunkReply? {
      ChunkReplyIsOrderly(s, e.job, e.reply, e.freshId, polish);
    } else if e.Stop? {
      StopIsOrderly(s, e.backendReady, polish);
    } else if e.TakeReply? {
      TakeReplyIsOrderly(s, e.job, e.reply, polish);
    } else if e.Retry? {
      ClickedIsOrderly(s);
    } else if e.Cancel? {
      CancelIsOrderly(s);
    } else if e.ClosePanel? {
      ClosedIsOrderly(s);
    } else {
      MicrophoneStepIsOrderly(rms, polish, s, e);
    }
  }

  lemma {:induction false} RunIsOrderly(rms: Measure, polish: Polish, s: App, events: seq<Event>)
    requires Orderly(s)
    ensures Orderly(Run(rms, polish, s, events))
    decreases |events|
  {
    if events != [] {
      StepIsOrderly(rms, polish, s, events[0]);
      RunIsOrderly(rms, polish, Step(rms, polish, s, events[0]), events[1..]);
    }
  }

  /** In every run each take has at most one decode that can still reach history, and while a retry is offered it has
      none. */
  lemma OneDecodePerTake(rms: Measure, polish: Polish, events: seq<Event>)
    ensures
      var s := Run(rms, polish, Fresh, events);
      && OneLive(s)
      && (s.retryOffered && s.retryTake.Some? ==>
            forall i :: 0 <= i < |s.takeJobs| && Live(s, s.takeJobs[i]) ==>
              s.takeJobs[i].take.id != s.retryTake.value.id)
  {
    RunIsOrderly(rms, polish, Fresh, events);
  }
}
