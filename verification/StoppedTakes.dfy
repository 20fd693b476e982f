/** What was decoded never silently vanishes (src/application.rs:770-951): every take that is stopped is being decoded,
    finished or salvaged ever after, with all it held, unless the user cancels it or its decode gives nothing. */
module StoppedTakes {
  import opened Wrappers
  import opened Numbers
  import opened Sequences
  import opened Text
  import opened Chunking
  import opened AudioBuffers
  import opened Recording
  import opened Combining
  import opened Dictation
  import opened ExactlyOnce
  import opened Retries

  /** A take at the moment it is stopped: its results so far, and all audio it accepted. */
  datatype Stopped = Stopped(id: nat, chunks: seq<Outcome>, stream: seq<real>)

  function StoppedTake(s: App): Stopped {
    Stopped(s.generation,
            if s.chunked.Some? && s.chunked.value.generation == s.generation then s.chunked.value.results else [], s.stream)
  }

  /** The take as handed to the decoder: the same results, and the audio up to them with the rest makes up the stream. */
  ghost predicate Holds(take: RetryTake, st: Stopped) {
    && take.id == st.id && take.chunks == st.chunks && take.stream == st.stream
    && st.stream == take.drained + take.audio.samples
  }

  ghost predicate IsDecoding(s: App, st: Stopped, i: int) {
    0 <= i < |s.takeJobs| && Holds(s.takeJobs[i].take, st) && Live(s, s.takeJobs[i])
  }

  ghost predicate IsFinished(s: App, st: Stopped, i: int) {
    && 0 <= i < |s.finished| && Holds(s.finished[i].take, st)
    && AllWords(RawTexts(st.chunks)) <= Words(s.finished[i].outcome.rawText)
  }

  ghost predicate IsSalvaged(s: App, st: Stopped, i: int) {
    && 0 <= i < |s.salvaged| && Holds(s.salvaged[i].take, st)
    && Words(s.salvaged[i].outcome.rawText) == AllWords(RawTexts(st.chunks))
    && s.salvaged[i].outcome.incomplete.Some?
  }

  ghost predicate Kept(s: App, st: Stopped) {
    || (exists i :: IsDecoding(s, st, i))
    || (exists i :: IsFinished(s, st, i))
    || (exists i :: IsSalvaged(s, st, i))
  }

  /** A decode of the whole take that gives nothing to keep. */
  predicate GivesNothing(chunks: seq<Outcome>, reply: Reply) {
    reply.Cancelled? || (chunks == [] && !reply.Decoded?)
  }

  /** The user cancels while the take is being decoded under the current token, or its decode gives nothing. */
  ghost predicate Dismisses(s: App, e: Event, st: Stopped) {
    match e
    case Cancel => exists i :: IsDecoding(s, st, i) && s.takeJobs[i].token == s.token
    case TakeReply(i, reply) => IsDecoding(s, st, i) && GivesNothing(st.chunks, reply)
    case _ => false
  }

  ghost predicate NeverDismissed(rms: Measure, polish: Polish, s: App, events: seq<Event>, st: Stopped)
    decreases |events|
  {
    events == []
    || (!Dismisses(s, events[0], st)
        && NeverDismissed(rms, polish, Step(rms, polish, s, events[0]), events[1..], st))
  }

  // ----- Stopping -----

  /** A stop hands the take to the decoder, or salvages its results, if it has any, when the backend is not ready. */
  lemma StopKeepsTheTake(s: App, ready: bool, polish: Polish)
    requires Inv(s) && Orderly(s) && s.owner == Mini && (ready || StoppedTake(s).chunks != [])
    ensures Kept(StopStep(s, ready, polish), StoppedTake(s))
  {
    var s', st := StopStep(s, ready, polish), StoppedTake(s);
    StoppedKeeps(s);
    assert Holds(TakeAtStop(s), st);
    if ready {
      assert IsDecoding(s', st, |s.takeJobs|);
    } else {
      CombinedWords(st.chunks, polish, TakeAtStop(s).durationSecs, st.id);
      assert IsSalvaged(s', st, |s.salvaged|);
    }
  }

  lemma QuotientBack(x: real, r: real)
    requires r > 0.0
    ensures x / r * r == x
  {
  }

  lemma BufferSecsAreFrames(b: Buffer)
    requires b.rate > 0
    ensures BufferSecs(b) * b.rate as real == (b.RawLen() / AtLeastOne(b.channels)) as real
  {
    QuotientBack((b.RawLen() / AtLeastOne(b.channels)) as real, b.rate as real);
  }

  lemma DurationIsSamples(n: nat, rate: nat, channels: nat)
    requires rate > 0
    ensures DurationSecs(n, rate, channels) * PerSecond(rate, channels) as real == n as real
  {
    QuotientBack(n as real, PerSecond(rate, channels) as real);
  }

  lemma StopDurations(s: App)
    ensures
      var take := TakeAtStop(s);
      && take.durationSecs == BufferSecs(s.buffer)
      && take.tailDuration == if take.chunks == [] then take.durationSecs
                              else DurationSecs(|take.audio.samples|, take.audio.rate, take.audio.channels)
  {
  }

  /** A take lasts as many frames as it accepted. */
  lemma StopMeasures(s: App)
    requires Inv(s) && s.owner == Mini && s.buffer.rate > 0
    ensures s.buffer.RawLen() == |s.stream|
    ensures TakeAtStop(s).durationSecs * s.buffer.rate as real == (s.buffer.RawLen() / AtLeastOne(s.buffer.channels)) as real
  {
    StopDurations(s);
    BufferSecsAreFrames(s.buffer);
  }

  /** Its tail lasts as long as what is left of it, once chunks were decoded, and else as long as the take. */
  lemma TailMeasures(s: App)
    requires s.recording && s.buffer.rate > 0
    ensures TakeAtStop(s).chunks == [] ==> TakeAtStop(s).tailDuration == TakeAtStop(s).durationSecs
    ensures TakeAtStop(s).chunks != [] ==>
              TakeAtStop(s).tailDuration * PerSecond(s.buffer.rate, s.buffer.channels) as real == |s.buffer.raw| as real
  {
    StopDurations(s);
    DurationIsSamples(|s.buffer.raw|, s.buffer.rate, s.buffer.channels);
  }

  // ----- Answers -----

  lemma CombinedStarts(chunks: seq<Outcome>, tail: Outcome)
    ensures AllWords(RawTexts(chunks)) <= AllWords(RawTexts(chunks + [tail]))
  {
    WordsOfOneMore(chunks, tail);
  }

  /** The parts of a finished take: its chunks, then the tail if that was decoded. */
  function PartsOf(chunks: seq<Outcome>, reply: Reply): seq<Outcome> {
    if reply.Decoded? then chunks + [reply.outcome] else chunks
  }

  /** What a finished take says: the words of its parts; it is marked incomplete when the tail's decode failed, and
      otherwise if a part is. */
  ghost predicate Says(o: Outcome, chunks: seq<Outcome>, reply: Reply) {
    && Words(o.rawText) == AllWords(RawTexts(chunks)) + (if reply.Decoded? then Words(reply.outcome.rawText) else [])
    && if reply.Failed? then o.incomplete == Some(reply.message)
       else IsFirst(Incompletes(PartsOf(chunks, reply)), o.incomplete)
  }

  /** A take with chunks lasts as long as it was recorded, and its text is polished once. */
  ghost predicate IsPolished(o: Outcome, polish: Polish, total: real) {
    && o.durationSecs == total
    && o.cleanedText == polish(o.rawText, if o.confidenceAvailable then Some(o.confidence) else None)
  }

  lemma CombinedSays(parts: seq<Outcome>, polish: Polish, total: real, id: nat)
    ensures
      var o := Combined(parts, polish, total, id);
      && Words(o.rawText) == AllWords(RawTexts(parts)) && IsFirst(Incompletes(parts), o.incomplete)
      && IsPolished(o, polish, total)
  {
    CombinedWords(parts, polish, total, id);
    CombinedFields(parts, polish, total, id);
  }

  lemma AloneSays(tail: Outcome)
    ensures Says(tail, [], Decoded(tail))
  {
    assert AllWords(RawTexts([])) == [];
    assert [] + [tail] == [tail];
    assert Incompletes([tail])[0] == tail.incomplete;
    assert [] + Words(tail.rawText) == Words(tail.rawText);
  }

  lemma FinishSays(chunks: seq<Outcome>, reply: Reply, polish: Polish, total: real, id: nat)
    ensures
      var result := FinishChunkedTake(chunks, reply, polish, total, id);
      if GivesNothing(chunks, reply) then result == Error(reply)
      else
        && result.Complete? && Says(result.outcome, chunks, reply)
        && if chunks == [] then result.outcome == reply.outcome else IsPolished(result.outcome, polish, total)
  {
    if chunks == [] {
      if reply.Decoded? {
        AloneSays(reply.outcome);
      }
    } else {
      CombinedSays(PartsOf(chunks, reply), polish, total, id);
      if reply.Decoded? {
        WordsOfOneMore(chunks, reply.outcome);
      }
    }
  }

  /** The answer to a live decode is recorded, stale or not, unless it gives nothing; then the error is shown if it is of
      the current take. */
  lemma AnswerIsRecorded(s: App, i: nat, reply: Reply, polish: Polish)
    requires i < |s.takeJobs| && Live(s, s.takeJobs[i])
    ensures
      var s', job := TakeReplyStep(s, i, reply, polish), s.takeJobs[i];
      var stale := s.generation != job.generation || s.owner == Mini;
      if GivesNothing(job.take.chunks, reply) then
        && s'.finished == s.finished && s'.retryTake == s.retryTake
        && s'.retryOffered == (s.retryOffered || !stale)
      else
        && |s'.finished| == |s.finished| + 1 && Init(s'.finished) == s.finished
        && Last(s'.finished).take == job.take && Last(s'.finished).stale == stale
        && Last(s'.finished).outcome.id == job.take.id
        && Says(Last(s'.finished).outcome, job.take.chunks, reply)
        && s'.retryTake == (if !stale && Last(s'.finished).outcome.incomplete.None? then None else s.retryTake)
        && (!stale ==> (s'.retryOffered <==> Last(s'.finished).outcome.incomplete.Some?
                                             && Last(s'.finished).outcome.cleanedText != ""))
  {
    var job := s.takeJobs[i];
    TakeReplyStepCases(s, i, reply, polish);
    FinishSays(job.take.chunks, reply, polish, job.take.durationSecs, job.take.id);
  }

  // ----- Every event -----

  /** A decode under the current token belongs to the current generation, and decodes of the take that can be retried
      decode exactly that take. */
  ghost predicate Hanging(s: App) {
    && (forall i :: 0 <= i < |s.takeJobs| && s.takeJobs[i].token == s.token ==> s.takeJobs[i].generation == s.generation)
    && (s.retryTake.Some? ==>
          forall i :: 0 <= i < |s.takeJobs| && s.takeJobs[i].take.id == s.retryTake.value.id ==>
            s.takeJobs[i].take == s.retryTake.value)
  }

  lemma StopHangs(s: App, ready: bool, polish: Polish)
    requires Hanging(s) && Minted(s)
    ensures Hanging(StopStep(s, ready, polish))
  {
  }

  lemma TakeReplyHangs(s: App, i: nat, reply: Reply, polish: Polish)
    requires Hanging(s)
    ensures Hanging(TakeReplyStep(s, i, reply, polish))
  {
  }

  lemma RetryHangs(s: App)
    requires Hanging(s) && Minted(s)
    ensures Hanging(RetryStep(s))
  {
  }

  lemma CancelHangs(s: App)
    requires Hanging(s) && Minted(s)
    ensures Hanging(CancelStep(s))
  {
  }

  lemma SameDeliveriesHang(s: App, s': App)
    requires Hanging(s) && SameDeliveries(s, s')
    ensures Hanging(s')
  {
  }

  lemma StartHangs(s: App, mic: Microphone, whisper: bool)
    requires Hanging(s) && Minted(s)
    ensures Hanging(StartStep(s, mic, whisper))
  {
  }

  /** Capturing again takes a fresh token and a new generation together, or neither. */
  lemma CaptureHangs(rms: Measure, polish: Polish, s: App, e: Event)
    requires Hanging(s) && Minted(s)
    requires e.Start? || e.OtherStart? || e.OtherStop? || e.VoiceStart? || e.ClosePanel?
    ensures Hanging(Step(rms, polish, s, e))
  {
    if e.Start? {
      StartHangs(s, e.mic, e.whisper);
    }
  }

  lemma StepHangs(rms: Measure, polish: Polish, s: App, e: Event)
    requires Hanging(s) && Minted(s)
    ensures Hanging(Step(rms, polish, s, e))
  {
    match e
    case ChunkReply(i, reply, freshId) =>
      ChunkReplyDeliversNothing(s, i, reply, freshId, polish);
      SameDeliveriesHang(s, ChunkReplyStep(s, i, reply, freshId, polish));
    case Push(samples) =>
      CaptureDeliversNothing(rms, s, samples, false);
      SameDeliveriesHang(s, PushStep(s, samples));
    case Tick(timed) =>
      CaptureDeliversNothing(rms, s, [], timed);
      SameDeliveriesHang(s, TickStep(rms, s, timed));
    case Stop(ready) => StopHangs(s, ready, polish);
    case TakeReply(i, reply) => TakeReplyHangs(s, i, reply, polish);
    case Retry => RetryHangs(s);
    case Cancel => CancelHangs(s);
    case _ => CaptureHangs(rms, polish, s, e);
  }

  /** Nothing leaves the lists of takes. */
  ghost predicate OnlyAdds(s: App, s': App) {
    s.takeJobs <= s'.takeJobs && s.finished <= s'.finished && s.salvaged <= s'.salvaged && s'.aborted == s.aborted
  }

  lemma AddingKeeps(s: App, s': App, st: Stopped)
    requires Kept(s, st) && OnlyAdds(s, s')
    ensures Kept(s', st)
  {
    if i :| IsDecoding(s, st, i) {
      assert IsDecoding(s', st, i);
    } else if i :| IsFinished(s, st, i) {
      assert IsFinished(s', st, i);
    } else {
      var i :| IsSalvaged(s, st, i);
      assert IsSalvaged(s', st, i);
    }
  }

  lemma StopOnlyAdds(s: App, ready: bool, polish: Polish)
    ensures OnlyAdds(s, StopStep(s, ready, polish))
  {
  }

  lemma OthersOnlyAdd(rms: Measure, polish: Polish, s: App, e: Event)
    requires !e.TakeReply? && !e.Retry? && !e.Cancel?
    ensures OnlyAdds(s, Step(rms, polish, s, e))
  {
    if e.ChunkReply? {
      ReplyOnlyChunks(s, e.job, e.reply, e.freshId, polish);
    } else if e.Stop? {
      StopOnlyAdds(s, e.backendReady, polish);
    }
  }

  /** Finished and salvaged takes stay, whatever happens. */
  lemma DoneStays(s: App, s': App, st: Stopped)
    requires s.finished <= s'.finished && s.salvaged <= s'.salvaged
    requires (exists i :: IsFinished(s, st, i)) || (exists i :: IsSalvaged(s, st, i))
    ensures Kept(s', st)
  {
    if i :| IsFinished(s, st, i) {
      assert IsFinished(s', st, i);
    } else {
      var i :| IsSalvaged(s, st, i);
      assert IsSalvaged(s', st, i);
    }
  }

  lemma ReplyKeepsOthers(s: App, i: nat, reply: Reply, polish: Polish, st: Stopped, k: nat)
    requires IsDecoding(s, st, k) && k != i && i < |s.takeJobs|
    ensures Kept(TakeReplyStep(s, i, reply, polish), st)
  {
    var s' := TakeReplyStep(s, i, reply, polish);
    assert s'.takeJobs == Without(s.takeJobs, i) && s'.aborted == s.aborted;
    assert IsDecoding(s', st, if k < i then k else k - 1);
  }

  lemma ReplyFinishes(s: App, i: nat, reply: Reply, polish: Polish, st: Stopped)
    requires IsDecoding(s, st, i) && !GivesNothing(st.chunks, reply)
    ensures Kept(TakeReplyStep(s, i, reply, polish), st)
  {
    AnswerIsRecorded(s, i, reply, polish);
    assert IsFinished(TakeReplyStep(s, i, reply, polish), st, |s.finished|);
  }

  lemma TakeReplyKeepsTakes(s: App, i: nat, reply: Reply, polish: Polish, st: Stopped)
    requires Kept(s, st) && !Dismisses(s, TakeReply(i, reply), st)
    ensures Kept(TakeReplyStep(s, i, reply, polish), st)
  {
    if i >= |s.takeJobs| {
      AddingKeeps(s, TakeReplyStep(s, i, reply, polish), st);
    } else if k :| IsDecoding(s, st, k) {
      if k == i {
        ReplyFinishes(s, i, reply, polish, st);
      } else {
        ReplyKeepsOthers(s, i, reply, polish, st, k);
      }
    } else {
      TakeReplyStepCases(s, i, reply, polish);
      DoneStays(s, TakeReplyStep(s, i, reply, polish), st);
    }
  }

  /** A retry aborts the decode under the current token, and decodes the same take again. */
  lemma RetryKeepsTakes(s: App, st: Stopped)
    requires Kept(s, st) && Orderly(s) && Hanging(s)
    ensures Kept(RetryStep(s), st)
  {
    var s' := RetryStep(s);
    if i :| IsDecoding(s, st, i) {
      if s.owner == Free && s.retryTake.Some? && s.takeJobs[i].token == s.token {
        assert IsDecoding(s', st, |s.takeJobs|);
      } else {
        assert IsDecoding(s', st, i);
      }
    } else {
      DoneStays(s, s', st);
    }
  }

  lemma CancelKeepsTakes(s: App, st: Stopped)
    requires Kept(s, st) && Orderly(s) && !Dismisses(s, Cancel, st)
    ensures Kept(CancelStep(s), st)
  {
    var s' := CancelStep(s);
    if i :| IsDecoding(s, st, i) {
      assert IsDecoding(s', st, i);
    } else {
      DoneStays(s, s', st);
    }
  }

  lemma StepKeepsTakes(rms: Measure, polish: Polish, s: App, e: Event, st: Stopped)
    requires Kept(s, st) && Orderly(s) && Hanging(s) && !Dismisses(s, e, st)
    ensures Kept(Step(rms, polish, s, e), st)
  {
    if e.TakeReply? {
      TakeReplyKeepsTakes(s, e.job, e.reply, polish, st);
    } else if e.Retry? {
      RetryKeepsTakes(s, st);
    } else if e.Cancel? {
      CancelKeepsTakes(s, st);
    } else {
      OthersOnlyAdd(rms, polish, s, e);
      AddingKeeps(s, Step(rms, polish, s, e), st);
    }
  }

  lemma {:induction false} RunKeepsTakes(rms: Measure, polish: Polish, s: App, events: seq<Event>, st: Stopped)
    requires Kept(s, st) && Orderly(s) && Hanging(s) && NeverDismissed(rms, polish, s, events, st)
    ensures Kept(Run(rms, polish, s, events), st)
    decreases |events|
  {
    if events != [] {
      StepKeepsTakes(rms, polish, s, events[0], st);
      StepIsOrderly(rms, polish, s, events[0]);
      StepHangs(rms, polish, s, events[0]);
      RunKeepsTakes(rms, polish, Step(rms, polish, s, events[0]), events[1..], st);
    }
  }

  lemma {:induction false} RunHangs(rms: Measure, polish: Polish, s: App, events: seq<Event>)
    requires Orderly(s) && Hanging(s)
    ensures Orderly(Run(rms, polish, s, events)) && Hanging(Run(rms, polish, s, events))
    decreases |events|
  {
    if events != [] {
      StepIsOrderly(rms, polish, s, events[0]);
      StepHangs(rms, polish, s, events[0]);
      RunHangs(rms, polish, Step(rms, polish, s, events[0]), events[1..]);
    }
  }

  /** A take stopped after any run, with a decoder to hand it to or with decoded chunks, is ever after being decoded,
      finished with at least the words of its chunks, or salvaged with exactly those, unless it is dismissed. */
  lemma StoppedTakeIsKept(rms: Measure, polish: Polish, before: seq<Event>, ready: bool, after: seq<Event>)
    ensures
      var s := Run(rms, polish, Fresh, before);
      var stopped, st := StopStep(s, ready, polish), StoppedTake(s);
      s.owner == Mini && (ready || st.chunks != []) && NeverDismissed(rms, polish, stopped, after, st) ==>
        Kept(Run(rms, polish, stopped, after), st)
  {
    var s := Run(rms, polish, Fresh, before);
    var stopped, st := StopStep(s, ready, polish), StoppedTake(s);
    RunHangs(rms, polish, Fresh, before);
    RunKeeps(rms, polish, Fresh, before);
    if s.owner == Mini && (ready || st.chunks != []) && NeverDismissed(rms, polish, stopped, after, st) {
      StopKeepsTheTake(s, ready, polish);
      StopIsOrderly(s, ready, polish);
      StopHangs(s, ready, polish);
      RunKeepsTakes(rms, polish, stopped, after, st);
    }
  }

  // ----- A whole dictation -----

  function Pushes(batches: seq<seq<real>>): seq<Event> {
    if batches == [] then [] else [Push(batches[0])] + Pushes(batches[1..])
  }

  function Joined(batches: seq<seq<real>>): seq<real> {
    if batches == [] then [] else batches[0] + Joined(batches[1..])
  }

  /** A state that has heard `samples` more. */
  function Heard(s: App, samples: seq<real>): App {
    s.(buffer := s.buffer.(raw := s.buffer.raw + samples), stream := s.stream + samples)
  }

  lemma HeardInTwo(s: App, a: seq<real>, b: seq<real>)
    ensures Heard(Heard(s, a), b) == Heard(s, a + b) && Heard(s, []) == s
  {
    assert s.buffer.raw + a + b == s.buffer.raw + (a + b) && s.stream + a + b == s.stream + (a + b);
    assert s.buffer.raw + [] == s.buffer.raw && s.stream + [] == s.stream;
  }

  lemma PushIsHeard(s: App, samples: seq<real>)
    requires s.recording && |s.buffer.raw| + |samples| <= MAX_BUFFER_SAMPLES
    ensures PushStep(s, samples) == Heard(s, samples)
  {
  }

  /** Samples pushed while recording are all heard, as long as they fit. */
  lemma {:induction false} PushesAreHeard(rms: Measure, polish: Polish, s: App, batches: seq<seq<real>>)
    requires s.recording && |s.buffer.raw| + |Joined(batches)| <= MAX_BUFFER_SAMPLES
    ensures Run(rms, polish, s, Pushes(batches)) == Heard(s, Joined(batches))
    decreases |batches|
  {
    if batches == [] {
      HeardInTwo(s, [], []);
    } else {
      PushIsHeard(s, batches[0]);
      HeardInTwo(s, batches[0], Joined(batches[1..]));
      assert Pushes(batches)[1..] == Pushes(batches[1..]);
      PushesAreHeard(rms, polish, Heard(s, batches[0]), batches[1..]);
    }
  }

  /** Starting with the microphone free opens it for a new take, which is decoded in chunks when the backend allows. */
  lemma StartListens(s: App, rate: nat, channels: nat, whisper: bool)
    requires !s.recording || s.owner == Free || s.owner == Mini
    ensures
      var s' := StartStep(s, Opened(rate, channels), whisper);
      && s'.owner == Mini && s'.recording && s'.generation == s.generation + 1 && s'.token == s.token + 1
      && s'.stream == [] && s'.drained == [] && s'.buffer == Buffer([], 0, rate, channels)
      && s'.chunked == (if whisper then Some(ChunkedDictation(s'.generation, [], false, false)) else None)
      && OnlyAdds(s, s') && s'.takeJobs == s.takeJobs && s'.finished == s.finished && s'.salvaged == s.salvaged
  {
  }

  /** A dictation from a free microphone to the answer of its one decode: the take finished is current, holds exactly what
      was pushed, and is what the decoder made of it. */
  lemma DictationIsDelivered(rms: Measure, polish: Polish, before: seq<Event>, rate: nat, channels: nat,
      batches: seq<seq<real>>, whisper: bool, o: Outcome)
    requires |Joined(batches)| <= MAX_BUFFER_SAMPLES
    ensures
      var s := Run(rms, polish, Fresh, before);
      var listening := StartStep(s, Opened(rate, channels), whisper);
      var heard := Run(rms, polish, listening, Pushes(batches));
      var stopped := StopStep(heard, true, polish);
      var done := TakeReplyStep(stopped, |s.takeJobs|, Decoded(o), polish);
      s.owner == Free ==>
        && done.owner == Free && !done.recording
        && |done.finished| == |s.finished| + 1 && Init(done.finished) == s.finished
        && var f := Last(done.finished);
           && !f.stale && f.outcome == o.(id := f.take.id)
           && f.take.stream == f.take.audio.samples == Joined(batches)
           && f.take.audio.rate == rate && f.take.audio.channels == channels
  {
    var s := Run(rms, polish, Fresh, before);
    RunHangs(rms, polish, Fresh, before);
    if s.owner == Free {
      var listening := StartStep(s, Opened(rate, channels), whisper);
      StartListens(s, rate, channels, whisper);
      PushesAreHeard(rms, polish, listening, batches);
      StoppedIsDelivered(Run(rms, polish, listening, Pushes(batches)), o, polish);
      assert [] + Joined(batches) == Joined(batches);
    }
  }

  lemma StoppedIsDelivered(s: App, o: Outcome, polish: Polish)
    requires s.owner == Mini && s.recording && StoppedTake(s).chunks == [] && s.token !in s.aborted
    ensures
      var stopped := StopStep(s, true, polish);
      var done := TakeReplyStep(stopped, |s.takeJobs|, Decoded(o), polish);
      && done.owner == Free && !done.recording
      && |done.finished| == |s.finished| + 1 && Init(done.finished) == s.finished
      && var f := Last(done.finished);
         && !f.stale && f.outcome == o.(id := f.take.id)
         && f.take.stream == s.stream
         && f.take.audio == Snapshot(s.buffer.raw, s.buffer.rate, s.buffer.channels)
  {
    var stopped := StopStep(s, true, polish);
    TakeReplyStepCases(stopped, |s.takeJobs|, Decoded(o), polish);
  }

  /** The other users of the microphone get it only when it is free or already theirs, and give it back. */
  lemma OthersTakeTurns(s: App, other: Owner, rate: nat, channels: nat)
    requires other == Main || other == VoiceEdit
    ensures
      var s' := OtherStartStep(s, other, rate, channels);
      if !s.recording || s.owner == Free || s.owner == other then
        && s'.owner == other && s'.recording && s'.buffer == Buffer([], 0, rate, channels) && s'.stream == []
        && OtherStopStep(s').owner == Free && !OtherStopStep(s').recording
      else s' == s
    ensures s.owner == Mini ==> OtherStopStep(s) == s
  {
  }

  // ----- Retry and cancel -----

  /** A retry drops what is being decoded under the current token, and decodes the stopped take again, live. */
  lemma RetryDecodesAgain(s: App)
    requires Minted(s) && s.owner == Free && s.retryTake.Some?
    ensures
      var s' := RetryStep(s);
      && |s'.takeJobs| == |s.takeJobs| + 1 && Init(s'.takeJobs) == s.takeJobs
      && Last(s'.takeJobs).take == s.retryTake.value && Live(s', Last(s'.takeJobs)) && !Stale(s', Last(s'.takeJobs))
      && !s'.retryOffered
      && forall i :: 0 <= i < |s.takeJobs| ==>
           && Stale(s', s.takeJobs[i])
           && (Live(s', s.takeJobs[i]) <==> Live(s, s.takeJobs[i]) && s.takeJobs[i].token != s.token)
  {
  }

  /** A voice edit takes a fresh token, so that cancelling it spares whatever is being decoded. */
  lemma VoiceEditSparesDecodes(s: App, hasTarget: bool, rate: nat, channels: nat, i: nat)
    requires Minted(s) && i < |s.takeJobs| && Live(s, s.takeJobs[i])
    ensures
      var s' := CancelStep(VoiceStartStep(s, hasTarget, rate, channels));
      s'.takeJobs == s.takeJobs && Live(s', s.takeJobs[i])
  {
  }

  /** A closed panel has nothing to retry. */
  lemma ClosedPanelRetriesNothing(rms: Measure, polish: Polish, s: App)
    ensures
      var s' := Step(rms, polish, s, ClosePanel);
      Step(rms, polish, s', Retry) == s' && s' == s.(retryTake := s'.retryTake)
  {
  }

  lemma AbortedStays(rms: Measure, polish: Polish, s: App, e: Event)
    ensures s.aborted <= Step(rms, polish, s, e).aborted
  {
  }

  lemma {:induction false} AbortedForGood(rms: Measure, polish: Polish, s: App, events: seq<Event>)
    ensures s.aborted <= Run(rms, polish, s, events).aborted
    decreases |events|
  {
    if events != [] {
      AbortedStays(rms, polish, s, events[0]);
      AbortedForGood(rms, polish, Step(rms, polish, s, events[0]), events[1..]);
    }
  }

  /** After a cancel nothing is left of the current dictation, and whatever was being decoded under its token is dropped
      when it is answered, however much later. */
  lemma CancelledIsDropped(rms: Measure, polish: Polish, s: App, events: seq<Event>, i: nat, reply: Reply)
    ensures s.owner != VoiceEdit ==>
              var s' := CancelStep(s);
              && s'.chunked.None? && s'.retryTake.None? && s'.owner != Mini
              && (s.owner == Mini && s.recording ==> !s'.recording && s'.buffer.raw == [])
    ensures Minted(s) ==> forall i :: 0 <= i < |s.takeJobs| ==> Stale(CancelStep(s), s.takeJobs[i])
    ensures
      var later := Run(rms, polish, CancelStep(s), events);
      i < |later.takeJobs| && later.takeJobs[i].token == s.token ==>
        TakeReplyStep(later, i, reply, polish) == later.(takeJobs := Without(later.takeJobs, i))
  {
    AbortedForGood(rms, polish, CancelStep(s), events);
    var later := Run(rms, polish, CancelStep(s), events);
    if i < |later.takeJobs| && later.takeJobs[i].token == s.token {
      assert s.token in CancelStep(s).aborted;
      TakeReplyStepCases(later, i, reply, polish);
    }
  }
}
