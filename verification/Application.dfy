/** The dictation as the program runs it: an object whose event handlers update its fields in place.
    Every handler is proved to make exactly the step of the `Dictation` machine. */
module Application {
  import opened Wrappers
  import opened Numbers
  import opened Sequences
  import opened Chunking
  import opened AudioBuffers
  import opened Recording
  import opened Dictation

  class DictationApp {
    var owner: Owner
    var recording: bool
    var generation: nat
    var workToken: nat
    var abortedTokens: set<nat>
    var chunked: Option<ChunkedDictation>
    var retryTake: Option<RetryTake>
    var retryOffered: bool
    const buffer: AudioBuffer
    /** What the running take accepted, and what chunk commits released of it. */
    var stream: seq<real>
    var drained: seq<real>
    /** Replies still awaited from the inference worker. */
    var chunkJobs: seq<ChunkJob>
    var takeJobs: seq<TakeJob>
    var finished: seq<Finished>
    var salvaged: seq<Salvaged>

    ghost predicate Wired()
      reads this, buffer
    {
      buffer.Valid()
    }

    /** Between events the machine's invariant holds. */
    ghost predicate Valid()
      reads this, buffer
    {
      Wired() && Inv(State())
    }

    ghost function State(): App
      reads this, buffer
    {
      App(owner, recording, generation, workToken, abortedTokens, chunked, retryTake, retryOffered, buffer.State(), stream, drained,
          chunkJobs, takeJobs, finished, salvaged)
    }

    constructor ()
      ensures Valid() && fresh(buffer)
      ensures State() == Fresh
    {
      owner, recording, generation, workToken, abortedTokens := Free, false, 0, 0, {};
      chunked, retryTake, retryOffered := None, None, false;
      buffer := new AudioBuffer(16_000);
      stream, drained := [], [];
      chunkJobs, takeJobs, finished, salvaged := [], [], [], [];
    }

    method TryAcquire(wanted: Owner) returns (acquired: bool)
      requires Wired()
      modifies this`owner
      ensures Wired()
      ensures acquired == CanAcquire(old(State()), wanted)
      ensures State() == if acquired then old(State()).(owner := wanted) else old(State())
    {
      var busy := recording && owner != Free;
      if busy {
        return owner == wanted;
      }
      owner := wanted;
      return true;
    }

    method StartCapture(rate: nat, channels: nat)
      requires Wired()
      modifies this, buffer
      ensures Wired()
      ensures State() == Capturing(old(State()), rate, channels)
    {
      buffer.Clear();
      buffer.SetSourceParams(rate, channels);
      recording := true;
      stream, drained := [], [];
    }

    /** Stop capturing and free the slot; the buffer is detached only when something was recording. */
    method StopCapture() returns (audio: Snapshot)
      requires Wired()
      modifies this, buffer
      ensures Wired()
      ensures audio == SnapshotAtStop(old(State()))
      ensures State() == Released(old(State()))
    {
      audio := Snapshot([], 16_000, 1);
      if recording {
        audio := buffer.TakeRawSnapshot();
      }
      recording := false;
      owner := Free;
    }

    method ArmWorkCancel()
      requires Wired()
      modifies this`workToken
      ensures Wired() && State() == Armed(old(State()))
    {
      workToken := workToken + 1;
    }

    method AbortDictationWork()
      requires Wired()
      modifies this`workToken, this`abortedTokens
      ensures Wired() && State() == Aborted(old(State()))
    {
      abortedTokens := abortedTokens + {workToken};
      workToken := workToken + 1;
    }

    method StartGlobalDictation(mic: Microphone, whisper: bool)
      requires Valid()
      modifies this, buffer
      ensures Valid() && State() == StartStep(old(State()), mic, whisper)
    {
      StartKeeps(State(), mic, whisper);
      BeginDictation(mic, whisper);
    }

    /** Take the microphone for a new dictation. */
    method BeginDictation(mic: Microphone, whisper: bool)
      requires Wired()
      modifies this, buffer
      ensures Wired() && State() == StartStep(old(State()), mic, whisper)
    {
      retryTake := None;
      var acquired := TryAcquire(Mini);
      if !acquired {
        return;
      }
      BeginGeneration(whisper);
      OpenMicrophone(mic);
    }

    method BeginGeneration(whisper: bool)
      requires Wired()
      modifies this`generation, this`workToken, this`chunked
      ensures Wired()
      ensures State() == old(State()).(generation := old(generation) + 1, token := old(workToken) + 1,
                chunked := if whisper then Some(ChunkedDictation(old(generation) + 1, [], false, false)) else None)
    {
      generation := generation + 1;
      ArmWorkCancel();
      chunked := if whisper then Some(ChunkedDictation(generation, [], false, false)) else None;
    }

    method OpenMicrophone(mic: Microphone)
      requires Wired()
      modifies this, buffer
      ensures Wired() && State() == OpenStep(old(State()), mic)
    {
      match mic {
      case Opened(rate, channels) =>
        StartCapture(rate, channels);
      case Refused(cleared) =>
        if cleared {
          buffer.Clear();
        }
        recording := false;
        owner := Free;
      }
    }

    method OnSamples(samples: seq<real>)
      requires Valid()
      modifies this`stream, buffer
      ensures Valid() && State() == PushStep(old(State()), samples)
    {
      PushKeeps(State(), samples);
      if !recording {
        return;
      }
      var accepted := buffer.PushWithCap(samples, MAX_BUFFER_SAMPLES);
      if accepted {
        stream := stream + samples;
      }
    }

    method MaybeChunkDecode(rms: Measure, timed: bool)
      requires Valid()
      modifies this`chunked, this`chunkJobs
      ensures Valid() && State() == TickStep(rms, old(State()), timed)
    {
      TickKeeps(rms, State(), timed);
      if chunked.None? {
        return;
      }
      var st := chunked.value;
      if st.generation != generation || st.pending || st.disabled || owner != Mini {
        return;
      }
      var chunk := buffer.PeekStableChunk(rms, CHUNK_MIN_SECS, CHUNK_MAX_SECS);
      if chunk.None? {
        return;
      }
      chunked := Some(st.(pending := true));
      chunkJobs := chunkJobs + [ChunkJob(generation, chunk.value, timed)];
    }

    method CommitChunk(at: nat)
      requires Wired()
      modifies this`drained, buffer
      ensures Wired() && State() == CommitStep(old(State()), at)
    {
      drained := drained + buffer.State().Released(at);
      buffer.CommitConsumed(at);
    }

    method OnChunkReply(i: nat, reply: Reply, freshId: nat, polish: Polish)
      requires Valid() && i < |chunkJobs|
      modifies this, buffer
      ensures Valid() && State() == ChunkReplyStep(old(State()), i, reply, freshId, polish)
    {
      ChunkReplyKeeps(State(), i, reply, freshId, polish);
      var job := chunkJobs[i];
      chunkJobs := Without(chunkJobs, i);
      if chunked.None? || chunked.value.generation != job.generation {
        return;
      }
      var st := chunked.value.(pending := false);
      var commitAt: Option<nat> := None;
      match reply {
      case Decoded(outcome) =>
        var (kept, watermark) := SplitChunkOutcome(outcome, CutMs(job.chunk), HoldsBack(job), polish);
        if watermark <= 0.0 {
          chunked := Some(st.(disabled := true));
          return;
        }
        st := st.(results := st.results + [kept]);
        commitAt := Some(RawIndexForMs(job.chunk.regionStart, job.chunk.cut, job.chunk.snapshot.rate,
                                       job.chunk.snapshot.channels, watermark));
      case NoSpeech(_) =>
        st := st.(results := st.results + [Placeholder(job.chunk, freshId)]);
        commitAt := Some(job.chunk.cut);
      case Cancelled(_) =>
        st := st.(disabled := true);
      case Failed(_) =>
        st := st.(disabled := true);
      }
      assert (st, commitAt) == Digested(old(chunked).value.(pending := false), job, reply, freshId, polish);
      chunked := Some(st);
      if commitAt.Some? {
        CommitChunk(commitAt.value);
      }
    }

    method SubmitGlobalTake(take: RetryTake)
      requires Wired()
      modifies this`retryTake, this`retryOffered, this`takeJobs
      ensures Wired() && State() == Submitted(old(State()), take)
    {
      retryTake := Some(take);
      retryOffered := false;
      takeJobs := takeJobs + [TakeJob(take, generation, workToken)];
    }

    method StopGlobalDictation(backendReady: bool, polish: Polish)
      requires Valid()
      modifies this, buffer
      ensures Valid() && State() == StopStep(old(State()), backendReady, polish)
    {
      StopKeeps(State(), backendReady, polish);
      StopAndSubmit(backendReady, polish);
    }

    /** Take the snapshot and the chunk results, and submit or salvage them. */
    method StopAndSubmit(backendReady: bool, polish: Polish)
      requires Wired()
      modifies this, buffer
      ensures Wired() && State() == StopStep(old(State()), backendReady, polish)
    {
      if owner != Mini {
        return;
      }
      var secs := BufferSecs(buffer.State());
      var id := generation;
      var audio := StopCapture();
      var chunks: seq<Outcome> := [];
      if chunked.Some? && chunked.value.generation == generation {
        chunks := chunked.value.results;
      }
      chunked := None;
      var tailSecs := if chunks != [] then DurationSecs(|audio.samples|, audio.rate, audio.channels) else secs;
      var take := RetryTake(id, audio, chunks, secs, tailSecs, stream, drained);
      if backendReady {
        SubmitGlobalTake(take);
      } else if chunks != [] {
        var outcome := CombineChunkedOutcomes(chunks, None, polish, secs, id);
        salvaged := salvaged + [Salvaged(take, outcome.(incomplete := Some("Final audio was not transcribed")))];
      }
    }

    method OnTakeReply(i: nat, reply: Reply, polish: Polish)
      requires Valid() && i < |takeJobs|
      modifies this`takeJobs, this`retryTake, this`retryOffered, this`finished
      ensures Valid() && State() == TakeReplyStep(old(State()), i, reply, polish)
    {
      TakeReplyKeeps(State(), i, reply, polish);
      FinishTake(i, reply, polish);
    }

    /** Drop, record or show the result of a stopped take. */
    method FinishTake(i: nat, reply: Reply, polish: Polish)
      requires Wired() && i < |takeJobs|
      modifies this`takeJobs, this`retryTake, this`retryOffered, this`finished
      ensures Wired() && State() == TakeReplyStep(old(State()), i, reply, polish)
    {
      var job := takeJobs[i];
      takeJobs := Without(takeJobs, i);
      if job.token in abortedTokens {
        return;
      }
      var result := FinishChunkedTake(job.take.chunks, reply, polish, job.take.durationSecs, job.take.id);
      match result {
        case Error(_) => ShowError(job);
        case Complete(outcome) => RecordTake(job, outcome.(id := job.take.id));
      }
    }

    method ShowError(job: TakeJob)
      requires Wired()
      modifies this`retryOffered
      ensures Wired() && State() == ErrorShown(old(State()), job)
    {
      if generation == job.generation && owner != Mini {
        retryOffered := true;
      }
    }

    method RecordTake(job: TakeJob, outcome: Outcome)
      requires Wired()
      modifies this`retryTake, this`retryOffered, this`finished
      ensures Wired() && State() == Recorded(old(State()), job, outcome)
    {
      var stale := generation != job.generation || owner == Mini;
      finished := finished + [Finished(job.take, outcome, stale)];
      if stale {
        return;
      }
      if outcome.incomplete.None? {
        retryTake := None;
      }
      retryOffered := outcome.incomplete.Some? && outcome.cleanedText != "";
    }

    method RetryGlobalDictation()
      requires Valid()
      modifies this
      ensures Valid() && State() == RetryStep(old(State()))
    {
      RetryKeeps(State());
      if owner != Free || retryTake.None? {
        return;
      }
      AbortDictationWork();
      generation := generation + 1;
      SubmitGlobalTake(retryTake.value);
    }

    /** The retry button, which the panel shows only while a retry is offered. */
    method RetryClicked()
      requires Valid()
      modifies this
      ensures Valid() && State() == if old(retryOffered) then RetryStep(old(State())) else old(State())
    {
      if retryOffered {
        RetryGlobalDictation();
      }
    }

    method CancelPressed()
      requires Valid()
      modifies this, buffer
      ensures Valid() && State() == CancelStep(old(State()))
    {
      CancelKeeps(State());
      CancelOwner();
    }

    /** Abort the work under way and let go of the microphone. */
    method CancelOwner()
      requires Wired()
      modifies this, buffer
      ensures Wired() && State() == CancelStep(old(State()))
    {
      AbortDictationWork();
      generation := generation + 1;
      if owner == VoiceEdit {
        var _ := StopCapture();
        AbortDictationWork();
      } else {
        retryTake, chunked := None, None;
        if owner == Mini {
          var _ := StopCapture();
        }
      }
    }
  }
}
