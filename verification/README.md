# Verified model of the dictation core

A Dafny 4.11 model of the parts of a desktop speech-to-text program where text or audio could be lost, duplicated or
sent to the wrong place, with proofs over every input and every run.

    dafny verify dfyconfig.toml

## What is modelled

**Chunked dictation.** While the microphone records, audio is decoded in pieces cut at pauses. Every decoded piece
commits a watermark that releases audio from the capture buffer; at stop, what is left is decoded as the tail and all
texts are combined. `Chunking` holds the level analysis, the cut policy and the commit rule; `AudioBuffers` the capture
buffer and the arithmetic between milliseconds, frames and interleaved samples; `Recording` the splitting and combining
of transcripts. `Pauses`, `Answers` and `Combining` say what these compute in terms of the samples, segments and parts
alone. `Dictation` is the application as a state machine whose events (samples, ticks, replies in any order, stop,
retry, cancel, other owners of the microphone) interleave freely. Over it stand the run-level results: `ExactlyOnce`
(every spoken word once, in order) with `SlicedWords` and `RiskyRuns` (exactly where that fails), `StoppedTakes` (nothing
decoded vanishes, and a dictation is delivered), `Timelines` (drift and segment order), `Progress` (every commit moves
the mark), `Retries` (one live decode per take), `TakeHistory` (one history entry per take) and the conservation and
late-reply results in `Dictation` itself. `Application` is the same machine as an object whose handlers update its fields
in place, each proved to make exactly the machine's step and to keep its invariant.

**Warm worker and sidecar server.** `Wire` is the length-prefixed protocol and the worker's serving loop; `WarmWorker`
the client's read, write, connect and exchange over one child process; `WorkerRuns` all interleavings of requests,
partial transfers, timeouts, cancellations and shutdowns, and `WorkerAnswers` that they lead to answers. `SidecarServer` is the design that takes its server out of the
slot and puts it back.

**Text.** `Text` (trimming, words, joining), `Hallucinations` and `SignOffTable` (stripping sign-offs through a
lowercased copy), `Dictionary` (replacement rules), `Cleanup` (whitespace and capitals), `EditDistance` (word error
scoring).

**Small protocols.** `ConfigWriting` (one coalescing writer thread), `KeyChords` and `Delivery` (typing the paste
shortcut), `History` and `HistorySaves` (one entry per id, snapshots saved out of order).

Samples, levels and durations are `real`: rounding of 32- and 64-bit floats is not the point here, and every rounding
the code writes out (round, truncation, flooring to frames) is modelled. The loudness of a frame is an unknown
function of its samples. A decoder is an unknown function with a stated contract. Lowercasing, uppercasing
and the alphabetic and alphanumeric tests are parameters with the axioms each theorem needs.

### The contract of the decoder

`ExactlyOnce.Trusted` states what the exactly-once theorem asks of a decoder, against the true words of each take laid
out on its timeline. It depends on the audio only, not on which decoder it is. A chunk cut in verified silence, and the
tail, are transcribed faithfully, and no word crosses such a cut. A chunk cut elsewhere is faithful up to half a second
before the cut, reports a segment reaching into that half second when a word is spoken there or crosses the cut, and
starts that segment no later than the first word it got wrong. Words last at least one frame, and where a millisecond is
not a whole number of frames half a sample of slack separates that segment's start from the first word it got wrong.

## What the proofs found

- `ExactlyOnce`, `SlicedWords` and `RiskyRuns`: committed text can be wrong. A take starts chunking only on the backend
  with segment timings (src/application.rs:701-706), but every tick reads the configuration again
  (src/application.rs:984-985). When the backend is switched while a take records, a chunk cut at a risky place goes to a
  decoder without timings, nothing is held back (src/application.rs:1034), and the chunk is committed whole, whatever the
  cut sliced, against the promise at src/audio/chunking.rs:18-25. `MangledExactlyWhenUnguarded` gives the condition for one
  chunk: its commit is exact for every trusted reply if and only if its cut was verified quiet or its decoder reports
  timings. `EndsWrongExactlyWhenRisky` gives it for runs: after any trusted run without a risk, an event can lead to a
  finished transcript that is wrong, with every contract kept and no risk after it, if and only if it is a tick that hands
  out a chunk that meets neither. `SwitchingLosesAWord` is such a run from the fresh program.
- `SidecarServer`: the comment at src/transcription/sidecar_server.rs:204-207 says that no live server slips past a
  shutdown. A request that reads the epoch after a shutdown's bump, and takes a server it will reuse out of the slot
  before that shutdown's take, puts the old server back under the new epoch
  (src/transcription/sidecar_server.rs:131-143). `OldServerCanBeTakenOut` reaches that take-out, and
  `SurvivesExactlyWhenTakenOut` proves that it is the only way to a survivor. The slot-resident `WarmWorker` has none.
- `HistorySaves`: the comment at src/ui/history_page.rs:743-747 orders the first read after any background append in
  flight. The lock only keeps the two from overlapping. `AppendIsLostExactly`: after an append some run that does not
  delete, clear or expire the entry leaves it off the disk if and only if a waiting snapshot that may still be written does
  not hold it, or the page has read the file already, does not know the entry and can still write a snapshot;
  `LateAppendIsLost` is the input. The same condition governs every entry of the file (`LosableExactly`). The save threads
  and their counters are the program's, not the window's (src/ui/history_page.rs:849-880), so what the load found can be
  lost exactly to a snapshot of an earlier window still waiting to be written (`NothingOnDiskIsLost`).
- `AudioBuffers`: below 1000 Hz a positive watermark may not move the mark at all (`SlowSourceStalls`); `AdvancesExactly`
  says when it does.
- `AudioBuffers`: the comment at src/audio/buffer.rs:144-146 says that samples past the cap are dropped; the code refuses
  the whole batch, and the model follows the code (`PushWithCap`).

## Model

| member | source | states |
|---|---|---|
| `Chunking.AnalyzeLevels` | src/audio/chunking.rs:104-129 | The in-place analysis loop computes the specified levels: smoothed peak, floor percentile, capped threshold. |
| `Chunking.SortedIsPermutation` | src/audio/chunking.rs:117-121 | The sort the noise floor is read from keeps every level, with multiplicity. |
| `Chunking.ThresholdFor` | src/audio/chunking.rs:122-129 | The silence threshold is the number between the two clamps nearest to three times the noise floor or 15% of the speech level, whichever is less. |
| `Pauses.AnalysisIsExact` | src/audio/chunking.rs:104-129 | Stated of the samples alone: each smoothed level is three tenths of its frame and seven tenths of the level before, the speech level is their peak, at most a tenth of them lie below the floor and more than a tenth at or below it, and the threshold is nearest to the pause level. |
| `Pauses.AnalysisIsUnique` | src/audio/chunking.rs:104-129 | Those clauses admit one result, so they specify the analysis completely. |
| `Chunking.SmoothIsBounded` | src/audio/chunking.rs:104-116 | The moving average never exceeds a bound that all frames respect. |
| `Chunking.SpeechLevelBelowLoudestFrame` | src/audio/chunking.rs:104-116 | The speech level is at most the loudest analysis frame. |
| `Chunking.ChooseCut` | src/audio/chunking.rs:135-181 | The scan loop over window positions returns the specified cut. |
| `Chunking.ChosenCutMeetsPolicy` | src/audio/chunking.rs:135-181 | The cut is the earliest window under the threshold; with none, the first quietest one if forced, and then never verified; otherwise nothing. |
| `Chunking.PickPolicyIsDeterministic` | src/audio/chunking.rs:135-181 | That policy admits one answer, so it specifies the scan completely. |
| `Chunking.CutIsInRange` | src/audio/chunking.rs:135-181 | A chosen cut lies in the scanned range and on a frame boundary. |
| `Chunking.MidCut` | src/audio/chunking.rs:249-253 | The cut is the middle of the window floored to a whole frame, never before the window. |
| `Chunking.NoPauseInsideSpeech` | src/audio/chunking.rs:104-163 | If every scanned window is at least 15% of the loudest frame and above the absolute minimum, an unforced scan finds no cut. |
| `Pauses.CutIsFoundExactly` | src/audio/chunking.rs:135-181 | A scan finds a cut if and only if some window, counted from the start of the range, is under the threshold, or the scan is forced and there is a window. |
| `Pauses.QuietWindowIsCut` | src/audio/chunking.rs:104-181 | The converse of no pause inside speech: a scanned window quieter than three times the floor, 15% of the peak and the upper clamp is always found. |
| `Chunking.PeakFrameIsTight` | src/audio/chunking.rs:240-246 | The peak of a window bounds every analysis frame in it and is attained. |
| `Chunking.VerifiedCutIsQuiet` | src/audio/chunking.rs:150-163 | A verified cut is the middle of a window under the threshold whose every frame is at most a quarter of the loudest frame. |
| `Chunking.SplitCommit` | src/audio/chunking.rs:195-229 | What is kept is a prefix of the segments, and if anything is held back the kept ones end by the watermark, which lies between 0 and the cut. |
| `Chunking.CommitsWholeExactly` | src/audio/chunking.rs:195-229 | Everything is kept if and only if nothing is to be held back: no hold-back, no timings, or no segment reaching the guard; and then the watermark is the cut. |
| `Chunking.CommitsPartExactly` | src/audio/chunking.rs:214-228 | With a first segment ending in the last half second: nothing is committed if and only if it starts at or before 0 or an earlier one ends after the lesser of its start and the cut; otherwise exactly the segments before it, up to that time. |
| `AudioBuffers.RawIndexForMs` | src/audio/buffer.rs:105-118 | The index for a time lies between region start and cut and, from an aligned start, on a frame boundary. |
| `AudioBuffers.IndexTracksTime` | src/audio/buffer.rs:105-118 | It is within one frame below and half a sample above the exact position of the time. |
| `AudioBuffers.IndexIsExact` | src/audio/buffer.rs:105-118 | A time that is a whole number of frames is mapped exactly. |
| `AudioBuffers.WholeMillisecondsAreFrames` | src/audio/buffer.rs:105-118 | At rates divisible by 1000 every whole millisecond is a whole number of frames. |
| `AudioBuffers.AdvancesExactly` | src/audio/buffer.rs:105-118 | A watermark advances the mark if and only if it rounds to at least one frame of samples. |
| `AudioBuffers.WatermarkMakesProgress` | src/audio/buffer.rs:105-118 | From 1000 Hz on, a time of at least a millisecond is mapped past the region start. |
| `AudioBuffers.SlowSourceStalls` | src/audio/buffer.rs:105-118 | Below 1000 Hz it may not be: one millisecond at 400 Hz. |
| `Progress.DigestedAdvances` | src/application.rs:1038-1061 | At 1000 Hz and above, whatever index a reply commits lies strictly after the start of its region. |
| `Progress.CommitAdvances` | src/application.rs:1012-1091 | A reply that adds a result moves the mark by at least a frame; any other leaves the buffer alone. |
| `Progress.EveryCommitAdvances` | src/application.rs:958-1093 | In every run, every committing reply of a take at 1000 Hz or more strictly advances the mark, so a take has no more results than frames released. |
| `AudioBuffers.PeekIsBounded` | src/audio/buffer.rs:209-262 | A peeked chunk starts at the mark, holds exactly the audio up to its cut, is frame-aligned and at least the minimum and less than the maximum long. |
| `AudioBuffers.FullRegionIsCut` | src/audio/buffer.rs:209-262 | A region that has reached the maximum always yields a chunk when one window fits. |
| `Pauses.ChunkIsFoundExactly` | src/audio/buffer.rs:209-262 | There is a chunk if and only if the range from the minimum to the maximum holds a window of the audio, and the region has reached its maximum or a window of the range is under the threshold. |
| `Pauses.ChunkEndsInFirstPause` | src/audio/buffer.rs:233-262 | The chunk ends in the middle of the first pause, and is verified if and only if every frame there is at most a quarter of the speech level; without a pause it is not verified. |
| `Pauses.AtSixteenKilohertz` | src/audio/buffer.rs:214-231 | The minimum, the maximum, the window and the frame at 16 kHz, in samples. |
| `AudioBuffers.AudioBuffer.PushWithCap` | src/audio/buffer.rs:151-158 | Samples are appended whole or refused whole, at the cap. |
| `AudioBuffers.AudioBuffer.SetSourceParams` | src/audio/buffer.rs:131-135 | Only the source format changes. |
| `AudioBuffers.AudioBuffer.Clear` | src/audio/buffer.rs:179-183 | The buffer is empty and nothing is consumed; the format stays. |
| `AudioBuffers.AudioBuffer.TakeRawSnapshot` | src/audio/buffer.rs:187-196 | The snapshot is the accepted stream after the consumed mark; the buffer is left empty. |
| `AudioBuffers.AudioBuffer.PeekStableChunk` | src/audio/buffer.rs:209-262 | A peek changes nothing and returns the specified chunk. |
| `AudioBuffers.AudioBuffer.CommitConsumed` | src/audio/buffer.rs:266-271 | Committing drops exactly the samples up to the cut; the accepted stream is unchanged. |
| `Recording.SplitIsConsistent` | src/recording.rs:715-755 | A split outcome lasts exactly its watermark, keeps a prefix of the segments, and when cut short its text is exactly the words of the segments kept. |
| `Recording.SplitIsOrdered` | src/recording.rs:715-755 | Ordered segments stay ordered and end by the part's duration, held back or not. |
| `Answers.AnswerIsExact` | src/application.rs:1012-1088 | An answer blocks, changing no result, retiring no audio and ending chunking, if and only if it failed, its chunk is empty, or its held segment is ambiguous; otherwise it adds one result and leaves chunking on: the placeholder, the decode whole at its cut, or the decode cut short, field by field, at the held segment. |
| `Answers.OrderedIsNotAmbiguous` | src/audio/chunking.rs:219-228 | Ordered segments whose held one starts after 0 never block, touching ones included. |
| `Answers.CurrentReply` | src/application.rs:1012-1091 | In the machine, an answer to the current chunk adds a result and leaves chunking as it was, unless it blocks. |
| `Answers.ChunkingGoesOn` | src/application.rs:958-1091 | After any run in which no answer blocked, a take decoded in chunks has one in flight, or the next tick hands out the chunk there is. |
| `Recording.CombineChunkedOutcomes` | src/recording.rs:605-675 | The combining loop (offsets, confidence sum, segments) computes the specified outcome. |
| `Recording.CombinedWords` | src/recording.rs:605-675 | The words of the combined text are those of all parts, in order, none lost or invented. |
| `Recording.CombinedIsOrdered` | src/recording.rs:621-635 | Ordered parts combine to segments that are sorted, disjoint and end by the total offset. |
| `Recording.ConfidenceIsAverage` | src/recording.rs:623-636 | The combined confidence stays within any bounds of the known confidences, and is 0 only if that is within them or none is known. |
| `Combining.SegmentIsPlaced` | src/recording.rs:621-629 | Every segment of every part is in the combined list, at its place and with its text, later by the rounded durations of the parts before, and there are no others. |
| `Combining.ConfidenceIsWeightedMean` | src/recording.rs:623-636 | The known confidences deviate from the combined one by nothing in sum, weighted by duration, a tenth of a second at least; with none known it is 0. |
| `Combining.CombinedFields` | src/recording.rs:605-675 | The id is the first part's, the mark of incompleteness and the language the first found, the duration the whole take's, and the text is polished once, with the confidence if every part with text knows its own. |
| `Text.WordsOfJoinTrimmed` | src/recording.rs:615-620 | Trimming the parts, dropping empty ones and joining with spaces keeps exactly the words, in order. |
| `Text.TrimIsExact` | src/recording.rs:615-620 | Trimming drops the whitespace around a text and nothing else. |
| `Text.JoinIsSpaced` | src/recording.rs:615-620 | Between two joined texts stands one space. |
| `Dictation.AudioIsConserved` | src/application.rs:770-1093 | In every run, released audio followed by the buffer is all that was accepted; every finished take holds exactly its audio, carries its own id, and with no chunk results released nothing. |
| `Dictation.RunKeeps` | src/application.rs:356-382 | Over every run at most one chunk of the current take is in flight, it starts at the buffer's mark and holds exactly the audio there. |
| `Dictation.CommitIsInRegion` | src/application.rs:1012-1088 | A commit lies on a frame between region start and cut and adds one result; a failed or stalled chunk changes no result and ends chunking. |
| `Dictation.CommitReleasesOnlyDecodedAudio` | src/application.rs:1089-1091 | What a reply releases is a prefix of the audio that was decoded for it. |
| `Dictation.ObsoleteReplyIsIgnored` | src/application.rs:1012-1021 | A reply of another generation changes nothing. |
| `Dictation.LeavingEndsTheTake` | src/application.rs:689-799 | Start, stop and cancel end the running take for its chunk replies. |
| `Dictation.LateReplyNeverCommits` | src/application.rs:797-1021 | A reply that comes after its take was stopped, cancelled or restarted, however much later, changes no buffer, result or delivery. |
| `StoppedTakes.DictationIsDelivered` | src/application.rs:689-932 | After any run that leaves the microphone free: start, pushes that fit, stop and the answer of the one decode finish a current take that holds exactly what was pushed and is what the decoder made of it. |
| `StoppedTakes.StopKeepsTheTake` | src/application.rs:770-858 | A stop hands the take to the decoder with all its results and audio, or salvages its results when the backend is not ready. |
| `StoppedTakes.StopMeasures` | src/application.rs:776-845 | A stopped take lasts as many frames as it accepted. |
| `StoppedTakes.TailMeasures` | src/application.rs:835-842 | Its tail, once chunks were decoded, lasts as long as what is left of it. |
| `StoppedTakes.StoppedTakeIsKept` | src/application.rs:770-951 | Ever after, in every run, a take stopped with a backend or with results is being decoded live, finished with at least the words of its chunks, or salvaged with exactly those, unless it is cancelled while being decoded under the current token or its decode gives nothing. |
| `StoppedTakes.AnswerIsRecorded` | src/application.rs:886-932 | The answer to a live decode is recorded, stale or not, with the words of chunks and tail and the first mark of incompleteness, unless it gives nothing; a retry is offered if and only if a current one is incomplete with text, or an error is shown. |
| `StoppedTakes.RetryDecodesAgain` | src/application.rs:860-871 | A retry drops what is decoded under the current token and decodes the same take again, live. |
| `StoppedTakes.CancelledIsDropped` | src/application.rs:1770-1786 | After a cancel nothing is left of the dictation, everything still being decoded is stale, and what was decoded under its token is dropped when it is answered, however much later. |
| `StoppedTakes.FinishSays` | src/recording.rs:678-707 | The error of a decode that gives nothing is passed on; else the words of the parts, the message of a failed tail or the first mark of a part, the whole duration, and a text polished once. |
| `StoppedTakes.VoiceEditSparesDecodes` | src/application.rs:1379-1403 | A voice edit takes a fresh token, so cancelling it aborts no decode under way. |
| `StoppedTakes.OthersTakeTurns` | src/recording.rs:917-924 | Other users of the microphone get it if and only if it is idle, unowned or theirs, and give it back. |
| `ExactlyOnce.WordsAppearExactlyOnce` | src/application.rs:770-1093 | Over every run with decoders meeting their contract in which no tick hands a risky chunk to a decoder without timings, a finished take has exactly its true words, each once, in order; salvaged texts and the running take's commits are prefixes of them. |
| `ExactlyOnce.DigestedIsExact` | src/application.rs:1023-1079 | One trusted reply to a chunk that was cut in verified quiet or has timings extends the committed words to exactly those before the new mark, or commits nothing. |
| `ExactlyOnce.HeldIsExact` | src/audio/chunking.rs:195-229 | A held-back chunk commits exactly the words before its watermark. |
| `ExactlyOnce.WatermarkSeparates` | src/audio/buffer.rs:105-118 | The sample index of the watermark falls between the last word kept and the first held back, despite both roundings. |
| `ExactlyOnce.CutCommitsWhole` | src/recording.rs:745-753 | A chunk kept whole moves the mark to its cut exactly. |
| `ExactlyOnce.FinishIsExact` | src/recording.rs:678-707 | Chunks and tail together are the true words; without speech in the tail the chunks alone are; no speech at all means no words. |
| `ExactlyOnce.SalvagedIsExact` | src/application.rs:938-951 | What is salvaged of a take whose tail is not decoded is a prefix of its words. |
| `SlicedWords.MangledExactlyWhenUnguarded` | src/application.rs:1028-1037 | A chunk's commit is exact for every trusted reply if and only if its cut was verified quiet or its decoder reports timings. |
| `SlicedWords.UnguardedIsMangled` | src/application.rs:1028-1042 | Any other chunk, whatever was committed exactly before it, answered with one whole-clip segment, is committed whole up to its cut, with a word sliced. |
| `SlicedWords.LoudTakeIsCutAtRisk` | src/audio/buffer.rs:209-262 | Forty seconds of even speech are cut, and the cut is not verified quiet. |
| `RiskyRuns.EndsWrongExactlyWhenRisky` | src/application.rs:984-1061 | After any trusted run without a risk, an event can lead to a wrong finished take, with every contract kept and no risk after it, if and only if it is a tick that hands a chunk cut at a risky place to a decoder without timings. |
| `RiskyRuns.RetoldIsTrusted` | src/application.rs:1012-1093 | A trusted run to a chunk about to be cut stays trusted when the take's words from that chunk on are others: no earlier reply depends on them. |
| `RiskyRuns.TakeGoesOnward` | src/application.rs:1038-1091 | Within a take the mark only grows, the format stays, and chunking once disabled stays so. |
| `RiskyRuns.SwitchingLosesAWord` | src/application.rs:984-1061 | From a fresh program a take of forty seconds of even speech, its backend switched before the first tick, can finish wrong and not marked incomplete, with every contract kept. |
| `Timelines.TimelinesStayTogether` | src/recording.rs:621-635 | While dictating, after k committed chunks the combining offset is within k times (one frame and half a millisecond) of the buffer's mark; every finished take's segments are ordered. |
| `Timelines.DigestedIsTimed` | src/application.rs:1035-1079 | Each committed outcome, the no-speech placeholder included, adds at most one such step of drift. |
| `Timelines.DriftGrowsByOneChunk` | src/recording.rs:621-629 | One part landing within a frame of its duration adds at most a frame and half a millisecond. |
| `Timelines.FinishIsOrdered` | src/recording.rs:678-707 | Ordered chunks and an ordered tail finish as ordered segments. |
| `Retries.RetryIsSafeExactly` | src/application.rs:860-871 | The retry handler leaves a single live decode of the take if and only if the old ones hang on the current token. |
| `Retries.OneDecodePerTake` | src/application.rs:860-932 | In every run no take has two decodes that can still be recorded, and while a retry is offered its take has none. |
| `Application.DictationApp.TryAcquire` | src/recording.rs:917-924 | The microphone goes to the asker if idle, unowned or already his; otherwise nothing changes. |
| `Application.DictationApp.StartGlobalDictation` | src/application.rs:689-768 | Start makes exactly the machine's step on all fields. |
| `Application.DictationApp.StopGlobalDictation` | src/application.rs:770-858 | Stop makes exactly the machine's step: snapshot, chunk results, submitted take. |
| `Application.DictationApp.MaybeChunkDecode` | src/application.rs:958-1005 | A tick makes exactly the machine's step: at most one chunk handed out. |
| `Application.DictationApp.OnChunkReply` | src/application.rs:1006-1093 | A chunk reply makes exactly the machine's step, in place. |
| `Application.DictationApp.OnTakeReply` | src/application.rs:886-932 | A take reply makes exactly the machine's step: dropped, recorded or delivered. |
| `Application.DictationApp.RetryGlobalDictation` | src/application.rs:860-871 | Retry makes exactly the machine's step. |
| `Application.DictationApp.RetryClicked` | src/application.rs:875-928 | The button acts only while a retry is offered. |
| `Application.DictationApp.CancelPressed` | src/application.rs:1770-1786 | Cancel makes exactly the machine's step. |
| `Wire.Le32RoundTrip` | src/transcription/parakeet_worker.rs:143-149 | A 32-bit length survives its little-endian encoding. |
| `Wire.Le16RoundTrip` | src/transcription/parakeet_worker.rs:152-158 | A signed 16-bit sample survives its encoding, two's complement included. |
| `Wire.SamplesArriveIntact` | src/transcription/parakeet_worker.rs:150-166 | The samples read back are exactly the clamped, 16-bit quantised samples sent. |
| `Wire.PcmIsClose` | src/transcription/parakeet_worker.rs:150-158 | A sample is limited to -1 and 1 and written as a whole number of 32767ths, less than one of them nearer to zero. |
| `Wire.QuantizedIsPcm` | src/transcription/parakeet_worker.rs:500-509 | Each sample heard is that number divided by 32768. |
| `Wire.Serve` | src/transcription/parakeet_worker.rs:475-520 | The serving loop writes the ready mark and then one framed answer per whole request, stopping at the first failure. |
| `Wire.ReadSamples` | src/transcription/parakeet_worker.rs:494-509 | The sample loop reads exactly the announced number of samples or reports a short read. |
| `Wire.RepliesGrow` | src/transcription/parakeet_worker.rs:475-520 | More input never changes answers already given. |
| `Wire.AnsweredThen` | src/transcription/parakeet_worker.rs:475-520 | After a request stream answered in full, further requests are answered as if they came first. |
| `Wire.RequestIsAnswered` | src/transcription/parakeet_worker.rs:475-520 | One encoded request whose decode is neither empty nor longer than 8 MiB is answered by exactly that, framed; any other by nothing. |
| `WarmWorker.Read` | src/transcription/parakeet_worker.rs:270-304 | Any schedule of partial reads returns exactly the next n bytes of the stream, or fails; with nothing stopping it, n bytes there and n turns that move, it returns them. |
| `WarmWorker.WriteRequest` | src/transcription/parakeet_worker.rs:143-166 | Any schedule of partial writes that succeeds has sent exactly the encoded request, and with enough turns that move it succeeds. |
| `WarmWorker.ReplyIsExact` | src/transcription/parakeet_worker.rs:167-178 | A size and body read after an idle point are exactly the decode of this request, and leave the stream idle again. |
| `WarmWorker.WarmWorker.Connection` | src/transcription/parakeet_worker.rs:191-268 | The process handed out is alive, the one asked for, with nothing in flight; a matching live one is reused; with six turns that move there is one. |
| `WarmWorker.ReadReply` | src/transcription/parakeet_worker.rs:167-178 | The reply read is the decode of exactly this request, and with enough turns that move it is read. |
| `WarmWorker.WarmWorker.Transcribe` | src/transcription/parakeet_worker.rs:120-189 | The lock is got if and only if the audio fits and it comes free before the wait is stopped. A result is the decode of exactly this request by a process of its spec, the matching live one if there was one; it comes whenever nothing stops the request, enough turns move and the decode is worth an answer. A failed request that held the lock leaves the slot empty; one that never got it changes nothing. |
| `WorkerRuns.ResponsesMatchRequests` | src/transcription/parakeet_worker.rs:98-340 | In every interleaving every response is the decode of its own request by a process of the spec it asked for, and when no request holds the lock the slot is empty or idle in both directions. |
| `WorkerAnswers.WaitingIsAnswered` | src/transcription/parakeet_worker.rs:98-340 | From every state a run can reach, a waiting request that no shutdown has overtaken and whose decode is worth an answer can get exactly that answer. |
| `WorkerAnswers.FreeLockAnswers` | src/transcription/parakeet_worker.rs:191-210 | With the lock free it gets it without a new process if the slot holds a live one of its spec. |
| `WorkerRuns.ShutdownLeavesNoSurvivor` | src/transcription/parakeet_worker.rs:98-268 | With no shutdown between bump and take, a live process of an older epoch is not in the slot: its taker is about to kill it, or a request that cannot publish it holds it. |
| `WorkerRuns.OldProcessIsNotPublished` | src/transcription/parakeet_worker.rs:263-267 | A process started under an old epoch is killed instead of published. |
| `WorkerAnswers.ShutdownKills` | src/transcription/parakeet_worker.rs:98-107 | A shutdown bumps the epoch, empties the slot and kills the process that was there. |
| `SidecarServer.Slot.TakeRunning` | src/transcription/sidecar_server.rs:100-106 | Taking the server empties the slot. |
| `SidecarServer.Slot.InstallRunning` | src/transcription/sidecar_server.rs:208-220 | A server is installed if and only if the epoch is the one its request started in; otherwise it is killed and the slot is untouched. |
| `SidecarServer.Slot.BeginRequest` | src/transcription/sidecar_server.rs:118-129 | The epoch is read once the request lock is held. |
| `SidecarServer.Slot.ReuseOrKill` | src/transcription/sidecar_server.rs:131-142 | A matching live server is kept; any other is killed. |
| `SidecarServer.Slot.ShutdownAll` | src/transcription/sidecar_server.rs:225-232 | Shutdown bumps the epoch, empties the slot and kills what was in it. |
| `SidecarServer.RunIsSafe` | src/transcription/sidecar_server.rs:108-232 | In every interleaving every live server is in the slot or held by the one request. |
| `SidecarServer.RequestIsServed` | src/transcription/sidecar_server.rs:128-143 | A request on a free lock, without a shutdown meanwhile, is served by a live server of its spec, the one in the slot if that is one, and leaves it in the slot. |
| `SidecarServer.LostServerIsReplacedOnce` | src/transcription/sidecar_server.rs:150-178 | A server whose connection is lost is killed and replaced, once. |
| `SidecarServer.FailureEmptiesTheSlot` | src/transcription/sidecar_server.rs:180-186 | A request that fails for good leaves the slot empty and its server killed. |
| `SidecarServer.NoSurvivorFromTheStart` | src/transcription/sidecar_server.rs:131-232 | If no request that has seen the current epoch takes out an older server it will reuse, no server survives a completed shutdown. |
| `SidecarServer.TakingOldOutLetsItSurvive` | src/transcription/sidecar_server.rs:131-143 | If one does, all shutdowns under way can complete with the old server back in the slot, alive. |
| `SidecarServer.SurvivesExactlyWhenTakenOut` | src/transcription/sidecar_server.rs:131-232 | After any run without such a take-out, taking the slot out can lead to a survivor with no further one if and only if it is one. |
| `SidecarServer.OldServerCanBeTakenOut` | src/transcription/sidecar_server.rs:131-143 | Such a take-out is reachable. |
| `EditDistance.EditDistance` | scripts/benchmark.py:20-27 | The rolling-row loop computes the distance given by its recurrence. |
| `EditDistance.NoScriptIsCheaper` | scripts/benchmark.py:20-27 | No edit script from one list to another costs less than their distance. |
| `EditDistance.SomeScriptIsExact` | scripts/benchmark.py:20-27 | Some script costs exactly the distance. |
| `EditDistance.ZeroExactlyWhenEqual` | scripts/benchmark.py:20-27 | The distance is zero if and only if the lists are equal. |
| `EditDistance.Symmetric` | scripts/benchmark.py:20-27 | The distance is symmetric. |
| `EditDistance.Triangle` | scripts/benchmark.py:20-27 | The triangle inequality holds. |
| `EditDistance.AtMostTheLonger` | scripts/benchmark.py:20-27 | The distance is at most the longer length. |
| `EditDistance.AtLeastTheDifference` | scripts/benchmark.py:20-27 | The distance is at least the difference of the lengths. |
| `Hallucinations.LowerWithOffsets` | src/transcription/postprocess.rs:99-104 | The loop builds the lowercased copy and, for every source character, its byte offset in the copy and in the text. |
| `Hallucinations.StripPhrase` | src/transcription/postprocess.rs:99-119 | One phrase strips the text from the phrase's last occurrence, if that starts on a source character and only trailing punctuation follows, and otherwise leaves it. |
| `Hallucinations.StripIsUnique` | src/transcription/postprocess.rs:99-119 | That specification admits one result. |
| `Hallucinations.PhraseMayBePunctuated` | src/transcription/postprocess.rs:106-112 | What may follow a phrase at the end is whitespace and the eight closing marks, and nothing else. |
| `Hallucinations.NotesAreDropped` | src/transcription/postprocess.rs:121-123 | Note signs are dropped and nothing else. |
| `Hallucinations.OuterPunctuationIsDropped` | src/transcription/postprocess.rs:74-81 | Comparing with the table ignores the marks and spaces around a text and nothing inside it. |
| `Hallucinations.TruncateAt` | src/transcription/postprocess.rs:115-117 | The mapped offset is a character boundary of the text, so the truncation is defined and cuts there. |
| `Hallucinations.StripIsSound` | src/transcription/postprocess.rs:92-120 | What a phrase strips is, lowercased, the phrase and trailing punctuation and nothing else; the rest is a prefix. |
| `Hallucinations.OnlyPhrasesAreStripped` | src/transcription/postprocess.rs:92-120 | Over all phrases the result is a prefix of the text, and what was stripped is a run of table phrases each with trailing punctuation. |
| `Hallucinations.ByLengthIsLongestFirst` | src/transcription/postprocess.rs:86-90 | The order tried is a permutation of the table, longest in bytes first. |
| `Hallucinations.NoPhraseIsLeftBehind` | src/transcription/postprocess.rs:83-120 | If the text ends in a table phrase, nothing of that phrase survives, whichever shorter phrases it contains. |
| `SignOffTable.TableLeavesNoOrphan` | src/transcription/postprocess.rs:8-120 | That holds for the table as declared. |
| `Hallucinations.StripHallucinations` | src/transcription/postprocess.rs:71-125 | A text that is a phrase becomes empty; otherwise the loop strips phrase by phrase, then removes note signs and trims. |
| `Dictionary.ReplaceRule` | src/transcription/postprocess.rs:258-289 | The scan replaces exactly the leftmost non-overlapping eligible matches, word boundaries judged on the original text. |
| `Dictionary.LeftmostIsUnique` | src/transcription/postprocess.rs:258-289 | There is one such choice of matches. |
| `Dictionary.ReplacementIsUnique` | src/transcription/postprocess.rs:258-289 | So a rule's result is one definite text. |
| `Dictionary.OnlyMatchIsReplaced` | src/transcription/postprocess.rs:249-289 | Where a text reads as the pattern once, up to case if case does not matter, and not inside a word if whole words are asked for, exactly that is replaced. |
| `Dictionary.UnmatchedIsKept` | src/transcription/postprocess.rs:249-289 | A text that reads as the pattern nowhere, or only inside words where whole words are asked for, is left as it is. |
| `Dictionary.PiecesAreTheInput` | src/transcription/postprocess.rs:258-289 | Kept and matched pieces concatenate back to the input. |
| `Dictionary.SelfReplacementIsIdentity` | src/transcription/postprocess.rs:258-289 | A case-sensitive rule that replaces a text by itself changes nothing. |
| `Dictionary.SpellingOfFromIsIrrelevant` | src/transcription/postprocess.rs:249-256 | Ignoring case, any spelling of the text to find makes the same rule. |
| `Dictionary.ApplyReplacements` | src/transcription/postprocess.rs:229-247 | Rules apply in order, each to what the one before left; a blank one is skipped. |
| `Dictionary.ReplacementsAreUnique` | src/transcription/postprocess.rs:229-247 | The result of all rules is one definite text. |
| `Cleanup.CleanupTranscript` | src/transcription/postprocess.rs:168-201 | The loop computes the specified pass. |
| `Cleanup.CleanedIsItsWords` | src/transcription/postprocess.rs:168-201 | The pass yields the text's words, capitalised where they start a sentence, joined by single spaces. |
| `Cleanup.CapitalsAreExact` | src/transcription/postprocess.rs:183-195 | A letter after a full stop, an exclamation or a question mark is written as its capital, any other character as it is. |
| `Cleanup.WordsFollow` | src/transcription/postprocess.rs:174-198 | The words are judged one after the other, each after the last character of the one before. |
| `Cleanup.CleaningTwiceIsCleaningOnce` | src/transcription/postprocess.rs:168-201 | Where uppercasing is stable, a second pass changes nothing. |
| `ConfigWriting.RunKeeps` | src/config_writer.rs:34-120 | In every interleaving: the pending job is the newest, the job in hand the newest before it, and the file is the newest write that succeeded. |
| `ConfigWriting.FlushOkMeansLatest` | src/config_writer.rs:78-96 | A flush that returns Ok after a submit means the disk holds the configuration submitted last. |
| `ConfigWriting.NothingOlderIsWritten` | src/config_writer.rs:34-57 | Written numbers strictly increase, each a submitted configuration. |
| `ConfigWriting.ExitMeansDrained` | src/config_writer.rs:39-56 | When the worker has exited, the configuration submitted last was tried. |
| `ConfigWriting.CloseDrains` | src/config_writer.rs:109-120 | Once closed, the worker exits after at most six of its own steps, whatever its writes do. |
| `ConfigWriting.EverySubmissionCounts` | src/config_writer.rs:65-71 | The submitted configurations are those of the run before it closes, all of them, in order. |
| `ConfigWriting.WorkerSettles` | src/config_writer.rs:34-57 | After at most five steps of the worker nothing is outstanding, and no error is left if their writes succeed. |
| `ConfigWriting.LatestIsWritten` | src/config_writer.rs:34-107 | After any run, unless the last submission has failed already, five such steps put it on the disk; a flush returns Ok and the status is Persisted. |
| `ConfigWriting.ConfigWriter.Submit` | src/config_writer.rs:65-71 | Submitting numbers the configuration and replaces the pending one. |
| `ConfigWriting.ConfigWriter.TakeJob` | src/config_writer.rs:37-46 | The worker leaves with the pending job, leaves for good when closed, or waits on. |
| `ConfigWriting.ConfigWriter.Report` | src/config_writer.rs:52-55 | The number written and its error are reported together. |
| `ConfigWriting.ConfigWriter.ReadStatus` | src/config_writer.rs:99-107 | The status is Persisted if and only if a flush would return Ok now. |
| `ConfigWriting.ConfigWriter.FlushLook` | src/config_writer.rs:78-96 | A flush answers once nothing is outstanding, with the last error, and gives up at its deadline; Ok after a submit means the disk holds the latest. |
| `KeyChords.NoKeyIsLeftHeld` | src/portal/paste.rs:553-586 | After a chord cut at any key, no key is down. |
| `KeyChords.ClonesTypeOneChord` | src/portal/paste.rs:75-81 | However the clones of one request interleave, what they typed together is the beginning of one chord. |
| `KeyChords.FinishedMeansReleased` | src/portal/paste.rs:555-586 | When one has finished, the chord was typed whole, no key is down, no other clone typed, and it reports Sent if and only if all keys were pressed and every event acknowledged. |
| `KeyChords.BegunIsFinished` | src/portal/paste.rs:555-586 | A sender that began always reaches the end of its releases, whenever the request dies and whatever fails. |
| `KeyChords.FirstCloneSends` | src/portal/paste.rs:555-586 | The first clone of a live request whose keys are acknowledged types the whole chord and reports Sent. |
| `Delivery.DeliveryRequest.BeginInjection` | src/portal/paste.rs:75-81 | Only the first caller on a live request is let through, and what a paste would then insert is on record. |
| `Delivery.PressKeys` | src/portal/paste.rs:567-579 | Keys are pressed in order until one fails or the request is found dead. |
| `Delivery.ReleaseKeys` | src/portal/paste.rs:580-585 | Every attempted key is released, last first; a failed release is reported and skips none. |
| `Delivery.SendChord` | src/portal/paste.rs:555-586 | The keys typed are one chord cut at some key, cut only by death or failure; Sent if and only if whole and acknowledged; Failed if and only if some event was not. On a request that lasts, with every event acknowledged, it is sent. |
| `Delivery.PasteActor.Deliver` | src/portal/paste.rs:266-331 | Keys are typed only while the selection is the text; at most one chord; ShortcutSent if and only if it was whole and acknowledged; Unavailable and Cancelled mean nothing was typed or set. On a request that lasts, with every event acknowledged, it is sent whenever the desktop grants session and selection, at once or after one stale session. |
| `Delivery.PasteActor.Inject` | src/portal/paste.rs:332-357 | The same for injection without a selection; Unavailable means nothing was typed. With a session and every event acknowledged it is sent. |
| `Delivery.PasteActor.TryAutopaste` | src/portal/paste.rs:708-781 | The fallback never types after the portal did, even if the portal's reply was lost. Either of the two types when it can. |
| `Delivery.Desktop.DeliverTranscript` | src/application.rs:1975-2068 | A whole delivery types at most one chord, and when the first key is sent a paste would insert the text delivered. A delivery that stays wanted is sent through the portal when that grants it, and through the fallback when the portal is gone. |
| `Delivery.Desktop.AskPortal` | src/application.rs:2007-2024 | The portal is asked if its actor is there, and its answer awaited. |
| `Delivery.Desktop.FallBack` | src/application.rs:2028-2068 | The clipboard is secured before the fallback types, and then it types if it can. |
| `History.HistoryList.Upsert` | src/ui/history_page.rs:688-694 | The loop replaces the entry with the id, or appends. |
| `History.HistoryList.Merge` | src/ui/history_page.rs:752-761 | Merging gives the ids of both lists, each once, the in-memory entry winning. |
| `History.UpsertSetsOne` | src/ui/history_page.rs:688-694 | Upserting sets one id and touches no other. |
| `History.UpsertKeepsIdsUnique` | src/ui/history_page.rs:688-694 | Ids stay unique. |
| `History.RetainedHolds` | src/ui/history_page.rs:696-708 | Pruning drops exactly what is not kept and leaves the rest as it was. |
| `History.RetriesKeepOneEntry` | src/ui/history_page.rs:688-694 | Upserting under one id any number of times leaves one entry: the last. |
| `TakeHistory.OneEntryPerTake` | src/application.rs:910-931 | After any run, upserting everything finished leaves one entry per recorded take, as last finished, and touches no other entry. |
| `TakeHistory.FinishedTextIsInHistory` | src/application.rs:910-931 | A take last finished with text, stale or not, is in the history with that text. |
| `HistorySaves.FinishKeeps` | src/ui/history_page.rs:852-880 | A finishing save thread moves the saved number forward or leaves the file alone. |
| `HistorySaves.DrainedIsNewest` | src/ui/history_page.rs:852-880 | When all threads have run, in any order and with any failing, the file is the newest snapshot whose write succeeded. |
| `HistorySaves.AppendSurvivesExactly` | src/ui/history_page.rs:915-932 | A directly appended entry survives waiting snapshots if and only if none is written after it or the last one written holds it. |
| `HistorySaves.LosableExactly` | src/ui/history_page.rs:468-555 | On any reachable page, some run that does not delete, clear or expire an entry of the file leaves it off the disk if and only if a waiting snapshot that may still be written does not hold it, or the page has read the file, does not know it and can still write a snapshot. |
| `HistorySaves.NothingOnDiskIsLost` | src/ui/history_page.rs:490-555 | For a page opened over whatever earlier windows left waiting: what is in the file when the page reads it stays there in every later run, unless deleted, cleared or expired, if and only if every snapshot then waiting to be written holds it. |
| `HistorySaves.DrainedDiskIsTruth` | src/ui/history_page.rs:260-555 | Once loaded and drained, with the newest write good and no append after it, a page to which a run added anything, or that changed otherwise, has its list in the file: what the load merged with every addition of the run on top, except what was removed. |
| `HistorySaves.SavePrunes` | src/ui/history_page.rs:468-488 | A save of a loaded page drops exactly what is not kept, and issues what is left as a waiting snapshot. |
| `HistorySaves.DeleteDropsOne` | src/ui/history_page.rs:366-378 | A delete drops exactly that entry, besides what expires, and issues what is left. |
| `HistorySaves.AppendRewrites` | src/ui/history_page.rs:806-828 | A background append leaves exactly the kept entries of the file with the entry upserted. |
| `HistorySaves.AddedIsOnDisk` | src/ui/history_page.rs:260-555 | So every entry added, and not deleted, cleared or expired, is in the file as last added: the save held back before the load is released. |
| `HistorySaves.LoadMerges` | src/ui/history_page.rs:522-555 | A load that succeeds merges what it read and issues a snapshot if one was held back or there is a retention limit. |
| `HistorySaves.ThreadsFinish` | src/ui/history_page.rs:852-880 | Save threads that take the lock one after the other all finish. |
| `HistorySaves.AppendIsLostExactly` | src/ui/history_page.rs:743-828 | A background append can be lost to a later write if and only if a waiting snapshot that may still be written does not hold it, or the page has read the file already, does not know it and can still write a snapshot. |
| `HistorySaves.LateAppendIsLost` | src/ui/history_page.rs:743-747 | The input: a first window that reads an empty file before the append gets the lock. |
| `HistorySaves.WindowsFollow` | src/ui/history_page.rs:849-880 | What a page leaves of counters, threads and file is what the next page may open over. |
| `HistorySaves.HistoryPage.AddEntry` | src/ui/history_page.rs:260-269 | An entry is upserted and saved, or its save deferred until the load. |
| `HistorySaves.HistoryPage.ClearHistory` | src/ui/history_page.rs:296-313 | Clearing is refused until the load has merged. |
| `HistorySaves.ClearDropsAll` | src/ui/history_page.rs:296-313 | A clear of a loaded page leaves nothing in memory nor in the snapshot it issues; before that it does nothing. |
| `HistorySaves.HistoryPage.SaveHistory` | src/ui/history_page.rs:468-488 | A save before the load is deferred; otherwise it prunes and issues a snapshot. |
| `HistorySaves.HistoryPage.FinishLoad` | src/ui/history_page.rs:522-555 | The load merges; a deferred save, or a retention limit, then prunes and saves. |
| `HistorySaves.HistoryPage.RunAppendThread` | src/ui/history_page.rs:806-828 | A background append rewrites the file and touches no snapshot counter. |
| `HistorySaves.HistoryPage.RunSaveThread` | src/ui/history_page.rs:858-879 | A thread writes only a snapshot newer than the one saved. |

## Left out

- Widgets, tray, portal session set-up, keyring, HTTP, downloads, native decoders, resampling, silence trimming and voice
  detection: input, output and foreign code.
- Rounding of 32- and 64-bit floats, and wrap-around of the 64-bit counters.
- The wall clock: a deadline is an answer that, once negative, stays negative.
- Dictation: the detected-language pin of src/application.rs:1025-1027, pause and resume, the recording-length limit, the
  panel's live text, and the error branch of stop (src/application.rs:780-788), which its callee never takes.
- Recording: polishing is an unknown function of the text and its confidence; run diagnostics are not carried.
- ExactlyOnce.Trusted: the tail contract also covers a tail whose start was moved by a held-back word; overlapping speech
  of several talkers is not described by one word list.
- StoppedTakes.StopKeepsTheTake: what is salvaged enters the history under its first chunk's id, and only if its polished
  text is not empty (src/application.rs:947-950); the model keeps it in a list of its own.
- WarmWorker.Transcribe: process spawning and the socket are a fresh stream that behaves as the serving loop; a process
  that exits is a stream that ends.
- SidecarServer.RunIsSafe: taking a server out to kill it and killing it are one step.
- SidecarServer.Slot.InstallRunning: the slot is not claimed to be empty after every failed request, because the early returns at
  src/transcription/sidecar_server.rs:160-167 skip the clean-up.
- EditDistance.EditDistance: the normalisation of words before scoring is not modelled.
- Hallucinations.StripHallucinations: lowercasing is a parameter that maps no character to nothing; the repetition check
  and the confidence gate around it (src/transcription/postprocess.rs:127-160, 203-220) are table lookups and counts.
- Cleanup.CleaningTwiceIsCleaningOnce: stability of uppercasing is assumed of the Unicode tables, not derived from them.
- ConfigWriting.ConfigWriter.WriteFile: serialisation and the write are one step that replaces the file or fails.
- Delivery.PasteActor.Deliver: serving selection reads after the shortcut is input and output only.
- HistorySaves.LosableExactly: unreadable and corrupt files are not modelled, nor edits of a stored title or variant,
  nor a second load after a successful one, for which the page offers no button.
- Retries.OneDecodePerTake: the panel hides its retry button in more places than the model does, which only removes runs.
- Delivery.PasteActor.TryAutopaste: when the portal's reply is lost, what was typed is bounded by one chord but not reported.
- Voice edit beyond its hold on the microphone and the cancel token, language-model variants, subtitles, redaction,
  archives and version checks: table-driven or simple.
