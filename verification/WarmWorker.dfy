/** One request on the warm recognizer process (src/transcription/parakeet_worker.rs): partial reads and
    writes, reuse of a matching process, and the rule that a failed request leaves no process behind.
    Interleavings with shutdowns are the subject of `WorkerRuns`. */
module WarmWorker {
  import opened Wrappers
  import opened Numbers
  import opened Wire

  /** The model files (as one identity) and the thread count a process was started with. */
  datatype Spec = Spec(identity: nat, threads: nat)

  /** How a process of each spec decodes. */
  type Decoders = Spec -> Decoder

  /** What the socket does in one turn of an I/O loop. */
  datatype Io = Moves(count: nat) | Again | Broken

  /** One turn: whether the check before it stops the request (epoch, cancellation or deadline), then
      the socket's move. When the turns run out the deadline has passed. */
  datatype Turn = Turn(stopped: bool, io: Io)

  /** No turn stops the request, and none breaks the connection. */
  predicate Quiet(turns: seq<Turn>) {
    forall t :: t in turns ==> !t.stopped && !t.io.Broken?
  }

  /** How many turns move bytes. */
  function Moving(turns: seq<Turn>): (n: nat)
    ensures n > 0 ==> turns != []
  {
    if turns == [] then 0 else (if turns[0].io.Moves? && turns[0].io.count > 0 then 1 else 0) + Moving(turns[1..])
  }

  lemma QuietAfterOne(turns: seq<Turn>)
    requires turns != []
    ensures Quiet(turns) ==> !turns[0].stopped && !turns[0].io.Broken? && Quiet(turns[1..])
    ensures Moving(turns[1..]) >= Moving(turns) - 1
  {
    assert turns[0] in turns;
  }

  lemma StoppedMovesNothing(turns: seq<Turn>)
    requires turns == [] || turns[0].stopped
    ensures Quiet(turns) ==> Moving(turns) == 0
  {
    assert turns != [] ==> turns[0] in turns;
  }

  class Running {
    const spec: Spec
    /** All bytes written to the process, and all bytes read from it, since it was started. */
    var sent: seq<Byte>
    var received: seq<Byte>
    var alive: bool

    constructor (spec: Spec)
      ensures this.spec == spec && sent == [] && received == [] && alive
    {
      this.spec := spec;
      sent, received, alive := [], [], true;
    }

    /** Whatever was read is a part of what the process answers. */
    ghost predicate InStep(decode: Decoders)
      reads this
    {
      received <= Served(decode(spec), sent)
    }

    /** Nothing is in flight in either direction. */
    ghost predicate Idle(decode: Decoders)
      reads this
    {
      Answered(decode(spec), sent) && received == Served(decode(spec), sent)
    }

    method Kill()
      modifies this`alive
      ensures !alive
    {
      alive := false;
    }
  }

  /** The next bytes of the stream after those received: at most `count`, and no more than have arrived. */
  function Available(stream: seq<Byte>, received: seq<Byte>, count: nat): (more: seq<Byte>)
    requires received <= stream
    ensures |more| <= count && received + more <= stream
  {
    stream[|received|..][..Min(count, |stream| - |received|)]
  }

  method Read(r: Running, n: nat, decode: Decoders, turns: seq<Turn>) returns (bytes: Option<seq<Byte>>, rest: seq<Turn>)
    requires r.InStep(decode)
    modifies r`received
    ensures r.InStep(decode) && old(r.received) <= r.received
    ensures bytes.Some? ==> |bytes.value| == n && r.received == old(r.received) + bytes.value
    ensures |rest| <= |turns|
    ensures Quiet(turns) && Moving(turns) >= n && n <= |Served(decode(r.spec), r.sent)| - |old(r.received)| ==>
              bytes.Some? && Quiet(rest) && Moving(rest) >= Moving(turns) - n
  {
    rest := turns;
    var got: seq<Byte> := [];
    while |got| < n
      invariant |got| <= n && |rest| <= |turns|
      invariant Quiet(turns) ==> Quiet(rest)
      invariant n <= |Served(decode(r.spec), r.sent)| - |old(r.received)| ==> Moving(rest) >= Moving(turns) - |got|
      invariant r.InStep(decode) && r.received == old(r.received) + got
      decreases |rest|
    {
      if rest == [] || rest[0].stopped {
        StoppedMovesNothing(rest);
        return None, rest;
      }
      QuietAfterOne(rest);
      var io := rest[0].io;
      rest := rest[1..];
      match io {
      case Moves(count) =>
        var more := Available(Served(decode(r.spec), r.sent), r.received, Min(count, n - |got|));
        got := got + more;
        r.received := r.received + more;
      case Again =>
      case Broken =>
        return None, rest;
      }
    }
    return Some(got), rest;
  }

  lemma ServedGrows(decode: Decoder, sent: seq<Byte>, more: seq<Byte>)
    ensures Served(decode, sent) <= Served(decode, sent + more)
  {
    RepliesGrow(decode, sent, more);
  }

  method Write(r: Running, bytes: seq<Byte>, turns: seq<Turn>) returns (ok: bool, rest: seq<Turn>)
    modifies r`sent
    ensures ok ==> r.sent == old(r.sent) + bytes
    ensures |rest| <= |turns|
    ensures Quiet(turns) && Moving(turns) >= |bytes| ==> ok && Quiet(rest) && Moving(rest) >= Moving(turns) - |bytes|
  {
    rest := turns;
    var done := 0;
    while done < |bytes|
      invariant 0 <= done <= |bytes| && |rest| <= |turns|
      invariant Quiet(turns) ==> Quiet(rest)
      invariant Moving(rest) >= Moving(turns) - done
      invariant r.sent == old(r.sent) + bytes[..done]
      decreases |rest|
    {
      if rest == [] || rest[0].stopped {
        StoppedMovesNothing(rest);
        return false, rest;
      }
      QuietAfterOne(rest);
      var io := rest[0].io;
      rest := rest[1..];
      match io {
      case Moves(count) =>
        var k := if done + count <= |bytes| then count else |bytes| - done;
        assert bytes[..done + k] == bytes[..done] + bytes[done..done + k];
        r.sent := r.sent + bytes[done..done + k];
        done := done + k;
      case Again =>
      case Broken =>
        return false, rest;
      }
    }
    assert bytes[..done] == bytes;
    return true, rest;
  }

  /** The samples, converted and written in chunks of up to 4096. */
  method WriteSamples(r: Running, audio: seq<real>, turns: seq<Turn>) returns (ok: bool, rest: seq<Turn>)
    modifies r`sent
    ensures ok ==> r.sent == old(r.sent) + SampleBytes(audio)
    ensures |rest| <= |turns|
    ensures Quiet(turns) && Moving(turns) >= 2 * |audio| ==>
              ok && Quiet(rest) && Moving(rest) >= Moving(turns) - 2 * |audio|
  {
    ok, rest := true, turns;
    var pos := 0;
    while pos < |audio|
      invariant 0 <= pos <= |audio| && |rest| <= |turns| && ok
      invariant r.sent == old(r.sent) + SampleBytes(audio[..pos])
      invariant Quiet(turns) && Moving(turns) >= 2 * |audio| ==>
                  Quiet(rest) && Moving(rest) >= Moving(turns) - 2 * pos
    {
      var end := if pos + WRITE_CHUNK <= |audio| then pos + WRITE_CHUNK else |audio|;
      SampleBytesSplit(audio, pos, end);
      ok, rest := Write(r, SampleBytes(audio[pos..end]), rest);
      if !ok {
        return;
      }
      pos := end;
    }
    assert audio[..pos] == audio;
  }

  lemma SampleBytesSplit(audio: seq<real>, pos: nat, end: nat)
    requires pos <= end <= |audio|
    ensures SampleBytes(audio[..end]) == SampleBytes(audio[..pos]) + SampleBytes(audio[pos..end])
  {
    SampleBytesConcat(audio[..pos], audio[pos..end]);
    assert audio[..end] == audio[..pos] + audio[pos..end];
  }

  /** The request as the program writes it: the header, then the samples. */
  method WriteRequest(r: Running, audio: seq<real>, turns: seq<Turn>) returns (ok: bool, rest: seq<Turn>)
    requires |audio| <= MAX_SAMPLES
    modifies r`sent
    ensures ok ==> r.sent == old(r.sent) + Encode(audio)
    ensures |rest| <= |turns|
    ensures Quiet(turns) && Moving(turns) >= 4 + 2 * |audio| ==>
              ok && Quiet(rest) && Moving(rest) >= Moving(turns) - 4 - 2 * |audio|
  {
    ok, rest := Write(r, Le32(|audio|), turns);
    if ok {
      ok, rest := WriteSamples(r, audio, rest);
    }
  }

  lemma {:induction false} SampleBytesConcat(a: seq<real>, b: seq<real>)
    ensures SampleBytes(a + b) == SampleBytes(a) + SampleBytes(b)
  {
    if a == [] {
      assert a + b == b;
    } else {
      assert (a + b)[1..] == a[1..] + b;
      SampleBytesConcat(a[1..], b);
    }
  }

  /** The answer to one request written to an idle process: its framed result, complete or not at all. */
  lemma AnswerIsFramed(decode: Decoder, before: seq<Byte>, audio: seq<real>)
    requires Answered(decode, before) && |audio| <= MAX_SAMPLES
    ensures var r := decode(Quantized(audio));
            && Served(decode, before + Encode(audio)) == Served(decode, before) + (if GoodResult(r) then Framed(r.value) else [])
            && (GoodResult(r) ==> Answered(decode, before + Encode(audio)))
  {
    ServedAppends(decode, before, Encode(audio));
    RequestIsAnswered(decode, audio);
  }

  lemma ServedAppends(decode: Decoder, before: seq<Byte>, request: seq<Byte>)
    requires Answered(decode, before)
    ensures Served(decode, before + request) == Served(decode, before) + Replies(decode, request)
    ensures Answered(decode, request) ==> Answered(decode, before + request)
  {
    AnsweredThen(decode, before, request);
  }

  /** Nothing stops the request, and enough turns move bytes: for the handshake and its two checks, the request, the
      size, the answer and the last check. */
  predicate Enough(turns: seq<Turn>, audio: seq<real>, result: Option<seq<Byte>>) {
    && GoodResult(result) && Quiet(turns)
    && Moving(turns) >= 6 + (4 + 2 * |audio|) + 4 + |result.value| + 1
  }

  /** An answered request leaves its framed result to be read. */
  lemma AnswerIsWaiting(decode: Decoder, before: seq<Byte>, audio: seq<real>)
    requires Answered(decode, before) && |audio| <= MAX_SAMPLES && GoodResult(decode(Quantized(audio)))
    ensures
      var result := decode(Quantized(audio)).value;
      && Served(decode, before + Encode(audio)) == Served(decode, before) + (Le32(|result|) + result)
      && |Le32(|result|)| == 4 && FromLe32(Le32(|result|)) == |result|
  {
    AnswerIsFramed(decode, before, audio);
    Le32RoundTrip(|decode(Quantized(audio)).value|);
  }

  /** Bytes read at the front of a framed result are its size, then the result itself. */
  lemma FrameIsRead(frame: seq<Byte>, size: seq<Byte>, body: seq<Byte>, result: seq<Byte>)
    requires |result| <= MAX_RESULT && frame == Framed(result)
    requires |size| == 4 && size + body <= frame && |body| == FromLe32(size)
    ensures body == result && size + body == frame
  {
    assert size == frame[..4] == Le32(|result|);
    Le32RoundTrip(|result|);
    assert frame[4..] == result;
    assert body == (size + body)[4..] == frame[4..4 + |body|];
  }

  /** A size and as many bytes, read after one request, are all of its answer: exactly the decode of
      the request's samples, with nothing left in flight. */
  lemma ReplyIsExact(decode: Decoder, before: seq<Byte>, audio: seq<real>, size: seq<Byte>, body: seq<Byte>)
    requires Answered(decode, before) && |audio| <= MAX_SAMPLES
    requires |size| == 4 && |body| == FromLe32(size)
    requires Served(decode, before) + (size + body) <= Served(decode, before + Encode(audio))
    ensures decode(Quantized(audio)) == Some(body)
    ensures Answered(decode, before + Encode(audio))
    ensures Served(decode, before) + (size + body) == Served(decode, before + Encode(audio))
  {
    var r := decode(Quantized(audio));
    var start := |Served(decode, before)|;
    var frame := Served(decode, before + Encode(audio))[start..];
    AnswerIsFramed(decode, before, audio);
    assert size + body <= frame;
    assert frame == Framed(r.value);
    FrameIsRead(frame, size, body, r.value);
  }

  /** The size, then as many bytes, then a last check. */
  method ReadReply(r: Running, audio: seq<real>, ghost before: seq<Byte>, decode: Decoders, turns: seq<Turn>)
    returns (result: Option<seq<Byte>>)
    requires |audio| <= MAX_SAMPLES && Answered(decode(r.spec), before)
    requires r.sent == before + Encode(audio) && r.received == Served(decode(r.spec), before)
    modifies r`received
    ensures result.Some? ==> result == decode(r.spec)(Quantized(audio)) && r.Idle(decode)
    ensures
      var answer := decode(r.spec)(Quantized(audio));
      GoodResult(answer) && Quiet(turns) && Moving(turns) >= 4 + |answer.value| + 1 ==> result.Some?
  {
    ServedGrows(decode(r.spec), before, Encode(audio));
    if GoodResult(decode(r.spec)(Quantized(audio))) {
      AnswerIsWaiting(decode(r.spec), before, audio);
    }
    var size, body: Option<seq<Byte>>, rest;
    size, rest := Read(r, 4, decode, turns);
    if size.None? {
      return None;
    }
    SizeIsOfTheAnswer(decode(r.spec), before, audio, size.value);
    var n := FromLe32(size.value);
    if n == 0 || n > MAX_RESULT {
      return None;
    }
    body, rest := Read(r, n, decode, rest);
    if body.None? {
      return None;
    }
    if rest == [] || rest[0].stopped {
      StoppedMovesNothing(rest);
      return None;
    }
    assert r.received == Served(decode(r.spec), before) + (size.value + body.value);
    ReplyIsExact(decode(r.spec), before, audio, size.value, body.value);
    return body;
  }

  lemma SizeIsOfTheAnswer(decode: Decoder, before: seq<Byte>, audio: seq<real>, size: seq<Byte>)
    requires Answered(decode, before) && |audio| <= MAX_SAMPLES && |size| == 4
    requires Served(decode, before) + size <= Served(decode, before + Encode(audio))
    ensures GoodResult(decode(Quantized(audio))) ==> FromLe32(size) == |decode(Quantized(audio)).value|
  {
    if GoodResult(decode(Quantized(audio))) {
      var result := decode(Quantized(audio)).value;
      AnswerIsWaiting(decode, before, audio);
      var all := Served(decode, before) + (Le32(|result|) + result);
      assert (Served(decode, before) + size)[|Served(decode, before)|..] == size;
      assert all[|Served(decode, before)|..][..4] == Le32(|result|);
      assert size == Le32(|result|);
    }
  }

  class WarmWorker {
    var running: Running?

    ghost predicate Valid(decode: Decoders)
      reads this, running
    {
      running != null ==> running.Idle(decode)
    }

    /** The slot holds a live process of the spec. */
    ghost predicate Matches(spec: Spec)
      reads this, running
    {
      running != null && running.spec == spec && running.alive
    }

    constructor ()
      ensures running == null
    {
      running := null;
    }

    /** Take whatever is in the slot; dropping it kills the process. */
    method DropRunning()
      modifies this, running
      ensures running == null
      ensures old(running) != null ==> !old(running).alive
    {
      if running != null {
        running.Kill();
      }
      running := null;
    }

    /** Reuse a matching live process or start one; it is published only after its handshake. */
    method Connection(spec: Spec, decode: Decoders, stillAlive: bool, turns: seq<Turn>)
      returns (r: Running?, rest: seq<Turn>)
      requires Valid(decode)
      modifies this, running
      ensures r != null ==> r == running && r.Idle(decode) && r.spec == spec && r.alive
      ensures running != null ==> running == old(running) || fresh(running)
      ensures r != null && old(Matches(spec)) && stillAlive ==> r == old(running)
      ensures |rest| <= |turns|
      ensures Quiet(turns) && Moving(turns) >= 6 ==> r != null && Quiet(rest) && Moving(rest) >= Moving(turns) - 6
    {
      if turns == [] || turns[0].stopped {
        StoppedMovesNothing(turns);
        return null, turns;
      }
      QuietAfterOne(turns);
      if running != null {
        if running.spec == spec && running.alive && stillAlive {
          return running, turns[1..];
        }
      }
      DropRunning();
      var started := new Running(spec);
      assert Served(decode(spec), []) == READY;
      var ready: Option<seq<Byte>>;
      ready, rest := Read(started, |READY|, decode, turns[1..]);
      if ready.None? || ready.value != READY {
        started.Kill();
        return null, rest;
      }
      if rest == [] || rest[0].stopped {
        StoppedMovesNothing(rest);
        started.Kill();
        return null, rest;
      }
      QuietAfterOne(rest);
      running := started;
      return started, rest[1..];
    }

    /** Connection, request and reply under the request lock. */
    method Exchange(spec: Spec, audio: seq<real>, decode: Decoders, stillAlive: bool, turns: seq<Turn>)
      returns (result: Option<seq<Byte>>)
      requires Valid(decode) && |audio| <= MAX_SAMPLES
      modifies this, running
      ensures running != null ==> running == old(running) || fresh(running)
      ensures result.Some? ==> result == decode(spec)(Quantized(audio)) && Valid(decode) && Matches(spec)
      ensures result.Some? && old(Matches(spec)) && stillAlive ==> running == old(running)
      ensures Enough(turns, audio, decode(spec)(Quantized(audio))) ==> result.Some?
    {
      var r, rest := Connection(spec, decode, stillAlive, turns);
      if r == null {
        return None;
      }
      ghost var before := r.sent;
      var written;
      written, rest := WriteRequest(r, audio, rest);
      if !written {
        return None;
      }
      result := ReadReply(r, audio, before, decode, rest);
    }

    /** The lock comes free before the wait for it is stopped. */
    static predicate Frees(lockTurns: seq<(bool, bool)>) {
      lockTurns != [] && !lockTurns[0].0 && (lockTurns[0].1 || Frees(lockTurns[1..]))
    }

    /** A request that got the lock either returns the decode of exactly its own 16-bit samples by a process of its spec,
        which is again idle, or it leaves no process behind. `lockTurns` says for each attempt
        whether the check stops the wait and whether the lock was free. */
    method Transcribe(spec: Spec, audio: seq<real>, decode: Decoders, lockTurns: seq<(bool, bool)>, stillAlive: bool,
                      turns: seq<Turn>)
      returns (result: Option<seq<Byte>>, locked: bool)
      requires Valid(decode)
      modifies this, running
      ensures Valid(decode)
      ensures locked <==> |audio| <= MAX_SAMPLES && Frees(lockTurns)
      ensures result.Some? ==> locked && result == decode(spec)(Quantized(audio)) && Matches(spec)
      ensures locked && Enough(turns, audio, decode(spec)(Quantized(audio))) ==> result.Some?
      ensures result.Some? && old(Matches(spec)) && stillAlive ==> running == old(running)
      ensures locked && result.None? ==> running == null
      ensures !locked ==> result.None? && running == old(running)
    {
      if |audio| > MAX_SAMPLES {
        return None, false;
      }
      var waiting := lockTurns;
      while true
        invariant Valid(decode) && running == old(running)
        invariant Frees(waiting) <==> Frees(lockTurns)
        invariant running != null ==> unchanged(running)
        decreases |waiting|
      {
        if waiting == [] || waiting[0].0 {
          return None, false;
        }
        if waiting[0].1 {
          break;
        }
        waiting := waiting[1..];
      }
      result := Exchange(spec, audio, decode, stillAlive, turns);
      if result.None? {
        DropRunning();
      }
      return result, true;
    }
  }
}
