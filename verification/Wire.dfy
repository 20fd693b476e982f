/** The byte protocol between the program and its warm recognizer process
    (src/transcription/parakeet_worker.rs): length-prefixed 16-bit samples in, length-prefixed results out. */
module Wire {
  import opened Wrappers
  import opened Numbers

  type Byte = n: int | 0 <= n < 256

  const MAX_SAMPLES: nat := 230_400_000
  const MAX_RESULT: nat := 8_388_608
  const READY: seq<Byte> := [83, 84, 80, 49]
  const READ_BUFFER: nat := 8192
  const WRITE_CHUNK: nat := 4096

  /** The recognizer: a result for the samples it hears, or a failure that ends the process. */
  type Decoder = seq<real> -> Option<seq<Byte>>

  // ----- Integers on the wire -----

  /** `n` in `k` little-endian bytes. */
  function LeBytes(n: nat, k: nat): (b: seq<Byte>)
    ensures |b| == k
  {
    if k == 0 then [] else [n % 256] + LeBytes(n / 256, k - 1)
  }

  function Le32(n: nat): (b: seq<Byte>)
    ensures |b| == 4
  {
    LeBytes(n, 4)
  }

  function FromLe32(b: seq<Byte>): nat
    requires |b| == 4
  {
    (b[0] as int) + 256 * (b[1] as int) + 65_536 * (b[2] as int) + 16_777_216 * (b[3] as int)
  }

  lemma Le32RoundTrip(n: nat)
    requires n < 0x1_0000_0000
    ensures FromLe32(Le32(n)) == n
  {
    var n1 := n / 256;
    var n2 := n1 / 256;
    var n3 := n2 / 256;
    assert n3 < 256;
    assert LeBytes(n3, 1) == [n3 % 256] + LeBytes(n3 / 256, 0);
    assert LeBytes(n2, 2) == [n2 % 256] + LeBytes(n3, 1);
    assert LeBytes(n1, 3) == [n1 % 256] + LeBytes(n2, 2);
    assert LeBytes(n, 4) == [n % 256] + LeBytes(n1, 3);
    assert LeBytes(n, 4) == [n % 256, n1 % 256, n2 % 256, n3 % 256];
  }

  function Le16(v: int): (b: seq<Byte>)
    requires -32_768 <= v < 32_768
    ensures |b| == 2
  {
    var u := if v < 0 then v + 65_536 else v;
    [u % 256, u / 256]
  }

  function FromLe16(low: Byte, high: Byte): (v: int)
    ensures -32_768 <= v < 32_768
  {
    var u := (low as int) + 256 * (high as int);
    if u >= 32_768 then u - 65_536 else u
  }

  lemma Le16RoundTrip(v: int)
    requires -32_768 <= v < 32_768
    ensures FromLe16(Le16(v)[0], Le16(v)[1]) == v
  {
  }

  // ----- Requests -----

  /** 16-bit quantization: clamped, scaled, truncated toward zero. */
  function Pcm(sample: real): (v: int)
    ensures -32_767 <= v <= 32_767
  {
    var x := Clamp(sample, -1.0, 1.0) * 32_767.0;
    if x >= 0.0 then x.Floor else -(-x).Floor
  }

  function SampleBytes(audio: seq<real>): (b: seq<Byte>)
    ensures |b| == 2 * |audio|
  {
    if audio == [] then [] else Le16(Pcm(audio[0])) + SampleBytes(audio[1..])
  }

  function Encode(audio: seq<real>): seq<Byte>
    requires |audio| <= MAX_SAMPLES
  {
    Le32(|audio|) + SampleBytes(audio)
  }

  /** A sample between -1 and 1; anything beyond is cut off. */
  function Limited(sample: real): real {
    if sample < -1.0 then -1.0 else if sample > 1.0 then 1.0 else sample
  }

  /** The 16-bit number of a sample is that many of 32767 parts of it, less than one part nearer to zero. */
  lemma PcmIsClose(sample: real)
    ensures
      var x, v := Limited(sample) * 32_767.0, Pcm(sample) as real;
      if x >= 0.0 then v <= x < v + 1.0 else v - 1.0 < x <= v
  {
    assert Clamp(sample, -1.0, 1.0) == Limited(sample);
  }

  /** What the process hears of the bytes of whole samples. */
  function SamplesOf(b: seq<Byte>): (samples: seq<real>)
    ensures |samples| == |b| / 2
  {
    if |b| < 2 then [] else [FromLe16(b[0], b[1]) as real / 32_768.0] + SamplesOf(b[2..])
  }

  /** The request's own 16-bit samples. */
  function Quantized(audio: seq<real>): seq<real> {
    if audio == [] then [] else [Pcm(audio[0]) as real / 32_768.0] + Quantized(audio[1..])
  }

  lemma {:induction false} QuantizedIsPcm(audio: seq<real>, k: nat)
    requires k < |audio|
    ensures |Quantized(audio)| == |audio| && Quantized(audio)[k] * 32_768.0 == Pcm(audio[k]) as real
  {
    if k > 0 {
      QuantizedIsPcm(audio[1..], k - 1);
    } else if |audio| > 1 {
      QuantizedIsPcm(audio[1..], 0);
    }
  }

  /** The process hears exactly the quantized samples that were sent. */
  lemma {:induction false} SamplesArriveIntact(audio: seq<real>)
    ensures SamplesOf(SampleBytes(audio)) == Quantized(audio)
  {
    if audio != [] {
      SamplesArriveIntact(audio[1..]);
      Le16RoundTrip(Pcm(audio[0]));
      assert SampleBytes(audio)[2..] == SampleBytes(audio[1..]);
    }
  }

  // ----- The serving process -----

  predicate GoodResult(r: Option<seq<Byte>>) {
    r.Some? && 0 < |r.value| <= MAX_RESULT
  }

  /** A whole request at the front of the input. */
  predicate HasRequest(input: seq<Byte>) {
    && |input| >= 4
    && FromLe32(input[..4]) <= MAX_SAMPLES
    && |input| >= 4 + 2 * FromLe32(input[..4])
  }

  function RequestLength(input: seq<Byte>): (n: nat)
    requires HasRequest(input)
    ensures 4 <= n <= |input|
  {
    4 + 2 * FromLe32(input[..4])
  }

  function ResultOf(decode: Decoder, input: seq<Byte>): Option<seq<Byte>>
    requires HasRequest(input)
  {
    decode(SamplesOf(input[4..RequestLength(input)]))
  }

  function Framed(result: seq<Byte>): seq<Byte>
    requires |result| <= MAX_RESULT
  {
    Le32(|result|) + result
  }

  /** All the process ever answers to `input`: one framed result per whole request, until one fails. */
  function Replies(decode: Decoder, input: seq<Byte>): seq<Byte>
    decreases |input|
  {
    if !HasRequest(input) || !GoodResult(ResultOf(decode, input)) then []
    else Framed(ResultOf(decode, input).value) + Replies(decode, input[RequestLength(input)..])
  }

  function Served(decode: Decoder, input: seq<Byte>): seq<Byte> {
    READY + Replies(decode, input)
  }

  /** The input is a sequence of whole requests, all of which were answered. */
  predicate Answered(decode: Decoder, input: seq<Byte>)
    decreases |input|
  {
    input == [] || (HasRequest(input) && GoodResult(ResultOf(decode, input)) && Answered(decode, input[RequestLength(input)..]))
  }

  lemma FrontIsStable(a: seq<Byte>, b: seq<Byte>)
    requires HasRequest(a)
    ensures HasRequest(a + b) && RequestLength(a + b) == RequestLength(a)
    ensures (a + b)[4..RequestLength(a)] == a[4..RequestLength(a)]
    ensures (a + b)[RequestLength(a)..] == a[RequestLength(a)..] + b
  {
    assert (a + b)[..4] == a[..4];
  }

  /** Answers only grow as more input arrives. */
  lemma {:induction false} RepliesGrow(decode: Decoder, a: seq<Byte>, b: seq<Byte>)
    ensures Replies(decode, a) <= Replies(decode, a + b)
    decreases |a|
  {
    if HasRequest(a) && GoodResult(ResultOf(decode, a)) {
      FrontIsStable(a, b);
      RepliesGrow(decode, a[RequestLength(a)..], b);
    }
  }

  /** After answered requests the process starts afresh. */
  lemma {:induction false} AnsweredThen(decode: Decoder, a: seq<Byte>, b: seq<Byte>)
    requires Answered(decode, a)
    ensures Replies(decode, a + b) == Replies(decode, a) + Replies(decode, b)
    ensures Answered(decode, b) ==> Answered(decode, a + b)
    decreases |a|
  {
    if a == [] {
      assert a + b == b;
    } else {
      FrontIsStable(a, b);
      AnsweredThen(decode, a[RequestLength(a)..], b);
    }
  }

  lemma EncodedShape(audio: seq<real>)
    requires |audio| <= MAX_SAMPLES
    ensures HasRequest(Encode(audio)) && RequestLength(Encode(audio)) == |Encode(audio)|
    ensures Encode(audio)[4..RequestLength(Encode(audio))] == SampleBytes(audio)
  {
    assert Encode(audio)[..4] == Le32(|audio|);
    Le32RoundTrip(|audio|);
  }

  lemma SingleRequest(decode: Decoder, input: seq<Byte>)
    requires HasRequest(input) && RequestLength(input) == |input|
    ensures Replies(decode, input) == if GoodResult(ResultOf(decode, input)) then Framed(ResultOf(decode, input).value) else []
    ensures GoodResult(ResultOf(decode, input)) ==> Answered(decode, input)
  {
    var rest := input[RequestLength(input)..];
    assert rest == [];
  }

  lemma EncodedMeaning(decode: Decoder, audio: seq<real>)
    requires |audio| <= MAX_SAMPLES
    ensures HasRequest(Encode(audio)) && ResultOf(decode, Encode(audio)) == decode(Quantized(audio))
  {
    EncodedShape(audio);
    SamplesArriveIntact(audio);
  }

  /** One request is answered with the decode of exactly its own samples, if at all. */
  lemma RequestIsAnswered(decode: Decoder, audio: seq<real>)
    requires |audio| <= MAX_SAMPLES
    ensures var r := decode(Quantized(audio));
            if r.Some? && 0 < |r.value| <= 8_388_608 then
              Replies(decode, Encode(audio)) == Le32(|r.value|) + r.value && Answered(decode, Encode(audio))
            else Replies(decode, Encode(audio)) == []
  {
    EncodedShape(audio);
    EncodedMeaning(decode, audio);
    SingleRequest(decode, Encode(audio));
  }

  /** The serving loop: a header byte by byte, samples through a fixed buffer, one result per request. */
  method Serve(decode: Decoder, input: seq<Byte>) returns (output: seq<Byte>)
    ensures output == Served(decode, input)
  {
    output := READY;
    var rest := input;
    while true
      invariant output + Replies(decode, rest) == Served(decode, input)
      decreases |rest|
    {
      if |rest| < 4 {
        return;
      }
      var count := FromLe32(rest[..4]);
      if count > MAX_SAMPLES {
        return;
      }
      var body := rest[4..];
      var samples, complete := ReadSamples(body, count);
      if !complete {
        return;
      }
      assert body[..2 * count] == rest[4..RequestLength(rest)];
      var result := decode(samples);
      if !GoodResult(result) {
        return;
      }
      output := output + Framed(result.value);
      rest := rest[RequestLength(rest)..];
    }
  }

  /** Fill the sample vector through the fixed read buffer; incomplete input ends the process. */
  method ReadSamples(body: seq<Byte>, count: nat) returns (samples: seq<real>, complete: bool)
    ensures complete <==> |body| >= 2 * count
    ensures complete ==> samples == SamplesOf(body[..2 * count])
  {
    samples := [];
    var pos := 0;
    while |samples| < count
      invariant |samples| <= count && pos == 2 * |samples| <= |body|
      invariant samples == SamplesOf(body[..pos])
    {
      var size := if (count - |samples|) * 2 <= READ_BUFFER then (count - |samples|) * 2 else READ_BUFFER;
      if pos + size > |body| {
        return samples, false;
      }
      SamplesContinue(body, pos, size);
      samples := samples + SamplesOf(body[pos..pos + size]);
      pos := pos + size;
    }
    return samples, true;
  }

  lemma SamplesContinue(body: seq<Byte>, pos: nat, size: nat)
    requires pos % 2 == 0 && size % 2 == 0 && pos + size <= |body|
    ensures SamplesOf(body[..pos + size]) == SamplesOf(body[..pos]) + SamplesOf(body[pos..pos + size])
    ensures |SamplesOf(body[pos..pos + size])| == size / 2
  {
    SamplesConcat(body[..pos], body[pos..pos + size]);
    assert body[..pos + size] == body[..pos] + body[pos..pos + size];
  }

  lemma {:induction false} SamplesConcat(a: seq<Byte>, b: seq<Byte>)
    requires |a| % 2 == 0
    ensures SamplesOf(a + b) == SamplesOf(a) + SamplesOf(b)
  {
    if |a| < 2 {
      assert a + b == b;
    } else {
      assert (a + b)[2..] == a[2..] + b;
      SamplesConcat(a[2..], b);
    }
  }
}
