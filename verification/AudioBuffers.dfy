/** The capture buffer (src/audio/buffer.rs): raw interleaved samples, and the mark up to which they
    were already delivered to a while-recording decode and released. */
module AudioBuffers {
  import opened Wrappers
  import opened Numbers
  import opened Chunking

  const CHUNK_QUIET_WINDOW_SECS: real := 0.25
  const FRAME_SECS: real := 0.03
  const MAX_BUFFER_SAMPLES: nat := 400_000_000

  // ----- Time and samples -----

  /** Interleaved samples per second; a zero rate or channel count reads as one. */
  function PerSecond(rate: nat, channels: nat): (p: nat)
    ensures p >= AtLeastOne(channels)
    ensures p % AtLeastOne(channels) == 0
  {
    AtLeastItself(AtLeastOne(channels), AtLeastOne(rate));
    MultipleHasNoRemainder(AtLeastOne(channels), AtLeastOne(rate));
    AtLeastOne(channels) * AtLeastOne(rate)
  }

  /** A time in milliseconds as a (fractional) number of interleaved samples. */
  function SamplesAt(ms: real, rate: nat, channels: nat): real {
    (ms / 1000.0) * (PerSecond(rate, channels) as real)
  }

  lemma SamplesAtIsMonotone(a: real, b: real, rate: nat, channels: nat)
    requires a <= b
    ensures SamplesAt(a, rate, channels) <= SamplesAt(b, rate, channels)
  {
    Scale(a / 1000.0, b / 1000.0, PerSecond(rate, channels) as real);
  }

  lemma Scale(a: real, b: real, k: real)
    requires a <= b && k >= 0.0
    ensures a * k <= b * k
  {
  }

  /** A rounded sample offset as a raw index: clamped to the region and floored to a frame. */
  function IndexAt(regionStart: nat, cut: nat, c: nat, offset: int): (index: nat)
    requires c > 0
    ensures regionStart <= index
    ensures regionStart <= cut ==> index <= cut
    ensures regionStart % c == 0 ==> index % c == 0
  {
    var rel: nat := if offset < 0 then 0 else offset;
    var clamped := if regionStart + rel <= cut then regionStart + rel else cut;
    if clamped >= regionStart then
      FlooredToMultiple(clamped, regionStart, c);
      var index := clamped - clamped % c;
      if index >= regionStart then index else regionStart
    else
      regionStart
  }

  lemma IndexInside(regionStart: nat, cut: nat, c: nat, offset: nat)
    requires c > 0 && regionStart % c == 0 && regionStart + offset <= cut
    ensures regionStart + offset - c < IndexAt(regionStart, cut, c, offset) <= regionStart + offset
    ensures offset % c == 0 ==> IndexAt(regionStart, cut, c, offset) == regionStart + offset
    ensures IndexAt(regionStart, cut, c, offset) > regionStart <==> offset >= c
  {
    var at := regionStart + offset;
    FlooredToMultiple(at, regionStart, c);
    assert IndexAt(regionStart, cut, c, offset) == at - at % c;
    if offset % c == 0 {
      MultiplesAdd(regionStart, offset, c);
    }
    var q := regionStart / c;
    assert regionStart == c * q;
    if offset < c {
      QuotientIsUnique(c, q, offset, at / c, at % c);
    }
  }

  /** The raw index of a snapshot-relative time in milliseconds. */
  function RawIndexForMs(regionStart: nat, cut: nat, rate: nat, channels: nat, ms: real): (index: nat)
    ensures regionStart <= index
    ensures regionStart <= cut ==> index <= cut
    ensures regionStart % AtLeastOne(channels) == 0 ==> index % AtLeastOne(channels) == 0
  {
    IndexAt(regionStart, cut, AtLeastOne(channels), Round(SamplesAt(ms, rate, channels)))
  }

  /** Duration of a snapshot: zero when the source geometry is unknown. */
  function DurationSecs(samples: nat, rate: nat, channels: nat): (d: real)
    ensures d >= 0.0
  {
    if rate == 0 then 0.0 else samples as real / PerSecond(rate, channels) as real
  }

  /** The cut's own time maps back to exactly the whole span. */
  lemma WholeSpan(samples: nat, rate: nat, channels: nat)
    requires rate > 0
    ensures SamplesAt(DurationSecs(samples, rate, channels) * 1000.0, rate, channels) == samples as real
  {
    var p := PerSecond(rate, channels) as real;
    var d := DurationSecs(samples, rate, channels);
    assert d * p == samples as real;
    assert (d * 1000.0) / 1000.0 == d;
  }

  lemma RoundedIndexTracks(regionStart: nat, cut: nat, c: nat, x: real)
    requires c > 0 && regionStart % c == 0 && regionStart <= cut && 0.0 <= x <= (cut - regionStart) as real
    ensures regionStart as real + x - c as real < IndexAt(regionStart, cut, c, Round(x)) as real
    ensures IndexAt(regionStart, cut, c, Round(x)) as real <= regionStart as real + x + 0.5
  {
    RoundKeepsIntegers(x, cut - regionStart);
    IndexInside(regionStart, cut, c, Round(x));
    assert x - 0.5 <= Round(x) as real <= x + 0.5;
  }

  /** The index of a time inside the region is within one frame before it and half a sample after it. */
  lemma IndexTracksTime(regionStart: nat, cut: nat, rate: nat, channels: nat, ms: real)
    requires regionStart <= cut && regionStart % AtLeastOne(channels) == 0
    requires 0.0 <= SamplesAt(ms, rate, channels) <= (cut - regionStart) as real
    ensures var at := regionStart as real + SamplesAt(ms, rate, channels);
            at - AtLeastOne(channels) as real < RawIndexForMs(regionStart, cut, rate, channels, ms) as real <= at + 0.5
  {
    RoundedIndexTracks(regionStart, cut, AtLeastOne(channels), SamplesAt(ms, rate, channels));
  }

  /** A time that falls on a whole frame is mapped exactly. */
  lemma IndexIsExact(regionStart: nat, cut: nat, rate: nat, channels: nat, ms: real, samples: nat)
    requires regionStart % AtLeastOne(channels) == 0 && samples % AtLeastOne(channels) == 0
    requires SamplesAt(ms, rate, channels) == samples as real
    requires regionStart + samples <= cut
    ensures RawIndexForMs(regionStart, cut, rate, channels, ms) == regionStart + samples
  {
    RoundKeepsIntegers(samples as real, samples);
    IndexInside(regionStart, cut, AtLeastOne(channels), samples);
  }

  /** At rates that are whole kilohertz every whole millisecond falls on a frame. */
  lemma WholeMillisecondsAreFrames(ms: nat, rate: nat, channels: nat)
    requires rate > 0 && rate % 1000 == 0
    ensures SamplesAt(ms as real, rate, channels) == (AtLeastOne(channels) * (rate / 1000 * ms)) as real
    ensures (AtLeastOne(channels) * (rate / 1000 * ms)) % AtLeastOne(channels) == 0
  {
    var c, k := AtLeastOne(channels), rate / 1000;
    MultipleHasNoRemainder(c, k * ms);
    assert rate == 1000 * k;
    assert PerSecond(rate, channels) == 1000 * (c * k) by {
      assert c * (1000 * k) == 1000 * (c * k);
    }
    var r := (c * k) as real;
    assert (ms as real / 1000.0) * (1000.0 * r) == ms as real * r;
    assert c * (k * ms) == (c * k) * ms;
    assert (c * (k * ms)) as real == r * ms as real;
  }

  /** A watermark advances the mark exactly when it rounds to at least one frame. */
  lemma AdvancesExactly(regionStart: nat, cut: nat, rate: nat, channels: nat, ms: real)
    requires regionStart <= cut && regionStart % AtLeastOne(channels) == 0
    requires 0.0 <= SamplesAt(ms, rate, channels) <= (cut - regionStart) as real
    ensures RawIndexForMs(regionStart, cut, rate, channels, ms) > regionStart
       <==> Round(SamplesAt(ms, rate, channels)) >= AtLeastOne(channels)
  {
    var x := SamplesAt(ms, rate, channels);
    RoundKeepsIntegers(x, cut - regionStart);
    IndexInside(regionStart, cut, AtLeastOne(channels), Round(x));
  }

  lemma FasterThanAKilohertz(rate: nat, channels: nat)
    requires rate >= 1000
    ensures PerSecond(rate, channels) >= 1000 * AtLeastOne(channels)
  {
    var c := AtLeastOne(channels);
    assert c * rate == c * (rate - 1000) + c * 1000;
  }

  lemma MillisecondSpansAFrame(rate: nat, channels: nat, ms: real)
    requires rate >= 1000 && ms >= 1.0
    ensures SamplesAt(ms, rate, channels) >= AtLeastOne(channels) as real
  {
    var p := PerSecond(rate, channels) as real;
    FasterThanAKilohertz(rate, channels);
    Scale(0.001, ms / 1000.0, p);
    assert 0.001 * p >= AtLeastOne(channels) as real;
  }

  /** From 1000 Hz up, every watermark of at least a millisecond advances the mark. */
  lemma WatermarkMakesProgress(regionStart: nat, cut: nat, rate: nat, channels: nat, ms: real)
    requires regionStart <= cut && regionStart % AtLeastOne(channels) == 0
    requires SamplesAt(ms, rate, channels) <= (cut - regionStart) as real
    requires rate >= 1000 && ms >= 1.0
    ensures RawIndexForMs(regionStart, cut, rate, channels, ms) > regionStart
  {
    MillisecondSpansAFrame(rate, channels, ms);
    RoundKeepsIntegers(SamplesAt(ms, rate, channels), AtLeastOne(channels));
    AdvancesExactly(regionStart, cut, rate, channels, ms);
  }

  /** Below 1000 Hz it need not: at 400 Hz a watermark of one millisecond leaves the mark where it was. */
  lemma SlowSourceStalls()
    ensures RawIndexForMs(0, 400, 400, 1, 1.0) == 0
  {
    assert SamplesAt(1.0, 400, 1) == 0.4;
    assert Round(0.4) == 0;
    assert RawIndexForMs(0, 400, 400, 1, 1.0) == 0 - 0 % 1;
  }

  // ----- The buffer as a value -----

  datatype Snapshot = Snapshot(samples: seq<real>, rate: nat, channels: nat)

  datatype ChunkCut = ChunkCut(snapshot: Snapshot, cut: nat, regionStart: nat, verifiedQuiet: bool)

  datatype Buffer = Buffer(raw: seq<real>, consumed: nat, rate: nat, channels: nat) {
    function RawLen(): nat {
      consumed + |raw|
    }

    function Cleared(rate: nat, channels: nat): Buffer {
      Buffer([], 0, rate, channels)
    }

    predicate Accepts(samples: seq<real>, cap: nat) {
      |raw| + |samples| <= cap || samples == []
    }

    function Pushed(samples: seq<real>, cap: nat): Buffer {
      if Accepts(samples, cap) then this.(raw := raw + samples) else this
    }

    predicate CanCommit(cut: nat) {
      consumed < cut <= RawLen()
    }

    function Committed(cut: nat): Buffer {
      if CanCommit(cut) then this.(raw := raw[cut - consumed..], consumed := cut) else this
    }

    /** What a commit releases. */
    function Released(cut: nat): seq<real> {
      if CanCommit(cut) then raw[..cut - consumed] else []
    }

    function Taken(): Buffer {
      this.(raw := [], consumed := 0)
    }

    predicate Aligned() {
      consumed % AtLeastOne(channels) == 0
    }
  }

  function WholeFrames(secs: real, rate: nat, channels: nat): (samples: nat)
    ensures samples % AtLeastOne(channels) == 0
  {
    MultipleHasNoRemainder(AtLeastOne(channels), ToUnsigned(secs * AtLeastOne(rate) as real));
    AtLeastOne(channels) * ToUnsigned(secs * AtLeastOne(rate) as real)
  }

  /** At least one frame. */
  function SomeFrames(secs: real, rate: nat, channels: nat): (samples: nat)
    ensures samples >= 1
    ensures samples % AtLeastOne(channels) == 0
  {
    var c, n := AtLeastOne(channels), AtLeastOne(ToUnsigned(secs * AtLeastOne(rate) as real));
    AtLeastItself(c, n);
    MultipleHasNoRemainder(c, n);
    c * n
  }

  function ScanOf(b: Buffer, minSecs: real, maxSecs: real): (scan: Scan)
    ensures scan.Valid()
  {
    var minSamples := WholeFrames(minSecs, b.rate, b.channels);
    var maxSamples := WholeFrames(maxSecs, b.rate, b.channels);
    Scan(b.raw, AtLeastOne(b.channels), SomeFrames(FRAME_SECS, b.rate, b.channels),
         SomeFrames(CHUNK_QUIET_WINDOW_SECS, b.rate, b.channels),
         minSamples, if maxSamples <= |b.raw| then maxSamples else |b.raw|, |b.raw| >= maxSamples)
  }

  predicate WorthScanning(b: Buffer, minSecs: real, maxSecs: real) {
    var scan := ScanOf(b, minSecs, maxSecs);
    0 < scan.scanFrom <= |b.raw| && scan.scanFrom + scan.quietWindow <= scan.scanTo
  }

  /** Look for a chunk: audio from the mark up to a cut at a quiet point. */
  function Peek(rms: Measure, b: Buffer, minSecs: real, maxSecs: real): Option<ChunkCut> {
    if !WorthScanning(b, minSecs, maxSecs) then None
    else
      var scan := ScanOf(b, minSecs, maxSecs);
      var choice := ChosenCut(rms, scan, AnalyzedLevels(rms, b.raw, scan.frameLen));
      ChosenCutFits(rms, b, minSecs, maxSecs);
      if choice.None? then None
      else
        Some(ChunkCut(Snapshot(b.raw[..choice.value.cut], b.rate, b.channels), b.consumed + choice.value.cut, b.consumed,
                      choice.value.verifiedQuiet))
  }

  /** A peeked chunk is the audio between the mark and the cut; its length is in [min, max) and the
      cut falls on a frame. */
  lemma PeekIsBounded(rms: Measure, b: Buffer, minSecs: real, maxSecs: real)
    requires b.Aligned()
    ensures Peek(rms, b, minSecs, maxSecs).Some? ==>
              var chunk := Peek(rms, b, minSecs, maxSecs).value;
              && chunk.regionStart == b.consumed < chunk.cut <= b.RawLen()
              && chunk.cut % AtLeastOne(b.channels) == 0
              && chunk.snapshot == Snapshot(b.raw[..chunk.cut - b.consumed], b.rate, b.channels)
              && WholeFrames(minSecs, b.rate, b.channels) <= chunk.cut - chunk.regionStart
              && chunk.cut - chunk.regionStart < WholeFrames(maxSecs, b.rate, b.channels)
  {
    if Peek(rms, b, minSecs, maxSecs).Some? {
      var scan := ScanOf(b, minSecs, maxSecs);
      var choice := ChosenCut(rms, scan, AnalyzedLevels(rms, b.raw, scan.frameLen)).value;
      CutIsInRange(rms, scan, AnalyzedLevels(rms, b.raw, scan.frameLen), choice);
      MultiplesAdd(b.consumed, choice.cut, AtLeastOne(b.channels));
    }
  }

  /** A chosen cut lies inside the buffered audio. */
  lemma ChosenCutFits(rms: Measure, b: Buffer, minSecs: real, maxSecs: real)
    ensures var scan := ScanOf(b, minSecs, maxSecs);
            var choice := ChosenCut(rms, scan, AnalyzedLevels(rms, b.raw, scan.frameLen));
            choice.Some? ==> choice.value.cut < |b.raw|
  {
    var scan := ScanOf(b, minSecs, maxSecs);
    var levels := AnalyzedLevels(rms, b.raw, scan.frameLen);
    if ChosenCut(rms, scan, levels).Some? {
      CutIsInRange(rms, scan, levels, ChosenCut(rms, scan, levels).value);
    }
  }

  /** A region that has reached the maximum is always cut, provided one window fits. */
  lemma FullRegionIsCut(rms: Measure, b: Buffer, minSecs: real, maxSecs: real)
    requires WorthScanning(b, minSecs, maxSecs)
    requires |b.raw| >= WholeFrames(maxSecs, b.rate, b.channels)
    ensures Peek(rms, b, minSecs, maxSecs).Some?
  {
    var scan := ScanOf(b, minSecs, maxSecs);
    ChosenCutMeetsPolicy(rms, scan, AnalyzedLevels(rms, b.raw, scan.frameLen));
    ChosenCutFits(rms, b, minSecs, maxSecs);
  }

  // ----- The buffer as an object -----

  class AudioBuffer {
    var rawSamples: seq<real>
    var sourceSampleRate: nat
    var sourceChannels: nat
    var consumedRaw: nat
    /** Everything accepted since the buffer was last cleared or taken. */
    ghost var stream: seq<real>

    ghost predicate Valid()
      reads this
    {
      consumedRaw <= |stream| && rawSamples == stream[consumedRaw..]
    }

    function State(): Buffer
      reads this
    {
      Buffer(rawSamples, consumedRaw, sourceSampleRate, sourceChannels)
    }

    constructor (targetSampleRate: nat)
      ensures Valid() && stream == []
      ensures State() == Buffer([], 0, targetSampleRate, 1)
    {
      rawSamples, sourceSampleRate, sourceChannels, consumedRaw := [], targetSampleRate, 1, 0;
      stream := [];
    }

    method SetSourceParams(rate: nat, channels: nat)
      requires Valid()
      modifies this
      ensures Valid() && stream == old(stream)
      ensures State() == old(State()).(rate := rate, channels := channels)
    {
      sourceSampleRate, sourceChannels := rate, channels;
    }

    method PushWithCap(samples: seq<real>, cap: nat) returns (accepted: bool)
      requires Valid()
      modifies this
      ensures Valid()
      ensures accepted == old(State()).Accepts(samples, cap)
      ensures State() == old(State()).Pushed(samples, cap)
      ensures stream == if accepted then old(stream) + samples else old(stream)
    {
      var room := if cap >= |rawSamples| then cap - |rawSamples| else 0;
      if |samples| > room {
        return false;
      }
      rawSamples := rawSamples + samples;
      stream := stream + samples;
      return true;
    }

    method Clear()
      modifies this
      ensures Valid() && stream == []
      ensures State() == old(State()).Cleared(sourceSampleRate, sourceChannels)
      ensures sourceSampleRate == old(sourceSampleRate) && sourceChannels == old(sourceChannels)
    {
      rawSamples, consumedRaw := [], 0;
      stream := [];
    }

    /** Detach what was not released: the released prefix and the snapshot make up the stream. */
    method TakeRawSnapshot() returns (snapshot: Snapshot)
      requires Valid()
      modifies this
      ensures Valid() && stream == []
      ensures snapshot == Snapshot(old(rawSamples), old(sourceSampleRate), old(sourceChannels))
      ensures old(stream) == old(stream)[..old(consumedRaw)] + snapshot.samples
      ensures State() == old(State()).Taken()
    {
      snapshot := Snapshot(rawSamples, sourceSampleRate, sourceChannels);
      rawSamples, consumedRaw := [], 0;
      stream := [];
    }

    method PeekStableChunk(rms: Measure, minSecs: real, maxSecs: real) returns (chunk: Option<ChunkCut>)
      requires Valid()
      ensures chunk == Peek(rms, State(), minSecs, maxSecs)
    {
      if !WorthScanning(State(), minSecs, maxSecs) {
        return None;
      }
      var scan := ScanOf(State(), minSecs, maxSecs);
      var levels := AnalyzeLevels(rms, rawSamples, scan.frameLen);
      var choice := ChooseCut(rms, scan, levels);
      ChosenCutFits(rms, State(), minSecs, maxSecs);
      if choice.None? {
        return None;
      }
      var cut := choice.value.cut;
      return Some(ChunkCut(Snapshot(rawSamples[..cut], sourceSampleRate, sourceChannels), consumedRaw + cut, consumedRaw,
                           choice.value.verifiedQuiet));
    }

    /** Release the audio before `cut`; ignored when `cut` is no longer inside the buffer. */
    method CommitConsumed(cut: nat)
      requires Valid()
      modifies this
      ensures Valid() && stream == old(stream)
      ensures State() == old(State()).Committed(cut)
    {
      if cut > consumedRaw && cut <= consumedRaw + |rawSamples| {
        rawSamples := rawSamples[cut - consumedRaw..];
        consumedRaw := cut;
      }
    }
  }
}
