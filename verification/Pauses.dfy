/** What a pause is, in terms of the samples alone (src/audio/chunking.rs, src/audio/buffer.rs): the level analysis and
    the search for a chunk, pinned without the functions that compute them. */
module Pauses {
  import opened Wrappers
  import opened Numbers
  import opened Chunking
  import opened AudioBuffers

  // ----- Frames and smoothing -----

  /** The smoothed level of each whole frame: three tenths of its loudness, seven tenths of the level before it. */
  ghost predicate AreSmoothed(rms: Measure, samples: seq<real>, step: nat, acc: real, smoothed: seq<real>) {
    && step > 0 && |smoothed| == |samples| / step
    && forall k :: 0 <= k < |smoothed| ==> SmoothedAt(rms, samples, step, acc, smoothed, k)
  }

  ghost predicate SmoothedAt(rms: Measure, samples: seq<real>, step: nat, acc: real, smoothed: seq<real>, k: nat) {
    && k < |smoothed| && k * step + step <= |samples|
    && smoothed[k] == 0.3 * rms(samples[k * step..k * step + step]) + 0.7 * (if k == 0 then acc else smoothed[k - 1])
  }

  lemma OneFrameMore(n: nat, step: nat)
    requires step > 0
    ensures n < step ==> n / step == 0
    ensures n >= step ==> n / step == 1 + (n - step) / step
  {
    var q, r := n / step, n % step;
    assert n == step * q + r;
    if n < step {
      QuotientIsUnique(step, q, r, 0, n);
    } else {
      var p := (n - step) / step;
      assert n - step == step * p + (n - step) % step;
      assert step * (1 + p) == step + step * p;
      QuotientIsUnique(step, q, r, 1 + p, (n - step) % step);
    }
  }

  lemma ShiftedSlice(samples: seq<real>, step: nat, k: nat)
    requires step > 0 && k > 0 && k * step + step <= |samples|
    ensures (k - 1) * step + step == k * step
    ensures samples[step..][(k - 1) * step..k * step] == samples[k * step..k * step + step]
  {
    assert (k - 1) * step == k * step - step;
    assert (k - 1) * step >= 0;
  }

  lemma {:induction false} SmoothIsSmoothed(rms: Measure, samples: seq<real>, step: nat, acc: real)
    requires step > 0
    ensures AreSmoothed(rms, samples, step, acc, Smooth(acc, FrameLevels(rms, samples, step)))
    decreases |samples|
  {
    OneFrameMore(|samples|, step);
    if |samples| >= step {
      var all := Smooth(acc, FrameLevels(rms, samples, step));
      var next := all[0];
      SmoothIsSmoothed(rms, samples[step..], step, next);
      assert all[1..] == Smooth(next, FrameLevels(rms, samples[step..], step));
      forall k | 0 <= k < |all|
        ensures SmoothedAt(rms, samples, step, acc, all, k)
      {
        if k > 0 {
          assert SmoothedAt(rms, samples[step..], step, next, all[1..], k - 1);
          assert (k - 1) * step == k * step - step;
          ShiftedSlice(samples, step, k);
        }
      }
    }
  }

  // ----- The noise floor, by counting -----

  function CountBelow(s: seq<real>, x: real): nat {
    if s == [] then 0 else (if s[0] < x then 1 else 0) + CountBelow(s[1..], x)
  }

  function CountUpTo(s: seq<real>, x: real): nat {
    if s == [] then 0 else (if s[0] <= x then 1 else 0) + CountUpTo(s[1..], x)
  }

  /** At most a tenth of the levels lie below the floor, and more than a tenth at or below it. */
  ghost predicate IsFloor(smoothed: seq<real>, floor: real) {
    && floor in smoothed
    && CountBelow(smoothed, floor) <= |smoothed| / 10 < CountUpTo(smoothed, floor)
  }

  lemma {:induction false} InsertedCounts(y: real, s: seq<real>, x: real)
    requires Ascending(s)
    ensures CountBelow(Inserted(y, s), x) == (if y < x then 1 else 0) + CountBelow(s, x)
    ensures CountUpTo(Inserted(y, s), x) == (if y <= x then 1 else 0) + CountUpTo(s, x)
  {
    if s != [] && y > s[0] {
      var rest := Inserted(y, s[1..]);
      InsertedCounts(y, s[1..], x);
      assert Inserted(y, s)[1..] == rest;
    } else {
      assert Inserted(y, s)[1..] == s;
    }
  }

  lemma {:induction false} SortedCounts(s: seq<real>, x: real)
    ensures CountBelow(Sorted(s), x) == CountBelow(s, x) && CountUpTo(Sorted(s), x) == CountUpTo(s, x)
  {
    if s != [] {
      SortedCounts(s[1..], x);
      InsertedCounts(s[0], Sorted(s[1..]), x);
    }
  }

  lemma {:induction false} AscendingCounts(s: seq<real>, i: nat)
    requires Ascending(s) && i < |s|
    ensures CountBelow(s, s[i]) <= i < CountUpTo(s, s[i])
  {
    if i > 0 {
      AscendingCounts(s[1..], i - 1);
    } else {
      NoneBelowFirst(s, s[0]);
    }
  }

  lemma {:induction false} NoneBelowFirst(s: seq<real>, x: real)
    requires forall k :: 0 <= k < |s| ==> x <= s[k]
    ensures CountBelow(s, x) == 0
  {
    if s != [] {
      NoneBelowFirst(s[1..], x);
    }
  }

  /** The element at a tenth of the sorted levels. */
  lemma NoiseFloorIsFloor(smoothed: seq<real>)
    requires smoothed != []
    ensures IsFloor(smoothed, NoiseFloor(smoothed))
  {
    var floor := NoiseFloor(smoothed);
    SortedIsPermutation(smoothed);
    SortedCounts(smoothed, floor);
    AscendingCounts(Sorted(smoothed), |smoothed| / 10);
    assert floor in multiset(Sorted(smoothed));
  }

  lemma {:induction false} UpToIsBelow(s: seq<real>, x: real, y: real)
    requires x < y
    ensures CountUpTo(s, x) <= CountBelow(s, y)
  {
    if s != [] {
      UpToIsBelow(s[1..], x, y);
    }
  }

  lemma FloorIsUnique(smoothed: seq<real>, a: real, b: real)
    requires IsFloor(smoothed, a) && IsFloor(smoothed, b)
    ensures a == b
  {
    if a < b {
      UpToIsBelow(smoothed, a, b);
    } else if b < a {
      UpToIsBelow(smoothed, b, a);
    }
  }

  // ----- The levels -----

  ghost predicate IsPeak(smoothed: seq<real>, peak: real) {
    && peak >= 0.0
    && (forall x :: x in smoothed ==> x <= peak)
    && (peak == 0.0 || peak in smoothed)
  }

  /** Three times the floor or 15% of the peak, whichever is less. */
  function PauseLevel(floor: real, peak: real): real {
    if 3.0 * floor <= 0.15 * peak then 3.0 * floor else 0.15 * peak
  }

  ghost predicate AreLevels(smoothed: seq<real>, levels: Levels) {
    && IsPeak(smoothed, levels.speechLevel)
    && (smoothed == [] ==> levels.silenceThreshold == 0.0024)
    && (forall floor :: IsFloor(smoothed, floor) ==>
          IsNearest(levels.silenceThreshold, PauseLevel(floor, levels.speechLevel), 0.0024, 0.048))
  }

  /** The analysis: the speech level is the peak of the smoothed levels, and the silence threshold is as near to the pause
      level as the two clamps allow. */
  lemma AnalysisIsExact(rms: Measure, samples: seq<real>, frameLen: nat) returns (smoothed: seq<real>)
    ensures AreSmoothed(rms, samples, AtLeastOne(frameLen), 0.0, smoothed)
    ensures AreLevels(smoothed, AnalyzedLevels(rms, samples, frameLen))
    ensures smoothed != [] ==> exists floor :: IsFloor(smoothed, floor)
  {
    smoothed := Smooth(0.0, FrameLevels(rms, samples, AtLeastOne(frameLen)));
    SmoothIsSmoothed(rms, samples, AtLeastOne(frameLen), 0.0);
    if smoothed != [] {
      NoiseFloorIsFloor(smoothed);
      forall floor | IsFloor(smoothed, floor)
        ensures floor == NoiseFloor(smoothed)
      {
        FloorIsUnique(smoothed, floor, NoiseFloor(smoothed));
      }
    }
  }

  lemma {:induction false} SmoothedAreUnique(rms: Measure, samples: seq<real>, step: nat, acc: real, a: seq<real>,
      b: seq<real>, k: nat)
    requires AreSmoothed(rms, samples, step, acc, a) && AreSmoothed(rms, samples, step, acc, b) && k < |a|
    ensures a[k] == b[k]
  {
    assert SmoothedAt(rms, samples, step, acc, a, k) && SmoothedAt(rms, samples, step, acc, b, k);
    if k > 0 {
      SmoothedAreUnique(rms, samples, step, acc, a, b, k - 1);
    }
  }

  /** These clauses leave the analysis no freedom. */
  lemma AnalysisIsUnique(rms: Measure, samples: seq<real>, step: nat, a: seq<real>, b: seq<real>, m: Levels, n: Levels)
    requires AreSmoothed(rms, samples, step, 0.0, a) && AreSmoothed(rms, samples, step, 0.0, b)
    requires AreLevels(a, m) && AreLevels(b, n)
    ensures m == n
  {
    forall k | 0 <= k < |a|
      ensures a[k] == b[k]
    {
      SmoothedAreUnique(rms, samples, step, 0.0, a, b, k);
    }
    assert a == b;
    if a != [] {
      NoiseFloorIsFloor(a);
      assert IsNearest(m.silenceThreshold, PauseLevel(NoiseFloor(a), m.speechLevel), 0.0024, 0.048);
      assert IsNearest(n.silenceThreshold, PauseLevel(NoiseFloor(a), n.speechLevel), 0.0024, 0.048);
    }
  }

  // ----- The windows and the cut -----

  /** The `k`th window of the scan is quieter than `level`. */
  ghost predicate IsPauseAt(rms: Measure, scan: Scan, level: real, k: nat)
    requires scan.Valid()
  {
    var start := scan.scanFrom + k * scan.quietWindow;
    start + scan.quietWindow <= scan.scanTo && rms(scan.region[start..start + scan.quietWindow]) < level
  }

  /** The `k`th window from `pos` on, if there is one. */
  ghost predicate TilesAt(rms: Measure, scan: Scan, ws: seq<Window>, k: nat, start: nat)
    requires scan.Valid()
  {
    && (k < |ws| <==> start + scan.quietWindow <= scan.scanTo)
    && (k < |ws| ==> ws[k] == Window(start, rms(scan.region[start..start + scan.quietWindow])))
  }

  lemma OneStepMore(k: nat, step: nat)
    requires k > 0
    ensures (k - 1) * step >= 0 && k * step == (k - 1) * step + step
  {
  }

  lemma TilesOneMore(rms: Measure, scan: Scan, pos: nat, k: nat, start: nat)
    requires scan.Valid() && k > 0 && pos + scan.quietWindow <= scan.scanTo
    requires TilesAt(rms, scan, Windows(rms, scan, pos + scan.quietWindow), k - 1, start)
    ensures TilesAt(rms, scan, Windows(rms, scan, pos), k, start)
  {
  }

  lemma {:induction false} WindowsTile(rms: Measure, scan: Scan, pos: nat, k: nat)
    requires scan.Valid()
    ensures k * scan.quietWindow >= 0 && TilesAt(rms, scan, Windows(rms, scan, pos), k, pos + k * scan.quietWindow)
    decreases k
  {
    if k > 0 {
      OneStepMore(k, scan.quietWindow);
      if pos + scan.quietWindow <= scan.scanTo {
        WindowsTile(rms, scan, pos + scan.quietWindow, k - 1);
        TilesOneMore(rms, scan, pos, k, pos + k * scan.quietWindow);
      }
    }
  }

  lemma PauseIsQuietWindow(rms: Measure, scan: Scan, level: real)
    requires scan.Valid()
    ensures NoneQuiet(Windows(rms, scan, scan.scanFrom), level) <==> forall k :: !IsPauseAt(rms, scan, level, k)
  {
    var ws := Windows(rms, scan, scan.scanFrom);
    if NoneQuiet(ws, level) {
      forall k
        ensures !IsPauseAt(rms, scan, level, k)
      {
        WindowsTile(rms, scan, scan.scanFrom, k);
      }
    } else {
      var k :| 0 <= k < |ws| && ws[k].level < level;
      WindowsTile(rms, scan, scan.scanFrom, k);
      assert IsPauseAt(rms, scan, level, k);
    }
  }

  /** An unforced scan finds a cut exactly when some window of the scan is quieter than the silence threshold, and a forced
      one exactly when there is a window at all. */
  lemma CutIsFoundExactly(rms: Measure, scan: Scan, levels: Levels)
    requires scan.Valid()
    ensures ChosenCut(rms, scan, levels).Some? <==>
              (scan.force && scan.scanFrom + scan.quietWindow <= scan.scanTo)
              || exists k :: IsPauseAt(rms, scan, levels.silenceThreshold, k)
  {
    ChosenCutMeetsPolicy(rms, scan, levels);
    PauseIsQuietWindow(rms, scan, levels.silenceThreshold);
    WindowsTile(rms, scan, scan.scanFrom, 0);
  }

  /** A window quieter than three times the floor, 15% of the peak and the upper clamp is always found. */
  lemma QuietWindowIsCut(rms: Measure, scan: Scan, smoothed: seq<real>, floor: real, peak: real, k: nat)
    requires scan.Valid() && AreSmoothed(rms, scan.region, AtLeastOne(scan.frameLen), 0.0, smoothed)
    requires IsFloor(smoothed, floor) && IsPeak(smoothed, peak)
    requires IsPauseAt(rms, scan, MinReal(PauseLevel(floor, peak), 0.048), k)
    ensures ChosenCut(rms, scan, AnalyzedLevels(rms, scan.region, scan.frameLen)).Some?
  {
    var levels := AnalyzedLevels(rms, scan.region, scan.frameLen);
    var analysed := AnalysisIsExact(rms, scan.region, scan.frameLen);
    forall i | 0 <= i < |smoothed|
      ensures smoothed[i] == analysed[i]
    {
      SmoothedAreUnique(rms, scan.region, AtLeastOne(scan.frameLen), 0.0, smoothed, analysed, i);
    }
    assert smoothed == analysed;
    assert IsNearest(levels.silenceThreshold, PauseLevel(floor, levels.speechLevel), 0.0024, 0.048);
    assert IsPauseAt(rms, scan, levels.silenceThreshold, k);
    CutIsFoundExactly(rms, scan, levels);
  }

  // ----- The search for a chunk -----

  /** The `k`th window from `least` on lies within the audio and the first `most` samples, and is quieter than `level`. */
  ghost predicate IsQuiet(rms: Measure, raw: seq<real>, least: nat, window: nat, most: nat, level: real, k: nat) {
    var start := least + k * window;
    start + window <= |raw| && start + window <= most && rms(raw[start..start + window]) < level
  }

  /** The search range: from the minimum to the maximum, or to the end of the audio. */
  lemma ScanIsOfTheAudio(rms: Measure, b: Buffer, scan: Scan, minSecs: real, maxSecs: real)
    requires scan == ScanOf(b, minSecs, maxSecs)
    ensures scan.region == b.raw && scan.scanFrom == WholeFrames(minSecs, b.rate, b.channels)
    ensures scan.force <==> |b.raw| >= WholeFrames(maxSecs, b.rate, b.channels)
    ensures scan.scanTo == Min(|b.raw|, WholeFrames(maxSecs, b.rate, b.channels))
    ensures scan.quietWindow == SomeFrames(CHUNK_QUIET_WINDOW_SECS, b.rate, b.channels)
    ensures scan.frameLen == SomeFrames(FRAME_SECS, b.rate, b.channels)
  {
  }

  lemma QuietIsPause(rms: Measure, scan: Scan, raw: seq<real>, most: nat, level: real, k: nat)
    requires scan.Valid() && scan.region == raw && scan.scanTo == Min(|raw|, most)
    ensures IsPauseAt(rms, scan, level, k) <==> IsQuiet(rms, raw, scan.scanFrom, scan.quietWindow, most, level, k)
  {
    assert k * scan.quietWindow >= 0;
  }

  lemma PeekIsAChoice(rms: Measure, b: Buffer, scan: Scan, minSecs: real, maxSecs: real)
    requires scan == ScanOf(b, minSecs, maxSecs)
    ensures Peek(rms, b, minSecs, maxSecs).Some? <==>
              && 0 < scan.scanFrom && scan.scanFrom + scan.quietWindow <= scan.scanTo
              && ChosenCut(rms, scan, AnalyzedLevels(rms, b.raw, scan.frameLen)).Some?
  {
    ScanIsOfTheAudio(rms, b, scan, minSecs, maxSecs);
    assert scan.scanTo <= |b.raw|;
  }

  /** Of the samples after the mark: there is a chunk exactly when the range holds a window, and the region has reached
      its maximum or some window of the range is under the threshold. */
  lemma ChunkIsFoundExactly(rms: Measure, b: Buffer, minSecs: real, maxSecs: real)
    ensures
      var least, most := WholeFrames(minSecs, b.rate, b.channels), WholeFrames(maxSecs, b.rate, b.channels);
      var window := SomeFrames(CHUNK_QUIET_WINDOW_SECS, b.rate, b.channels);
      var level := AnalyzedLevels(rms, b.raw, SomeFrames(FRAME_SECS, b.rate, b.channels)).silenceThreshold;
      Peek(rms, b, minSecs, maxSecs).Some? <==>
        && 0 < least && least + window <= |b.raw| && least + window <= most
        && (|b.raw| >= most || exists k :: IsQuiet(rms, b.raw, least, window, most, level, k))
  {
    var scan := ScanOf(b, minSecs, maxSecs);
    var levels := AnalyzedLevels(rms, b.raw, scan.frameLen);
    PeekIsAChoice(rms, b, scan, minSecs, maxSecs);
    ScanIsOfTheAudio(rms, b, scan, minSecs, maxSecs);
    CutIsFoundExactly(rms, scan, levels);
    forall k
      ensures IsPauseAt(rms, scan, levels.silenceThreshold, k)
         <==> IsQuiet(rms, b.raw, scan.scanFrom, scan.quietWindow, WholeFrames(maxSecs, b.rate, b.channels),
                      levels.silenceThreshold, k)
    {
      QuietIsPause(rms, scan, b.raw, WholeFrames(maxSecs, b.rate, b.channels), levels.silenceThreshold, k);
    }
  }

  /** `k` is the first pause of the scan, if there is one. */
  ghost predicate IsFirstPause(rms: Measure, scan: Scan, level: real, k: nat)
    requires scan.Valid()
  {
    && (forall j :: 0 <= j < k ==> !IsPauseAt(rms, scan, level, j))
    && (IsPauseAt(rms, scan, level, k) || forall j :: !IsPauseAt(rms, scan, level, j))
  }

  /** Every analysis frame of the window reads at most a quarter of the speech level. */
  ghost predicate IsSilence(rms: Measure, scan: Scan, levels: Levels, k: nat) {
    var start := scan.scanFrom + k * scan.quietWindow;
    && start + scan.quietWindow <= |scan.region|
    && EveryFrameWithin(rms, scan.region[start..start + scan.quietWindow], AtLeastOne(scan.frameLen), 0.25 * levels.speechLevel)
  }

  lemma VerifiedIsSilence(rms: Measure, scan: Scan, levels: Levels, k: nat)
    requires levels.speechLevel >= 0.0
    ensures Verified(rms, scan, levels, scan.scanFrom + k * scan.quietWindow) <==> IsSilence(rms, scan, levels, k)
  {
    var w := scan.scanFrom + k * scan.quietWindow;
    if w + scan.quietWindow <= |scan.region| {
      PeakFrameIsTight(rms, scan.region[w..w + scan.quietWindow], AtLeastOne(scan.frameLen), 0.0);
    }
  }

  /** The cut is the middle of the `k`th window, and verified exactly when that is a pause and silence. */
  ghost predicate IsCutAt(rms: Measure, scan: Scan, levels: Levels, choice: CutChoice, k: nat)
    requires scan.Valid()
  {
    && choice.cut == MidCut(scan.scanFrom + k * scan.quietWindow, scan.quietWindow, scan.channels)
    && (choice.verifiedQuiet <==> IsPauseAt(rms, scan, levels.silenceThreshold, k) && IsSilence(rms, scan, levels, k))
  }

  lemma WindowIsPause(rms: Measure, scan: Scan, level: real, k: nat)
    requires scan.Valid() && k < |Windows(rms, scan, scan.scanFrom)|
    ensures Windows(rms, scan, scan.scanFrom)[k].start == scan.scanFrom + k * scan.quietWindow
    ensures IsPauseAt(rms, scan, level, k) <==> Windows(rms, scan, scan.scanFrom)[k].level < level
  {
    WindowsTile(rms, scan, scan.scanFrom, k);
  }

  lemma FirstQuietIsFirstPause(rms: Measure, scan: Scan, level: real, k: nat)
    requires scan.Valid() && FirstQuiet(Windows(rms, scan, scan.scanFrom), level, k)
    ensures IsPauseAt(rms, scan, level, k) && IsFirstPause(rms, scan, level, k)
  {
    forall j | 0 <= j <= k
      ensures IsPauseAt(rms, scan, level, j) <==> j == k
    {
      WindowIsPause(rms, scan, level, j);
    }
  }

  lemma PickIsFirstPause(rms: Measure, scan: Scan, levels: Levels, pick: Pick) returns (k: nat)
    requires scan.Valid() && PickPolicy(rms, scan, levels, Some(pick))
    ensures pick.window == scan.scanFrom + k * scan.quietWindow
    ensures IsFirstPause(rms, scan, levels.silenceThreshold, k)
    ensures pick.verified <==> IsPauseAt(rms, scan, levels.silenceThreshold, k) && Verified(rms, scan, levels, pick.window)
  {
    var ws, t := Windows(rms, scan, scan.scanFrom), levels.silenceThreshold;
    PauseIsQuietWindow(rms, scan, t);
    if NoneQuiet(ws, t) {
      k :| FirstQuietest(ws, k) && pick == Pick(ws[k].start, false);
    } else {
      k :| FirstQuiet(ws, t, k) && pick == Pick(ws[k].start, Verified(rms, scan, levels, ws[k].start));
      FirstQuietIsFirstPause(rms, scan, t, k);
    }
    WindowIsPause(rms, scan, t, k);
  }

  /** A chunk ends in the first pause of the search range, and is verified exactly when that is silence; without a pause it
      is not verified. */
  lemma ChunkEndsInFirstPause(rms: Measure, b: Buffer, minSecs: real, maxSecs: real) returns (k: nat)
    requires Peek(rms, b, minSecs, maxSecs).Some?
    ensures
      var scan, chunk := ScanOf(b, minSecs, maxSecs), Peek(rms, b, minSecs, maxSecs).value;
      var levels := AnalyzedLevels(rms, b.raw, scan.frameLen);
      && IsFirstPause(rms, scan, levels.silenceThreshold, k)
      && chunk.cut >= b.consumed
      && IsCutAt(rms, scan, levels, CutChoice(chunk.cut - b.consumed, chunk.verifiedQuiet), k)
  {
    var scan := ScanOf(b, minSecs, maxSecs);
    var levels := AnalyzedLevels(rms, b.raw, scan.frameLen);
    var smoothed := AnalysisIsExact(rms, b.raw, scan.frameLen);
    ChosenCutMeetsPolicy(rms, scan, levels);
    k := PickIsFirstPause(rms, scan, levels, PickFrom(rms, scan, levels, Windows(rms, scan, scan.scanFrom), None).value);
    VerifiedIsSilence(rms, scan, levels, k);
  }

  /** At 16 kHz, mono: a chunk of twenty to forty seconds, a window of a quarter, a frame of three hundredths. */
  lemma AtSixteenKilohertz()
    ensures WholeFrames(20.0, 16_000, 1) == 320_000 && WholeFrames(40.0, 16_000, 1) == 640_000
    ensures SomeFrames(CHUNK_QUIET_WINDOW_SECS, 16_000, 1) == 4_000 && SomeFrames(FRAME_SECS, 16_000, 1) == 480
  {
  }
}
