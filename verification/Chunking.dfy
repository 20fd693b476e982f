/** Where a recording may be cut, and what a cut allows to be committed (src/audio/chunking.rs).
    Amplitudes are reals. The loudness of a slice (its root mean square) is a parameter: the policy
    only ever compares loudness values, so everything below holds for any measure. */
module Chunking {
  import opened Wrappers
  import opened Numbers

  type Measure = seq<real> -> real

  const SMOOTH_ALPHA: real := 0.3
  const FLOOR_CAP_RATIO: real := 0.05
  const FLOOR_MULT: real := 3.0
  const MIN_SILENCE_THRESHOLD: real := 0.0024
  const MAX_SILENCE_THRESHOLD: real := 0.048
  const QUIET_FRAME_RATIO: real := 0.25
  const TAIL_GUARD_MS: real := 500.0

  // ----- Adaptive levels -----

  datatype Levels = Levels(speechLevel: real, silenceThreshold: real)

  /** The loudness of each whole analysis frame; an incomplete last frame is ignored. */
  function FrameLevels(rms: Measure, samples: seq<real>, frameLen: nat): seq<real>
    requires frameLen > 0
  {
    if |samples| < frameLen then []
    else [rms(samples[..frameLen])] + FrameLevels(rms, samples[frameLen..], frameLen)
  }

  /** Exponential smoothing starting from `acc`. */
  function Smooth(acc: real, levels: seq<real>): seq<real>
    decreases levels
  {
    if levels == [] then []
    else
      var next := SMOOTH_ALPHA * levels[0] + (1.0 - SMOOTH_ALPHA) * acc;
      [next] + Smooth(next, levels[1..])
  }

  /** The largest of `levels` and `least`. */
  function PeakFrom(least: real, levels: seq<real>): (p: real)
    ensures p >= least
    ensures forall x :: x in levels ==> x <= p
    ensures p == least || p in levels
    decreases levels
  {
    if levels == [] then least
    else
      var p := PeakFrom(MaxReal(least, levels[0]), levels[1..]);
      assert forall x :: x in levels ==> x == levels[0] || x in levels[1..];
      p
  }

  ghost predicate Ascending(s: seq<real>) {
    forall i, j :: 0 <= i < j < |s| ==> s[i] <= s[j]
  }

  lemma ConsAscending(x: real, s: seq<real>)
    requires Ascending(s) && forall y :: y in s ==> x <= y
    ensures Ascending([x] + s)
  {
    var t := [x] + s;
    forall i, j | 0 <= i < j < |t| ensures t[i] <= t[j] {
      assert t[j] == s[j - 1] && s[j - 1] in s;
    }
  }

  function Inserted(x: real, s: seq<real>): (r: seq<real>)
    requires Ascending(s)
    ensures |r| == |s| + 1
    ensures forall y :: y in r ==> y == x || y in s
    ensures Ascending(r)
  {
    if s == [] || x <= s[0] then [x] + s
    else
      var rest := Inserted(x, s[1..]);
      assert forall y :: y in rest ==> s[0] <= y;
      ConsAscending(s[0], rest);
      [s[0]] + rest
  }

  function Sorted(s: seq<real>): (r: seq<real>)
    ensures |r| == |s|
    ensures Ascending(r)
  {
    if s == [] then [] else Inserted(s[0], Sorted(s[1..]))
  }

  lemma {:induction false} InsertedKeepsElements(x: real, s: seq<real>)
    requires Ascending(s)
    ensures multiset(Inserted(x, s)) == multiset{x} + multiset(s)
  {
    if s != [] && x > s[0] {
      InsertedKeepsElements(x, s[1..]);
      assert s == [s[0]] + s[1..];
    }
  }

  /** Sorting rearranges, as the standard library promises. */
  lemma {:induction false} SortedIsPermutation(s: seq<real>)
    ensures multiset(Sorted(s)) == multiset(s)
  {
    if s != [] {
      SortedIsPermutation(s[1..]);
      InsertedKeepsElements(s[0], Sorted(s[1..]));
      assert s == [s[0]] + s[1..];
    }
  }

  /** The low percentile (index n/10 of the ascending order) that estimates the room noise. */
  function NoiseFloor(smoothed: seq<real>): real
    requires smoothed != []
  {
    Sorted(smoothed)[|smoothed| / 10]
  }

  /** Three times the noise floor, but no more than 15% of the speech level, held between the two clamps. */
  function ThresholdFor(noise: real, speechLevel: real): (t: real)
    ensures IsNearest(t, MinReal(3.0 * noise, 0.15 * speechLevel), 0.0024, 0.048)
  {
    Clamp(MinReal(noise, FLOOR_CAP_RATIO * speechLevel) * FLOOR_MULT, MIN_SILENCE_THRESHOLD, MAX_SILENCE_THRESHOLD)
  }

  /** `t` is the number between `lo` and `hi` that is nearest to `x`. */
  predicate IsNearest(t: real, x: real, lo: real, hi: real) {
    && lo <= t <= hi
    && (t == lo || t <= x)
    && (t == hi || t >= x)
  }

  function LevelsOf(smoothed: seq<real>): Levels {
    if smoothed == [] then Levels(0.0, MIN_SILENCE_THRESHOLD)
    else
      var speech := PeakFrom(0.0, smoothed);
      Levels(speech, ThresholdFor(NoiseFloor(smoothed), speech))
  }

  function AnalyzedLevels(rms: Measure, samples: seq<real>, frameLen: nat): Levels {
    LevelsOf(Smooth(0.0, FrameLevels(rms, samples, AtLeastOne(frameLen))))
  }

  /** The levels smoothed so far, followed by what smoothing makes of the frames from `pos` on, are all smoothed levels. */
  ghost predicate SmoothedSoFar(rms: Measure, samples: seq<real>, step: nat, pos: nat, acc: real, smoothed: seq<real>) {
    && step > 0 && pos <= |samples|
    && smoothed + Smooth(acc, FrameLevels(rms, samples[pos..], step)) == Smooth(0.0, FrameLevels(rms, samples, step))
  }

  method AnalyzeLevels(rms: Measure, samples: seq<real>, frameLen: nat) returns (levels: Levels)
    ensures levels == AnalyzedLevels(rms, samples, frameLen)
  {
    var step := AtLeastOne(frameLen);
    var smoothed: seq<real>, acc, pos := [], 0.0, 0;
    NothingSmoothed(rms, samples, step);
    while pos + step <= |samples|
      invariant SmoothedSoFar(rms, samples, step, pos, acc, smoothed)
    {
      OneMoreSmoothed(rms, samples, step, pos, acc, smoothed);
      acc := SMOOTH_ALPHA * rms(samples[pos..pos + step]) + (1.0 - SMOOTH_ALPHA) * acc;
      smoothed := smoothed + [acc];
      pos := pos + step;
    }
    AllSmoothed(rms, samples, step, pos, acc, smoothed);
    levels := LevelsOf(smoothed);
  }

  lemma NothingSmoothed(rms: Measure, samples: seq<real>, step: nat)
    requires step > 0
    ensures SmoothedSoFar(rms, samples, step, 0, 0.0, [])
  {
    assert samples[0..] == samples;
  }

  lemma OneMoreSmoothed(rms: Measure, samples: seq<real>, step: nat, pos: nat, acc: real, smoothed: seq<real>)
    requires SmoothedSoFar(rms, samples, step, pos, acc, smoothed) && pos + step <= |samples|
    ensures
      var next := SMOOTH_ALPHA * rms(samples[pos..pos + step]) + (1.0 - SMOOTH_ALPHA) * acc;
      SmoothedSoFar(rms, samples, step, pos + step, next, smoothed + [next])
  {
    var next := SMOOTH_ALPHA * rms(samples[pos..pos + step]) + (1.0 - SMOOTH_ALPHA) * acc;
    var rest := Smooth(next, FrameLevels(rms, samples[pos + step..], step));
    SmoothStep(rms, samples, step, pos, acc);
    assert smoothed + [next] + rest == smoothed + ([next] + rest);
  }

  lemma AllSmoothed(rms: Measure, samples: seq<real>, step: nat, pos: nat, acc: real, smoothed: seq<real>)
    requires SmoothedSoFar(rms, samples, step, pos, acc, smoothed) && pos + step > |samples|
    ensures smoothed == Smooth(0.0, FrameLevels(rms, samples, step))
  {
    assert FrameLevels(rms, samples[pos..], step) == [];
    assert smoothed + [] == smoothed;
  }

  lemma SmoothStep(rms: Measure, samples: seq<real>, step: nat, pos: nat, acc: real)
    requires step > 0 && pos + step <= |samples|
    ensures var next := SMOOTH_ALPHA * rms(samples[pos..pos + step]) + (1.0 - SMOOTH_ALPHA) * acc;
            Smooth(acc, FrameLevels(rms, samples[pos..], step))
              == [next] + Smooth(next, FrameLevels(rms, samples[pos + step..], step))
  {
    var rest := samples[pos..];
    assert rest[..step] == samples[pos..pos + step];
    assert rest[step..] == samples[pos + step..];
    assert FrameLevels(rms, rest, step)[1..] == FrameLevels(rms, samples[pos + step..], step);
  }

  /** Smoothing is an average: it never exceeds a bound on what it averages. */
  lemma {:induction false} SmoothIsBounded(acc: real, levels: seq<real>, bound: real)
    requires acc <= bound
    requires forall x :: x in levels ==> x <= bound
    ensures forall x :: x in Smooth(acc, levels) ==> x <= bound
    decreases levels
  {
    if levels != [] {
      assert levels[0] in levels;
      assert forall x :: x in levels[1..] ==> x in levels;
      var next := SMOOTH_ALPHA * levels[0] + (1.0 - SMOOTH_ALPHA) * acc;
      assert next <= SMOOTH_ALPHA * bound + (1.0 - SMOOTH_ALPHA) * bound == bound;
      SmoothIsBounded(next, levels[1..], bound);
    }
  }

  function LoudestFrame(rms: Measure, samples: seq<real>, frameLen: nat): real {
    PeakFrom(0.0, FrameLevels(rms, samples, AtLeastOne(frameLen)))
  }

  /** The tracked speech level never exceeds the loudest analysis frame. */
  lemma SpeechLevelBelowLoudestFrame(rms: Measure, samples: seq<real>, frameLen: nat)
    ensures AnalyzedLevels(rms, samples, frameLen).speechLevel <= LoudestFrame(rms, samples, frameLen)
  {
    SmoothIsBounded(0.0, FrameLevels(rms, samples, AtLeastOne(frameLen)), LoudestFrame(rms, samples, frameLen));
  }

  // ----- Choosing a cut -----

  datatype Scan = Scan(region: seq<real>, channels: nat, frameLen: nat, quietWindow: nat,
                       scanFrom: nat, scanTo: nat, force: bool)
  {
    ghost predicate Valid() {
      quietWindow > 0 && scanTo <= |region|
    }
  }

  datatype CutChoice = CutChoice(cut: nat, verifiedQuiet: bool)

  /** The window a cut is made in. */
  datatype Pick = Pick(window: nat, verified: bool)

  function CutIn(scan: Scan, pick: Option<Pick>): Option<CutChoice> {
    if pick.None? then None
    else Some(CutChoice(MidCut(pick.value.window, scan.quietWindow, scan.channels), pick.value.verified))
  }

  /** A window of the scan: where it starts and how loud it is. */
  datatype Window = Window(start: nat, level: real)

  function WindowLevel(rms: Measure, scan: Scan, w: nat): real
    requires scan.Valid() && w + scan.quietWindow <= scan.scanTo
  {
    rms(scan.region[w..w + scan.quietWindow])
  }

  /** The windows that tile the scan range from `pos` on. */
  function Windows(rms: Measure, scan: Scan, pos: nat): (ws: seq<Window>)
    requires scan.Valid()
    decreases scan.scanTo - pos
  {
    if pos + scan.quietWindow > scan.scanTo then []
    else [Window(pos, WindowLevel(rms, scan, pos))] + Windows(rms, scan, pos + scan.quietWindow)
  }

  ghost predicate IsWindow(rms: Measure, scan: Scan, w: Window)
    requires scan.Valid()
  {
    && scan.scanFrom <= w.start && w.start + scan.quietWindow <= scan.scanTo
    && w.level == WindowLevel(rms, scan, w.start)
  }

  lemma {:induction false} WindowsAreInRange(rms: Measure, scan: Scan, pos: nat)
    requires scan.Valid() && scan.scanFrom <= pos
    ensures forall w :: w in Windows(rms, scan, pos) ==> IsWindow(rms, scan, w)
    decreases scan.scanTo - pos
  {
    if pos + scan.quietWindow <= scan.scanTo {
      WindowsAreInRange(rms, scan, pos + scan.quietWindow);
    }
  }

  /** The loudest frame of a window; unlike in the levels, its incomplete last frame counts. */
  function PeakFrame(rms: Measure, window: seq<real>, frameLen: nat, least: real): (p: real)
    requires frameLen > 0
    ensures p >= least
    decreases |window|
  {
    if window == [] then least
    else
      var n := if |window| < frameLen then |window| else frameLen;
      PeakFrame(rms, window[n..], frameLen, MaxReal(least, rms(window[..n])))
  }

  function MidCut(windowStart: nat, quietWindow: nat, channels: nat): (cut: nat)
    ensures cut % AtLeastOne(channels) == 0
    ensures cut <= windowStart + quietWindow / 2 < cut + AtLeastOne(channels)
    ensures windowStart % AtLeastOne(channels) == 0 ==> cut >= windowStart
  {
    var mid, c := windowStart + quietWindow / 2, AtLeastOne(channels);
    FlooredToMultiple(mid, windowStart, c);
    mid - mid % c
  }

  /** Even the loudest frame of the window at `w` reads far below speech. */
  predicate Verified(rms: Measure, scan: Scan, levels: Levels, w: nat) {
    w + scan.quietWindow <= |scan.region| && PeakFrame(rms, scan.region[w..w + scan.quietWindow], AtLeastOne(scan.frameLen), 0.0)
      <= levels.speechLevel * QUIET_FRAME_RATIO
  }

  /** `k` is the first window under the threshold. */
  ghost predicate FirstQuiet(ws: seq<Window>, threshold: real, k: int) {
    && 0 <= k < |ws|
    && ws[k].level < threshold
    && forall j :: 0 <= j < k ==> ws[j].level >= threshold
  }

  ghost predicate NoneQuiet(ws: seq<Window>, threshold: real) {
    forall j :: 0 <= j < |ws| ==> ws[j].level >= threshold
  }

  /** `k` is the first of the quietest windows. */
  ghost predicate FirstQuietest(ws: seq<Window>, k: int) {
    && 0 <= k < |ws|
    && (forall j :: 0 <= j < |ws| ==> ws[k].level <= ws[j].level)
    && (forall j :: 0 <= j < k ==> ws[k].level < ws[j].level)
  }

  /** The policy: the first window under the threshold; failing that the first quietest window,
      never verified, when the cut is forced; failing that no cut. */
  ghost predicate PickPolicy(rms: Measure, scan: Scan, levels: Levels, pick: Option<Pick>)
    requires scan.Valid()
  {
    var ws := Windows(rms, scan, scan.scanFrom);
    if !NoneQuiet(ws, levels.silenceThreshold) then
      exists k :: FirstQuiet(ws, levels.silenceThreshold, k)
        && pick == Some(Pick(ws[k].start, Verified(rms, scan, levels, ws[k].start)))
    else if scan.force && ws != [] then
      exists k :: FirstQuietest(ws, k) && pick == Some(Pick(ws[k].start, false))
    else
      pick == None
  }

  ghost predicate CutPolicy(rms: Measure, scan: Scan, levels: Levels, choice: Option<CutChoice>)
    requires scan.Valid()
  {
    exists pick :: PickPolicy(rms, scan, levels, pick) && choice == CutIn(scan, pick)
  }

  /** The policy leaves no freedom. */
  lemma PickPolicyIsDeterministic(rms: Measure, scan: Scan, levels: Levels, a: Option<Pick>, b: Option<Pick>)
    requires scan.Valid()
    requires PickPolicy(rms, scan, levels, a) && PickPolicy(rms, scan, levels, b)
    ensures a == b
  {
    var ws := Windows(rms, scan, scan.scanFrom);
    if !NoneQuiet(ws, levels.silenceThreshold) {
      var i :| FirstQuiet(ws, levels.silenceThreshold, i)
        && a == Some(Pick(ws[i].start, Verified(rms, scan, levels, ws[i].start)));
      var j :| FirstQuiet(ws, levels.silenceThreshold, j)
        && b == Some(Pick(ws[j].start, Verified(rms, scan, levels, ws[j].start)));
      assert i == j;
    } else if scan.force && ws != [] {
      var i :| FirstQuietest(ws, i) && a == Some(Pick(ws[i].start, false));
      var j :| FirstQuietest(ws, j) && b == Some(Pick(ws[j].start, false));
      assert i == j;
    }
  }

  /** The one-pass scan of the remaining windows, remembering the best one so far. */
  function PickFrom(rms: Measure, scan: Scan, levels: Levels, ws: seq<Window>, best: Option<Window>): Option<Pick> {
    if ws == [] then
      if scan.force && best.Some? then Some(Pick(best.value.start, false)) else None
    else if ws[0].level < levels.silenceThreshold then
      Some(Pick(ws[0].start, Verified(rms, scan, levels, ws[0].start)))
    else
      PickFrom(rms, scan, levels, ws[1..], if best.Some? && ws[0].level >= best.value.level then best else Some(ws[0]))
  }

  function ChosenCut(rms: Measure, scan: Scan, levels: Levels): Option<CutChoice>
    requires scan.Valid()
  {
    CutIn(scan, PickFrom(rms, scan, levels, Windows(rms, scan, scan.scanFrom), None))
  }

  method ChooseCut(rms: Measure, scan: Scan, levels: Levels) returns (choice: Option<CutChoice>)
    requires scan.Valid()
    ensures choice == ChosenCut(rms, scan, levels)
  {
    if scan.scanFrom + scan.quietWindow > scan.scanTo {
      return None;
    }
    var best: Option<Window> := None;
    var pos := scan.scanFrom;
    while pos + scan.quietWindow <= scan.scanTo
      invariant PickFrom(rms, scan, levels, Windows(rms, scan, pos), best)
             == PickFrom(rms, scan, levels, Windows(rms, scan, scan.scanFrom), None)
    {
      var window := scan.region[pos..pos + scan.quietWindow];
      var level := rms(window);
      if level < levels.silenceThreshold {
        var peakFrame := PeakFrame(rms, window, AtLeastOne(scan.frameLen), 0.0);
        var verified := peakFrame <= levels.speechLevel * QUIET_FRAME_RATIO;
        return Some(CutChoice(MidCut(pos, scan.quietWindow, scan.channels), verified));
      }
      if best.None? || level < best.value.level {
        best := Some(Window(pos, level));
      }
      pos := pos + scan.quietWindow;
    }
    if !scan.force || best.None? {
      return None;
    }
    return Some(CutChoice(MidCut(best.value.start, scan.quietWindow, scan.channels), false));
  }

  /** The scan stops at the first quiet window, whatever was best before it. */
  lemma {:induction false} ScanStopsAtFirstQuiet(rms: Measure, scan: Scan, levels: Levels, ws: seq<Window>,
                                                 best: Option<Window>, k: int)
    requires FirstQuiet(ws, levels.silenceThreshold, k)
    ensures PickFrom(rms, scan, levels, ws, best)
         == Some(Pick(ws[k].start, Verified(rms, scan, levels, ws[k].start)))
  {
    if k > 0 {
      ScanStopsAtFirstQuiet(rms, scan, levels, ws[1..],
        if best.Some? && ws[0].level >= best.value.level then best else Some(ws[0]), k - 1);
    }
  }

  /** `best` is the first quietest of the windows in `ws`. */
  ghost predicate BestOf(ws: seq<Window>, best: Option<Window>) {
    if ws == [] then best == None else exists k :: FirstQuietest(ws, k) && best == Some(ws[k])
  }

  lemma BestExtends(ws: seq<Window>, best: Option<Window>, w: Window)
    requires BestOf(ws, best)
    ensures BestOf(ws + [w], if best.Some? && w.level >= best.value.level then best else Some(w))
  {
    var longer := ws + [w];
    if ws != [] {
      var k :| FirstQuietest(ws, k) && best == Some(ws[k]);
      if w.level >= ws[k].level {
        assert FirstQuietest(longer, k) && best == Some(longer[k]);
      } else {
        assert FirstQuietest(longer, |ws|) && Some(w) == Some(longer[|ws|]);
      }
    } else {
      assert FirstQuietest(longer, 0) && Some(w) == Some(longer[0]);
    }
  }

  /** Without a quiet window the scan ends with the first quietest one of all it has seen. */
  lemma {:induction false} ScanEndsWithQuietest(rms: Measure, scan: Scan, levels: Levels, seen: seq<Window>,
                                                ws: seq<Window>, best: Option<Window>)
    requires BestOf(seen, best) && NoneQuiet(ws, levels.silenceThreshold)
    ensures exists b :: BestOf(seen + ws, b)
              && PickFrom(rms, scan, levels, ws, best) == if scan.force && b.Some? then Some(Pick(b.value.start, false)) else None
    decreases ws
  {
    if ws == [] {
      assert seen + ws == seen;
    } else {
      assert seen + ws == (seen + [ws[0]]) + ws[1..];
      BestExtends(seen, best, ws[0]);
      ScanEndsWithQuietest(rms, scan, levels, seen + [ws[0]], ws[1..],
        if best.Some? && ws[0].level >= best.value.level then best else Some(ws[0]));
    }
  }

  /** The single pass over the windows meets the policy. */
  lemma ChosenCutMeetsPolicy(rms: Measure, scan: Scan, levels: Levels)
    requires scan.Valid()
    ensures PickPolicy(rms, scan, levels, PickFrom(rms, scan, levels, Windows(rms, scan, scan.scanFrom), None))
    ensures CutPolicy(rms, scan, levels, ChosenCut(rms, scan, levels))
  {
    var ws := Windows(rms, scan, scan.scanFrom);
    if NoneQuiet(ws, levels.silenceThreshold) {
      ScanEndsWithQuietest(rms, scan, levels, [], ws, None);
      assert [] + ws == ws;
    } else {
      var k := FirstQuietIndex(ws, levels.silenceThreshold);
      ScanStopsAtFirstQuiet(rms, scan, levels, ws, None, k);
    }
  }

  lemma FirstQuietIndex(ws: seq<Window>, threshold: real) returns (k: nat)
    requires !NoneQuiet(ws, threshold)
    ensures FirstQuiet(ws, threshold, k)
  {
    k := 0;
    while ws[k].level >= threshold
      invariant k < |ws|
      invariant forall j :: 0 <= j < k ==> ws[j].level >= threshold
      decreases |ws| - k
    {
      k := k + 1;
    }
  }

  /** Whatever is picked is a scanned window; picked as verified, it is quiet. */
  lemma PickedWindow(rms: Measure, scan: Scan, levels: Levels, pick: Pick) returns (w: Window)
    requires scan.Valid() && PickPolicy(rms, scan, levels, Some(pick))
    ensures w in Windows(rms, scan, scan.scanFrom) && IsWindow(rms, scan, w) && w.start == pick.window
    ensures pick.verified ==> w.level < levels.silenceThreshold && Verified(rms, scan, levels, w.start)
  {
    var ws := Windows(rms, scan, scan.scanFrom);
    WindowsAreInRange(rms, scan, scan.scanFrom);
    var k :| 0 <= k < |ws| && ws[k].start == pick.window
      && (pick.verified ==> ws[k].level < levels.silenceThreshold && Verified(rms, scan, levels, ws[k].start));
    w := ws[k];
  }

  /** A cut lies inside the scan range, on a frame boundary when the range starts on one. */
  lemma CutIsInRange(rms: Measure, scan: Scan, levels: Levels, choice: CutChoice)
    requires scan.Valid()
    requires scan.scanFrom % AtLeastOne(scan.channels) == 0 && scan.quietWindow % AtLeastOne(scan.channels) == 0
    requires ChosenCut(rms, scan, levels) == Some(choice)
    ensures scan.scanFrom <= choice.cut < scan.scanTo
    ensures choice.cut % AtLeastOne(scan.channels) == 0
  {
    ChosenCutMeetsPolicy(rms, scan, levels);
    var pick := PickFrom(rms, scan, levels, Windows(rms, scan, scan.scanFrom), None);
    var w := PickedWindow(rms, scan, levels, pick.value);
    WindowsAreAligned(rms, scan, scan.scanFrom, AtLeastOne(scan.channels));
  }

  lemma {:induction false} WindowsAreAligned(rms: Measure, scan: Scan, pos: nat, c: nat)
    requires scan.Valid() && c > 0 && pos % c == 0 && scan.quietWindow % c == 0
    ensures forall w :: w in Windows(rms, scan, pos) ==> w.start % c == 0
    decreases scan.scanTo - pos
  {
    if pos + scan.quietWindow <= scan.scanTo {
      MultiplesAdd(pos, scan.quietWindow, c);
      WindowsAreAligned(rms, scan, pos + scan.quietWindow, c);
    }
  }

  /** No pause is invented inside continuous speech: when every scanned window keeps at least 15%
      of the loudest analysis frame and stays above the absolute minimum, an unforced scan finds none. */
  lemma NoPauseInsideSpeech(rms: Measure, scan: Scan)
    requires scan.Valid() && !scan.force
    requires NoneQuiet(Windows(rms, scan, scan.scanFrom),
                       MaxReal(0.15 * LoudestFrame(rms, scan.region, scan.frameLen), MIN_SILENCE_THRESHOLD))
    ensures ChosenCut(rms, scan, AnalyzedLevels(rms, scan.region, scan.frameLen)) == None
  {
    var levels := AnalyzedLevels(rms, scan.region, scan.frameLen);
    SpeechLevelBelowLoudestFrame(rms, scan.region, scan.frameLen);
    ChosenCutMeetsPolicy(rms, scan, levels);
    assert NoneQuiet(Windows(rms, scan, scan.scanFrom), levels.silenceThreshold);
  }

  /** The analysis frames that tile a window; the last one may be shorter. */
  function Frames(window: seq<real>, frameLen: nat): seq<seq<real>>
    requires frameLen > 0
    decreases |window|
  {
    if window == [] then []
    else
      var n := if |window| < frameLen then |window| else frameLen;
      [window[..n]] + Frames(window[n..], frameLen)
  }

  ghost predicate EveryFrameWithin(rms: Measure, window: seq<real>, frameLen: nat, bound: real)
    requires frameLen > 0
  {
    forall frame :: frame in Frames(window, frameLen) ==> rms(frame) <= bound
  }

  /** The peak frame is loud enough for every frame, and no louder than the loudest of them. */
  lemma {:induction false} PeakFrameIsTight(rms: Measure, window: seq<real>, frameLen: nat, least: real)
    requires frameLen > 0
    ensures EveryFrameWithin(rms, window, frameLen, PeakFrame(rms, window, frameLen, least))
    ensures PeakFrame(rms, window, frameLen, least) == least
         || exists frame :: frame in Frames(window, frameLen) && rms(frame) == PeakFrame(rms, window, frameLen, least)
    decreases |window|
  {
    if window != [] {
      var n := if |window| < frameLen then |window| else frameLen;
      PeakFrameIsTight(rms, window[n..], frameLen, MaxReal(least, rms(window[..n])));
      assert window[..n] in Frames(window, frameLen);
      assert PeakFrame(rms, window, frameLen, least) >= rms(window[..n]);
    }
  }

  lemma VerifiedWindow(rms: Measure, scan: Scan, levels: Levels, choice: CutChoice) returns (w: Window)
    requires scan.Valid() && ChosenCut(rms, scan, levels) == Some(choice) && choice.verifiedQuiet
    ensures w in Windows(rms, scan, scan.scanFrom) && IsWindow(rms, scan, w)
    ensures w.level < levels.silenceThreshold && Verified(rms, scan, levels, w.start)
    ensures choice.cut == MidCut(w.start, scan.quietWindow, scan.channels)
  {
    ChosenCutMeetsPolicy(rms, scan, levels);
    var pick := PickFrom(rms, scan, levels, Windows(rms, scan, scan.scanFrom), None);
    w := PickedWindow(rms, scan, levels, pick.value);
  }

  /** A verified cut sits mid-window in a window whose every frame reads at most a quarter of the
      loudest analysis frame of the region, and which is the first one under the threshold. */
  lemma VerifiedCutIsQuiet(rms: Measure, scan: Scan, choice: CutChoice) returns (w: Window)
    requires scan.Valid()
    requires ChosenCut(rms, scan, AnalyzedLevels(rms, scan.region, scan.frameLen)) == Some(choice)
    requires choice.verifiedQuiet
    ensures w in Windows(rms, scan, scan.scanFrom) && IsWindow(rms, scan, w)
    ensures w.level < AnalyzedLevels(rms, scan.region, scan.frameLen).silenceThreshold
    ensures choice.cut == MidCut(w.start, scan.quietWindow, scan.channels)
    ensures EveryFrameWithin(rms, scan.region[w.start..w.start + scan.quietWindow], AtLeastOne(scan.frameLen),
                             0.25 * LoudestFrame(rms, scan.region, scan.frameLen))
  {
    SpeechLevelBelowLoudestFrame(rms, scan.region, scan.frameLen);
    w := VerifiedWindow(rms, scan, AnalyzedLevels(rms, scan.region, scan.frameLen), choice);
    PeakFrameIsTight(rms, scan.region[w.start..w.start + scan.quietWindow], AtLeastOne(scan.frameLen), 0.0);
  }

  // ----- What a cut allows to be committed -----

  /** A decoded segment: start and end in whole milliseconds, and its text. */
  datatype Segment = Segment(start: int, end: int, text: string)

  /** The index of the first segment ending after `guard`, if any. */
  function FirstReaching(segments: seq<Segment>, guard: real): (h: Option<nat>)
    ensures h.Some? ==> h.value < |segments| && segments[h.value].end as real > guard
    ensures forall k :: 0 <= k < (if h.Some? then h.value else |segments|) ==> segments[k].end as real <= guard
  {
    if segments == [] then None
    else if segments[0].end as real > guard then Some(0)
    else
      var rest := FirstReaching(segments[1..], guard);
      if rest.Some? then Some(rest.value + 1) else None
  }

  predicate Untimed(segments: seq<Segment>) {
    forall s :: s in segments ==> s.start == 0 && s.end == 0
  }

  predicate EndsBy(segments: seq<Segment>, ms: real) {
    forall s :: s in segments ==> s.end as real <= ms
  }

  /** The segments to commit and the watermark in milliseconds; audio from the watermark on stays. */
  function SplitCommit(segments: seq<Segment>, cutMs: real, holdBack: bool): (r: (seq<Segment>, real))
    requires cutMs >= 0.0
    ensures 0.0 <= r.1 <= cutMs
    ensures r.0 <= segments
    ensures r.0 != segments ==> EndsBy(r.0, r.1)
  {
    if !holdBack || segments == [] || Untimed(segments) then
      (segments, cutMs)
    else
      var held := FirstReaching(segments, cutMs - TAIL_GUARD_MS);
      if held.None? then
        (segments, cutMs)
      else
        var watermark := Clamp(segments[held.value].start as real, 0.0, cutMs);
        if watermark <= 0.0 || !EndsBy(segments[..held.value], watermark) then
          ([], 0.0)
        else
          (segments[..held.value], watermark)
  }

  /** Nothing is held back exactly when hold-back is off, the segments carry no timings, or none
      ends inside the guard; then the whole cut is committed. */
  lemma CommitsWholeExactly(segments: seq<Segment>, cutMs: real, holdBack: bool)
    requires cutMs >= 0.0
    ensures SplitCommit(segments, cutMs, holdBack).0 == segments
       <==> (!holdBack || Untimed(segments) || EndsBy(segments, cutMs - TAIL_GUARD_MS))
    ensures SplitCommit(segments, cutMs, holdBack).0 == segments ==> SplitCommit(segments, cutMs, holdBack).1 == cutMs
  {
    var held := FirstReaching(segments, cutMs - TAIL_GUARD_MS);
    if holdBack && held.Some? && !Untimed(segments) {
      assert segments[held.value] in segments;
      assert |segments[..held.value]| != |segments|;
    }
  }

  /** With timings, and a first segment `h` that ends in the last half second: nothing is committed exactly when `h` starts
      at or before 0 or a segment before it ends after its start; otherwise exactly the segments before `h` are, and the
      audio up to its start, or to the cut if that comes first. */
  lemma CommitsPartExactly(segments: seq<Segment>, cutMs: real, h: nat, least: real)
    requires cutMs >= 0.0 && h < |segments| && exists s :: s in segments && (s.start != 0 || s.end != 0)
    requires segments[h].end as real > cutMs - 500.0
    requires forall k :: 0 <= k < h ==> segments[k].end as real <= cutMs - 500.0
    requires least == if segments[h].start as real <= cutMs then segments[h].start as real else cutMs
    ensures SplitCommit(segments, cutMs, true)
         == if least <= 0.0 || exists k :: 0 <= k < h && segments[k].end as real > least then ([], 0.0)
            else (segments[..h], least)
  {
    assert FirstReaching(segments, cutMs - TAIL_GUARD_MS) == Some(h);
    assert !Untimed(segments);
    EndsByIsEvery(segments, h, least);
    assert least <= 0.0 || Clamp(segments[h].start as real, 0.0, cutMs) == least;
  }

  lemma EndsByIsEvery(segments: seq<Segment>, h: nat, ms: real)
    requires h <= |segments|
    ensures EndsBy(segments[..h], ms) <==> forall k :: 0 <= k < h ==> segments[k].end as real <= ms
  {
    assert forall k :: 0 <= k < h ==> segments[..h][k] == segments[k] && segments[k] in segments[..h];
  }
}
