/** Decoded outcomes: splitting a chunk at a risky cut, and combining chunks and tail into one
    transcript (src/recording.rs). The polish pipeline is a parameter. */
module Recording {
  import opened Wrappers
  import opened Numbers
  import opened Sequences
  import opened Text
  import opened Chunking

  /** Sanitizing, dictionary and mode formatting of a raw text, given its confidence if known. */
  type Polish = (string, Option<real>) -> string

  datatype Outcome = Outcome(id: nat, incomplete: Option<string>, rawText: string, cleanedText: string,
                             confidence: real, confidenceAvailable: bool, segments: seq<Segment>,
                             language: Option<string>, durationSecs: real)

  /** What a decode job replies with. */
  datatype Reply = Decoded(outcome: Outcome) | NoSpeech(message: string) | Cancelled(message: string) | Failed(message: string)

  function SegmentTexts(segments: seq<Segment>): seq<string> {
    if segments == [] then [] else [segments[0].text] + SegmentTexts(segments[1..])
  }

  function RawTexts(parts: seq<Outcome>): seq<string> {
    if parts == [] then [] else [parts[0].rawText] + RawTexts(parts[1..])
  }

  function Known(available: bool, confidence: real): Option<real> {
    if available then Some(confidence) else None
  }

  // ----- Splitting a chunk -----

  /** The outcome to commit and the watermark in milliseconds from which the audio is decoded again. */
  function SplitChunkOutcome(o: Outcome, cutMs: real, holdBack: bool, polish: Polish): (Outcome, real)
    requires cutMs >= 0.0
  {
    var (segments, watermark) := SplitCommit(o.segments, cutMs, holdBack);
    if |segments| == |o.segments| then (o, watermark)
    else
      var rawText := JoinTrimmed(SegmentTexts(segments));
      (o.(rawText := rawText,
          cleanedText := polish(rawText, Known(o.confidenceAvailable, o.confidence)),
          segments := segments,
          durationSecs := watermark / 1000.0),
       watermark)
  }

  /** A committed outcome lasts exactly up to its watermark, and holds exactly the words of the
      segments it keeps. */
  lemma SplitIsConsistent(o: Outcome, cutMs: real, holdBack: bool, polish: Polish)
    requires cutMs >= 0.0 && o.durationSecs * 1000.0 == cutMs
    ensures var (kept, watermark) := SplitChunkOutcome(o, cutMs, holdBack, polish);
            && 0.0 <= watermark <= cutMs
            && kept.durationSecs * 1000.0 == watermark
            && kept.segments <= o.segments
            && kept.incomplete == o.incomplete
            && (|kept.segments| == |o.segments| ==> kept == o && watermark == cutMs)
            && (|kept.segments| < |o.segments| ==> Words(kept.rawText) == AllWords(SegmentTexts(kept.segments)))
  {
    var (segments, watermark) := SplitCommit(o.segments, cutMs, holdBack);
    CommitsWholeExactly(o.segments, cutMs, holdBack);
    WordsOfJoinTrimmed(SegmentTexts(segments));
  }

  // ----- Timelines of segments -----

  /** Sorted, disjoint and not before `from`. */
  ghost predicate Ordered(segments: seq<Segment>, from: int) {
    && (forall k :: 0 <= k < |segments| ==> from <= segments[k].start <= segments[k].end)
    && (forall j, k :: 0 <= j < k < |segments| ==> segments[j].end <= segments[k].start)
  }

  function Millis(secs: real): int {
    Round(secs * 1000.0)
  }

  /** A part whose segments are ordered and lie inside its own rounded duration. */
  ghost predicate OrderedPart(o: Outcome) {
    && o.durationSecs >= 0.0
    && Ordered(o.segments, 0)
    && forall k :: 0 <= k < |o.segments| ==> o.segments[k].end <= Millis(o.durationSecs)
  }

  lemma EndsByRounds(segments: seq<Segment>, ms: real)
    requires EndsBy(segments, ms)
    ensures forall k :: 0 <= k < |segments| ==> segments[k].end <= Round(ms)
  {
    forall k | 0 <= k < |segments| ensures segments[k].end <= Round(ms) {
      assert segments[k] in segments;
      RoundKeepsIntegers(ms, segments[k].end);
    }
  }

  /** What is committed ends by its watermark. */
  lemma SplitEndsByWatermark(segments: seq<Segment>, cutMs: real, holdBack: bool)
    requires cutMs >= 0.0 && (!holdBack ==> EndsBy(segments, cutMs))
    ensures EndsBy(SplitCommit(segments, cutMs, holdBack).0, SplitCommit(segments, cutMs, holdBack).1)
  {
    CommitsWholeExactly(segments, cutMs, holdBack);
  }

  /** Splitting an ordered decode gives an ordered part. Segments that are committed whole because
      nothing is held back must themselves lie inside the cut. */
  lemma SplitIsOrdered(o: Outcome, cutMs: real, holdBack: bool, polish: Polish)
    requires cutMs >= 0.0 && o.durationSecs * 1000.0 == cutMs
    requires Ordered(o.segments, 0)
    requires !holdBack ==> EndsBy(o.segments, cutMs)
    ensures OrderedPart(SplitChunkOutcome(o, cutMs, holdBack, polish).0)
  {
    var (kept, watermark) := SplitChunkOutcome(o, cutMs, holdBack, polish);
    SplitIsConsistent(o, cutMs, holdBack, polish);
    assert kept.segments == SplitCommit(o.segments, cutMs, holdBack).0;
    SplitEndsByWatermark(o.segments, cutMs, holdBack);
    PartIsOrdered(o.segments, kept, watermark);
  }

  lemma PartIsOrdered(decoded: seq<Segment>, kept: Outcome, watermark: real)
    requires Ordered(decoded, 0) && kept.segments <= decoded
    requires EndsBy(kept.segments, watermark) && kept.durationSecs * 1000.0 == watermark >= 0.0
    ensures OrderedPart(kept)
  {
    assert forall k :: 0 <= k < |kept.segments| ==> kept.segments[k] == decoded[k];
    EndsByRounds(kept.segments, watermark);
  }

  // ----- Combining -----

  function Shifted(segments: seq<Segment>, offset: int): seq<Segment> {
    if segments == [] then []
    else [Segment(segments[0].start + offset, segments[0].end + offset, segments[0].text)] + Shifted(segments[1..], offset)
  }

  /** Where the part after `parts` is placed: the rounded durations of all parts, summed. */
  function OffsetAfter(parts: seq<Outcome>): int {
    if parts == [] then 0 else OffsetAfter(Init(parts)) + Millis(Last(parts).durationSecs)
  }

  /** The segments of all parts, each part placed after those before it. */
  function CombinedSegments(parts: seq<Outcome>): seq<Segment> {
    if parts == [] then []
    else
      var init := Init(parts);
      CombinedSegments(init) + Shifted(Last(parts).segments, OffsetAfter(init))
  }

  function WeightOf(o: Outcome): real {
    MaxReal(o.durationSecs, 0.1)
  }

  /** Running sum of duration-weighted confidences, and of the weights. */
  datatype Totals = Totals(confidence: real, weight: real) {
    function Plus(o: Outcome): Totals {
      if o.confidenceAvailable then Totals(confidence + o.confidence * WeightOf(o), weight + WeightOf(o)) else this
    }

    function Average(): real {
      if weight > 0.0 then confidence / weight else 0.0
    }
  }

  function TotalsOf(parts: seq<Outcome>): Totals {
    if parts == [] then Totals(0.0, 0.0) else TotalsOf(Init(parts)).Plus(Last(parts))
  }

  function FirstLanguage(parts: seq<Outcome>): Option<string> {
    if parts == [] then None
    else if parts[0].language.Some? then parts[0].language
    else FirstLanguage(parts[1..])
  }

  function FirstIncomplete(parts: seq<Outcome>): Option<string> {
    if parts == [] then None
    else if parts[0].incomplete.Some? then parts[0].incomplete
    else FirstIncomplete(parts[1..])
  }

  predicate ConfidenceKnown(parts: seq<Outcome>) {
    parts != [] && forall o :: o in parts ==> o.rawText == "" || o.confidenceAvailable
  }

  function Parts(chunks: seq<Outcome>, tail: Option<Outcome>): seq<Outcome> {
    if tail.Some? then chunks + [tail.value] else chunks
  }

  function Assembled(parts: seq<Outcome>, segments: seq<Segment>, confidence: real, polish: Polish, total: real,
                     freshId: nat): Outcome {
    var rawText := JoinTrimmed(RawTexts(parts));
    var known := ConfidenceKnown(parts);
    Outcome(if parts == [] then freshId else parts[0].id, FirstIncomplete(parts), rawText,
            polish(rawText, Known(known, confidence)), confidence, known, segments, FirstLanguage(parts), total)
  }

  function Combined(parts: seq<Outcome>, polish: Polish, total: real, freshId: nat): Outcome {
    Assembled(parts, CombinedSegments(parts), TotalsOf(parts).Average(), polish, total, freshId)
  }

  method CombineChunkedOutcomes(chunks: seq<Outcome>, tail: Option<Outcome>, polish: Polish, total: real, freshId: nat)
    returns (outcome: Outcome)
    ensures outcome == Combined(Parts(chunks, tail), polish, total, freshId)
  {
    var parts := chunks;
    if tail.Some? {
      parts := parts + [tail.value];
    }
    var segments, offsetMs, totals := [], 0, Totals(0.0, 0.0);
    for i := 0 to |parts|
      invariant segments == CombinedSegments(parts[..i])
      invariant offsetMs == OffsetAfter(parts[..i])
      invariant totals == TotalsOf(parts[..i])
    {
      assert parts[..i + 1][..i] == parts[..i];
      segments := AppendShifted(segments, parts[i].segments, offsetMs);
      offsetMs := offsetMs + Millis(parts[i].durationSecs);
      totals := totals.Plus(parts[i]);
    }
    assert parts[..|parts|] == parts;
    outcome := Assembled(parts, segments, totals.Average(), polish, total, freshId);
  }

  method AppendShifted(segments: seq<Segment>, more: seq<Segment>, offset: int) returns (r: seq<Segment>)
    ensures r == segments + Shifted(more, offset)
  {
    r := segments;
    for k := 0 to |more|
      invariant r + Shifted(more[k..], offset) == segments + Shifted(more, offset)
    {
      assert more[k..][1..] == more[k + 1..];
      r := r + [Segment(more[k].start + offset, more[k].end + offset, more[k].text)];
    }
  }

  /** The combined transcript holds the words of every part, in order, each once. */
  lemma CombinedWords(parts: seq<Outcome>, polish: Polish, total: real, freshId: nat)
    ensures Words(Combined(parts, polish, total, freshId).rawText) == AllWords(RawTexts(parts))
  {
    WordsOfJoinTrimmed(RawTexts(parts));
  }

  lemma {:induction false} RawTextsOfAppend(a: seq<Outcome>, b: seq<Outcome>)
    ensures RawTexts(a + b) == RawTexts(a) + RawTexts(b)
  {
    if a == [] {
      assert a + b == b;
    } else {
      assert (a + b)[1..] == a[1..] + b;
      RawTextsOfAppend(a[1..], b);
    }
  }

  lemma WordsOfOneMore(results: seq<Outcome>, next: Outcome)
    ensures AllWords(RawTexts(results + [next])) == AllWords(RawTexts(results)) + Words(next.rawText)
  {
    RawTextsOfAppend(results, [next]);
    assert RawTexts([next]) == [next.rawText];
    AllWordsOfAppend(RawTexts(results), [next.rawText]);
    assert AllWords([next.rawText]) == Words(next.rawText) + [];
  }

  lemma {:induction false} ShiftedIsOrdered(segments: seq<Segment>, offset: int)
    ensures |Shifted(segments, offset)| == |segments|
    ensures forall k :: 0 <= k < |segments| ==>
              Shifted(segments, offset)[k] == Segment(segments[k].start + offset, segments[k].end + offset, segments[k].text)
  {
    if segments != [] {
      ShiftedIsOrdered(segments[1..], offset);
    }
  }

  lemma OrderedConcat(a: seq<Segment>, b: seq<Segment>, from: int, middle: int)
    requires Ordered(a, from) && Ordered(b, middle) && from <= middle
    requires forall k :: 0 <= k < |a| ==> a[k].end <= middle
    ensures Ordered(a + b, from)
  {
  }

  ghost predicate AllOrdered(parts: seq<Outcome>) {
    forall k :: 0 <= k < |parts| ==> OrderedPart(parts[k])
  }

  /** Combined segments are sorted and disjoint, for any number of parts, and end by the last offset. */
  lemma {:induction false} CombinedIsOrdered(parts: seq<Outcome>)
    requires AllOrdered(parts)
    ensures Ordered(CombinedSegments(parts), 0) && OffsetAfter(parts) >= 0
    ensures forall k :: 0 <= k < |CombinedSegments(parts)| ==> CombinedSegments(parts)[k].end <= OffsetAfter(parts)
  {
    if parts != [] {
      var init, o := Init(parts), Last(parts);
      assert OrderedPart(o);
      CombinedIsOrdered(init);
      ShiftedIsOrdered(o.segments, OffsetAfter(init));
      assert forall k :: 0 <= k < |o.segments| ==> o.segments[k].end <= Millis(o.durationSecs);
      OrderedConcat(CombinedSegments(init), Shifted(o.segments, OffsetAfter(init)), 0, OffsetAfter(init));
    }
  }

  lemma AverageStep(lo: real, hi: real, sum: real, weight: real, x: real, w: real)
    requires lo * weight <= sum <= hi * weight
    requires lo <= x <= hi && w >= 0.0
    ensures lo * (weight + w) <= sum + x * w <= hi * (weight + w)
  {
    assert lo * w <= x * w <= hi * w;
  }

  lemma {:induction false} WeightedSumIsBounded(parts: seq<Outcome>, lo: real, hi: real)
    requires forall k :: 0 <= k < |parts| && parts[k].confidenceAvailable ==> lo <= parts[k].confidence <= hi
    ensures TotalsOf(parts).weight >= 0.0
    ensures lo * TotalsOf(parts).weight <= TotalsOf(parts).confidence <= hi * TotalsOf(parts).weight
  {
    if parts != [] {
      var init, o := Init(parts), Last(parts);
      var t := TotalsOf(init);
      WeightedSumIsBounded(init, lo, hi);
      if o.confidenceAvailable {
        AverageStep(lo, hi, t.confidence, t.weight, o.confidence, WeightOf(o));
      }
    }
  }

  lemma QuotientIsBounded(x: real, w: real, lo: real, hi: real)
    requires w > 0.0 && lo * w <= x <= hi * w
    ensures lo <= x / w <= hi
  {
    var q := x / w;
    assert q * w == x;
    assert q < lo ==> (lo - q) * w > 0.0;
    assert q > hi ==> (q - hi) * w > 0.0;
  }

  /** The combined confidence is an average: it stays within any bounds of the known confidences, and is 0 if no
      confidence is known. */
  lemma ConfidenceIsAverage(parts: seq<Outcome>, polish: Polish, total: real, freshId: nat, lo: real, hi: real)
    requires forall k :: 0 <= k < |parts| && parts[k].confidenceAvailable ==> lo <= parts[k].confidence <= hi
    ensures
      var c := Combined(parts, polish, total, freshId).confidence;
      lo <= c <= hi || (c == 0.0 && forall k :: 0 <= k < |parts| ==> !parts[k].confidenceAvailable)
  {
    WeightedSumIsBounded(parts, lo, hi);
    var t := TotalsOf(parts);
    if t.weight > 0.0 {
      QuotientIsBounded(t.confidence, t.weight, lo, hi);
    } else {
      NoWeightNothingKnown(parts);
    }
  }

  lemma {:induction false} NoWeightNothingKnown(parts: seq<Outcome>)
    ensures TotalsOf(parts).weight >= 0.0
    ensures TotalsOf(parts).weight == 0.0 ==> forall k :: 0 <= k < |parts| ==> !parts[k].confidenceAvailable
  {
    if parts != [] {
      NoWeightNothingKnown(Init(parts));
    }
  }

  // ----- Finishing a take -----

  datatype TakeResult = Complete(outcome: Outcome) | Error(reply: Reply)

  /** Preserve committed speech on a failed tail, but retain its failure state. */
  function FinishChunkedTake(chunks: seq<Outcome>, tail: Reply, polish: Polish, duration: real, freshId: nat): TakeResult {
    if tail.Cancelled? then Error(tail)
    else if chunks == [] then
      if tail.Decoded? then Complete(tail.outcome) else Error(tail)
    else
      match tail
      case Decoded(outcome) => Complete(Combined(Parts(chunks, Some(outcome)), polish, duration, freshId))
      case NoSpeech(_) => Complete(Combined(chunks, polish, duration, freshId))
      case Failed(message) => Complete(Combined(chunks, polish, duration, freshId).(incomplete := Some(message)))
  }
}
