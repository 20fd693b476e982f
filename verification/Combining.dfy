/** The combined transcript field by field, stated of its parts alone (src/recording.rs:605-675). */
module Combining {
  import opened Wrappers
  import opened Numbers
  import opened Sequences
  import opened Text
  import opened Chunking
  import opened Recording

  // ----- Segments -----

  /** How many segments the first `i` parts have. */
  function SegmentsBefore(parts: seq<Outcome>, i: nat): nat
    requires i <= |parts|
  {
    if i == 0 then 0 else SegmentsBefore(parts, i - 1) + |parts[i - 1].segments|
  }

  /** The durations of the first `i` parts, each rounded to a millisecond. */
  function MillisBefore(parts: seq<Outcome>, i: nat): int
    requires i <= |parts|
  {
    if i == 0 then 0 else MillisBefore(parts, i - 1) + Round(parts[i - 1].durationSecs * 1000.0)
  }

  lemma {:induction false} BeforeInPrefix(parts: seq<Outcome>, n: nat, i: nat)
    requires i <= n <= |parts|
    ensures SegmentsBefore(parts[..n], i) == SegmentsBefore(parts, i) && MillisBefore(parts[..n], i) == MillisBefore(parts, i)
  {
    if i > 0 {
      BeforeInPrefix(parts, n, i - 1);
    }
  }

  lemma {:induction false} CombinedTotals(parts: seq<Outcome>)
    ensures |CombinedSegments(parts)| == SegmentsBefore(parts, |parts|)
    ensures OffsetAfter(parts) == MillisBefore(parts, |parts|)
  {
    if parts != [] {
      CombinedTotals(Init(parts));
      BeforeInPrefix(parts, |parts| - 1, |parts| - 1);
      ShiftedIsOrdered(Last(parts).segments, OffsetAfter(Init(parts)));
    }
  }

  lemma {:induction false} BeforeGrows(parts: seq<Outcome>, i: nat, n: nat)
    requires i <= n <= |parts|
    ensures SegmentsBefore(parts, i) <= SegmentsBefore(parts, n)
    decreases n
  {
    if i < n {
      BeforeGrows(parts, i, n - 1);
    }
  }

  /** Segment `s` stands at `k`, later by `offset`. */
  ghost predicate IsPlaced(all: seq<Segment>, k: nat, s: Segment, offset: int) {
    k < |all| && all[k] == Segment(s.start + offset, s.end + offset, s.text)
  }

  lemma PlacedAfter(before: seq<Segment>, more: seq<Segment>, offset: int, j: nat)
    requires j < |more|
    ensures IsPlaced(before + Shifted(more, offset), |before| + j, more[j], offset)
  {
    ShiftedIsOrdered(more, offset);
  }

  lemma TotalsOfInit(parts: seq<Outcome>)
    requires parts != []
    ensures |CombinedSegments(Init(parts))| == SegmentsBefore(parts, |parts| - 1)
    ensures OffsetAfter(Init(parts)) == MillisBefore(parts, |parts| - 1)
  {
    CombinedTotals(Init(parts));
    BeforeInPrefix(parts, |parts| - 1, |parts| - 1);
  }

  lemma LastPartIsPlaced(parts: seq<Outcome>, j: nat)
    requires parts != [] && j < |Last(parts).segments|
    ensures IsPlaced(CombinedSegments(parts), SegmentsBefore(parts, |parts| - 1) + j, Last(parts).segments[j],
                     MillisBefore(parts, |parts| - 1))
  {
    TotalsOfInit(parts);
    PlacedAfter(CombinedSegments(Init(parts)), Last(parts).segments, OffsetAfter(Init(parts)), j);
  }

  lemma EarlierStaysPlaced(parts: seq<Outcome>, k: nat, s: Segment, offset: int)
    requires parts != [] && IsPlaced(CombinedSegments(Init(parts)), k, s, offset)
    ensures IsPlaced(CombinedSegments(parts), k, s, offset)
  {
  }

  /** Every segment of every part is there, in its place, with its text, later by the durations of the parts before. */
  lemma {:induction false} SegmentIsPlaced(parts: seq<Outcome>, i: nat, j: nat)
    requires i < |parts| && j < |parts[i].segments|
    ensures |CombinedSegments(parts)| == SegmentsBefore(parts, |parts|)
    ensures IsPlaced(CombinedSegments(parts), SegmentsBefore(parts, i) + j, parts[i].segments[j], MillisBefore(parts, i))
    decreases |parts|
  {
    var n := |parts| - 1;
    CombinedTotals(parts);
    if i == n {
      LastPartIsPlaced(parts, j);
    } else {
      SegmentIsPlaced(Init(parts), i, j);
      BeforeInPrefix(parts, n, i);
      EarlierStaysPlaced(parts, SegmentsBefore(parts, i) + j, parts[i].segments[j], MillisBefore(parts, i));
    }
  }

  // ----- Confidence -----

  /** How far the known confidences are from `c`, weighted by duration, a tenth of a second at least. */
  function Deviation(parts: seq<Outcome>, c: real): real {
    if parts == [] then 0.0
    else
      (if !parts[0].confidenceAvailable then 0.0
       else if parts[0].durationSecs >= 0.1 then parts[0].durationSecs * (parts[0].confidence - c)
       else 0.1 * (parts[0].confidence - c))
      + Deviation(parts[1..], c)
  }

  lemma {:induction false} DeviationOfOneMore(parts: seq<Outcome>, o: Outcome, c: real)
    ensures Deviation(parts + [o], c)
         == Deviation(parts, c) + if o.confidenceAvailable then WeightOf(o) * (o.confidence - c) else 0.0
  {
    if parts == [] {
      assert parts + [o] == [o] && [o][1..] == [];
    } else {
      assert (parts + [o])[1..] == parts[1..] + [o];
      DeviationOfOneMore(parts[1..], o, c);
    }
  }

  function DeviationOf(t: Totals, c: real): real {
    t.confidence - t.weight * c
  }

  lemma TotalsDeviate(t: Totals, o: Outcome, c: real)
    ensures DeviationOf(t.Plus(o), c)
         == DeviationOf(t, c) + if o.confidenceAvailable then WeightOf(o) * (o.confidence - c) else 0.0
  {
    var w := WeightOf(o);
    assert w * (o.confidence - c) == o.confidence * w - w * c;
    assert (t.weight + w) * c == t.weight * c + w * c;
  }

  lemma OneMoreIsOfTotals(parts: seq<Outcome>, o: Outcome, c: real)
    requires Deviation(parts, c) == DeviationOf(TotalsOf(parts), c)
    ensures Deviation(parts + [o], c) == DeviationOf(TotalsOf(parts).Plus(o), c)
  {
    DeviationOfOneMore(parts, o, c);
    TotalsDeviate(TotalsOf(parts), o, c);
  }

  lemma {:induction false} DeviationIsOfTotals(parts: seq<Outcome>, c: real)
    ensures Deviation(parts, c) == DeviationOf(TotalsOf(parts), c)
  {
    if parts == [] {
      assert DeviationOf(Totals(0.0, 0.0), c) == 0.0;
    } else {
      DeviationIsOfTotals(Init(parts), c);
      OneMoreIsOfTotals(Init(parts), Last(parts), c);
      assert parts == Init(parts) + [Last(parts)];
    }
  }

  lemma QuotientTimes(x: real, w: real)
    requires w > 0.0
    ensures w * (x / w) == x
  {
  }

  lemma MeanDeviatesByNothing(t: Totals)
    requires t.weight > 0.0 || (t.weight == 0.0 && t.confidence == 0.0)
    ensures DeviationOf(t, t.Average()) == 0.0
  {
    if t.weight > 0.0 {
      QuotientTimes(t.confidence, t.weight);
    }
  }

  lemma WeightlessIsNothing(parts: seq<Outcome>)
    ensures TotalsOf(parts).weight >= 0.0
    ensures TotalsOf(parts).weight == 0.0 ==> TotalsOf(parts).confidence == 0.0
  {
    NoWeightNothingKnown(parts);
    if TotalsOf(parts).weight == 0.0 {
      NothingKnownNoWeight(parts);
    }
  }

  /** The combined confidence is the duration-weighted mean of the known ones, and 0 when none is known. */
  lemma ConfidenceIsWeightedMean(parts: seq<Outcome>, polish: Polish, total: real, freshId: nat)
    ensures
      var c := Combined(parts, polish, total, freshId).confidence;
      && Deviation(parts, c) == 0.0
      && ((forall k :: 0 <= k < |parts| ==> !parts[k].confidenceAvailable) ==> c == 0.0)
  {
    WeightlessIsNothing(parts);
    MeanDeviatesByNothing(TotalsOf(parts));
    DeviationIsOfTotals(parts, TotalsOf(parts).Average());
    if forall k :: 0 <= k < |parts| ==> !parts[k].confidenceAvailable {
      NothingKnownNoWeight(parts);
    }
  }

  lemma {:induction false} NothingKnownNoWeight(parts: seq<Outcome>)
    requires forall k :: 0 <= k < |parts| ==> !parts[k].confidenceAvailable
    ensures TotalsOf(parts) == Totals(0.0, 0.0)
  {
    if parts != [] {
      NothingKnownNoWeight(Init(parts));
    }
  }

  // ----- The other fields -----

  /** `found` is the first of the values that is there. */
  ghost predicate IsFirst(values: seq<Option<string>>, found: Option<string>) {
    if found.None? then forall k :: 0 <= k < |values| ==> values[k].None?
    else exists k :: 0 <= k < |values| && values[k] == found && forall j :: 0 <= j < k ==> values[j].None?
  }

  lemma FirstOfMore(values: seq<Option<string>>, found: Option<string>, head: Option<string>)
    requires IsFirst(values, found)
    ensures IsFirst([head] + values, if head.Some? then head else found)
  {
    var more := [head] + values;
    if head.Some? {
      assert more[0] == head;
    } else if found.Some? {
      var k :| 0 <= k < |values| && values[k] == found && forall j :: 0 <= j < k ==> values[j].None?;
      assert more[k + 1] == found;
    }
  }

  function Incompletes(parts: seq<Outcome>): (r: seq<Option<string>>)
    ensures |r| == |parts| && forall k :: 0 <= k < |parts| ==> r[k] == parts[k].incomplete
  {
    if parts == [] then [] else [parts[0].incomplete] + Incompletes(parts[1..])
  }

  function Languages(parts: seq<Outcome>): (r: seq<Option<string>>)
    ensures |r| == |parts| && forall k :: 0 <= k < |parts| ==> r[k] == parts[k].language
  {
    if parts == [] then [] else [parts[0].language] + Languages(parts[1..])
  }

  lemma {:induction false} FirstsAreFirst(parts: seq<Outcome>)
    ensures IsFirst(Incompletes(parts), FirstIncomplete(parts))
    ensures IsFirst(Languages(parts), FirstLanguage(parts))
  {
    if parts != [] {
      FirstsAreFirst(parts[1..]);
      FirstOfMore(Incompletes(parts[1..]), FirstIncomplete(parts[1..]), parts[0].incomplete);
      FirstOfMore(Languages(parts[1..]), FirstLanguage(parts[1..]), parts[0].language);
    }
  }

  /** The id of the first part, the first mark of incompleteness and the first language found, the whole duration, and a
      text polished once, with the confidence if every part that has text knows its own. */
  lemma CombinedFields(parts: seq<Outcome>, polish: Polish, total: real, freshId: nat)
    ensures
      var o := Combined(parts, polish, total, freshId);
      && o.id == (if parts == [] then freshId else parts[0].id)
      && o.durationSecs == total
      && IsFirst(Incompletes(parts), o.incomplete) && IsFirst(Languages(parts), o.language)
      && (o.confidenceAvailable <==>
            parts != [] && forall k :: 0 <= k < |parts| ==> parts[k].rawText == "" || parts[k].confidenceAvailable)
      && o.cleanedText == polish(o.rawText, if o.confidenceAvailable then Some(o.confidence) else None)
  {
    FirstsAreFirst(parts);
    assert forall k :: 0 <= k < |parts| ==> parts[k] in parts;
  }
}
