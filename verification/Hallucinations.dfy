/** Stripping hallucinated sign-offs from the end of a transcript (src/transcription/postprocess.rs): the search runs
    over a lowercased copy whose length differs from the text's, so offsets are mapped back to source characters. */
module Hallucinations {
  import opened Sequences
  import opened Wrappers
  import Text

  // ----- Texts as UTF-8 -----

  /** The bytes a character takes in UTF-8. */
  function Width(c: char): nat {
    if c as int < 0x80 then 1 else if c as int < 0x800 then 2 else if c as int < 0x1_0000 then 3 else 4
  }

  /** The byte length of a text. */
  function Size(s: string): nat {
    if s == "" then 0 else Size(Init(s)) + Width(Last(s))
  }

  lemma {:induction false} SizeOfAppend(a: string, b: string)
    ensures Size(a + b) == Size(a) + Size(b)
  {
    if b == "" {
      assert a + b == a;
    } else {
      assert (a + b)[..|a + b| - 1] == a + Init(b);
      SizeOfAppend(a, Init(b));
    }
  }

  lemma {:induction false} SizeCoversLength(s: string)
    ensures Size(s) >= |s|
  {
    if s != "" {
      SizeCoversLength(Init(s));
    }
  }

  /** Distinct character positions have distinct byte offsets, in the same order. */
  lemma OffsetsGrow(s: string, i: nat, j: nat)
    requires i < j <= |s|
    ensures Size(s[..i]) < Size(s[..j])
  {
    assert s[..j] == s[..i] + s[i..j];
    SizeOfAppend(s[..i], s[i..j]);
    SizeCoversLength(s[i..j]);
  }

  /** Whether a byte offset falls between two characters, where a text may be truncated. */
  ghost predicate IsBoundary(s: string, offset: nat) {
    exists k :: 0 <= k <= |s| && Size(s[..k]) == offset
  }

  /** `String::truncate`, which is an error inside a character. */
  function Truncate(s: string, offset: nat): (r: string)
    requires IsBoundary(s, offset)
    ensures r <= s && Size(r) == offset
  {
    if Size(s) == offset then s
    else
      assert IsBoundary(Init(s), offset) by {
        var k :| 0 <= k <= |s| && Size(s[..k]) == offset;
        assert s[..|s|] == s;
        assert Init(s)[..k] == s[..k];
      }
      Truncate(Init(s), offset)
  }

  lemma TruncateAt(s: string, k: nat)
    requires k <= |s|
    ensures IsBoundary(s, Size(s[..k])) && Truncate(s, Size(s[..k])) == s[..k]
  {
    assert IsBoundary(s, Size(s[..k]));
    var r := Truncate(s, Size(s[..k]));
    assert r == s[..|r|];
    if |r| < k {
      OffsetsGrow(s, |r|, k);
    } else if k < |r| {
      OffsetsGrow(s, k, |r|);
    }
  }

  // ----- The lowercased copy -----

  /** What `char::to_lowercase` promises here: it never maps a character to nothing. */
  ghost predicate Lowers(lower: char -> string) {
    forall c :: lower(c) != ""
  }

  function Lowered(text: string, lower: char -> string): string
    decreases |text|
  {
    if text == "" then "" else Lowered(Init(text), lower) + lower(Last(text))
  }

  lemma {:induction false} LoweredPrefix(text: string, lower: char -> string, k: nat)
    requires k <= |text|
    ensures Lowered(text[..k], lower) <= Lowered(text, lower)
    decreases |text|
  {
    if k == |text| {
      assert text[..k] == text;
    } else {
      LoweredPrefix(Init(text), lower, k);
      assert Init(text)[..k] == text[..k];
    }
  }

  /** A longer prefix has a strictly longer lowercase. */
  lemma {:induction false} LoweredGrows(text: string, lower: char -> string, i: nat, j: nat)
    requires Lowers(lower) && i < j <= |text|
    ensures |Lowered(text[..i], lower)| < |Lowered(text[..j], lower)|
    decreases j
  {
    assert text[..j][..j - 1] == text[..j - 1];
    assert lower(text[j - 1]) != "";
    if i < j - 1 {
      LoweredGrows(text, lower, i, j - 1);
    }
  }

  /** Lowercase the text, noting for each source character its byte offset in the copy and in the text. */
  method LowerWithOffsets(text: string, lower: char -> string) returns (lowered: string, offsets: seq<(nat, nat)>)
    ensures lowered == Lowered(text, lower)
    ensures |offsets| == |text|
    ensures forall k :: 0 <= k < |text| ==> offsets[k] == (Size(Lowered(text[..k], lower)), Size(text[..k]))
  {
    lowered, offsets := "", [];
    var position := 0;
    assert text[..0] == "";
    for i := 0 to |text|
      invariant lowered == Lowered(text[..i], lower) && position == Size(text[..i])
      invariant |offsets| == i
      invariant forall k :: 0 <= k < i ==> offsets[k] == (Size(Lowered(text[..k], lower)), Size(text[..k]))
    {
      offsets := offsets + [(Size(lowered), position)];
      lowered := lowered + lower(text[i]);
      position := position + Width(text[i]);
      assert text[..i + 1][..i] == text[..i];
    }
    assert text[..|text|] == text;
  }

  // ----- Searching -----

  predicate OccursAt(s: string, phrase: string, p: nat) {
    p + |phrase| <= |s| && s[p..p + |phrase|] == phrase
  }

  /** The last occurrence at or before `limit`. */
  function LastOccurrence(s: string, phrase: string, limit: nat): (r: Option<nat>)
    ensures r.Some? ==> r.value <= limit && OccursAt(s, phrase, r.value)
    ensures forall p :: 0 <= p <= limit && (r.None? || r.value < p) ==> !OccursAt(s, phrase, p)
  {
    if OccursAt(s, phrase, limit) then Some(limit)
    else if limit == 0 then None
    else LastOccurrence(s, phrase, limit - 1)
  }

  /** `str::rfind`. */
  function RFind(s: string, phrase: string): (r: Option<nat>)
    ensures r.Some? ==> OccursAt(s, phrase, r.value)
    ensures forall p :: 0 <= p && (r.None? || r.value < p) ==> !OccursAt(s, phrase, p)
  {
    LastOccurrence(s, phrase, |s|)
  }

  /** `binary_search_by_key` over the first components, which are distinct. */
  function IndexOfKey(offsets: seq<(nat, nat)>, key: nat): (r: Option<nat>)
    ensures r.Some? ==> r.value < |offsets| && offsets[r.value].0 == key
    ensures r.None? ==> forall k :: 0 <= k < |offsets| ==> offsets[k].0 != key
  {
    if offsets == [] then None
    else if Last(offsets).0 == key then Some(|offsets| - 1)
    else IndexOfKey(Init(offsets), key)
  }

  /** Punctuation and space allowed after a phrase. */
  predicate IsTrailing(c: char) {
    Text.IsWhitespace(c) || c == '.' || c == '!' || c == '?' || c == ',' || c == '…' || c == '"' || c == '»' || c == ')'
  }

  predicate Trailing(s: string) {
    forall c :: c in s ==> IsTrailing(c)
  }

  // ----- One phrase -----

  /** The lowercase of `text` is that of its first `k` characters, then the phrase, then trailing punctuation. */
  ghost predicate EndsWith(text: string, phrase: string, lower: char -> string, k: nat) {
    && k < |text|
    && var p := |Lowered(text[..k], lower)|;
       OccursAt(Lowered(text, lower), phrase, p) && Trailing(Lowered(text, lower)[p + |phrase|..])
  }

  /** The phrase occurs nowhere after the first `k` characters' lowercase. */
  ghost predicate IsLast(text: string, phrase: string, lower: char -> string, k: nat)
    requires k <= |text|
  {
    forall p :: p > |Lowered(text[..k], lower)| ==> !OccursAt(Lowered(text, lower), phrase, p)
  }

  ghost predicate Matches(text: string, phrase: string, lower: char -> string, k: nat) {
    EndsWith(text, phrase, lower, k) && IsLast(text, phrase, lower, k)
  }

  /** `result` is what one phrase leaves of `text`: the text before the phrase's last occurrence, if that starts on a
      source character and only trailing punctuation follows, and otherwise the whole text. */
  ghost predicate StripsTo(text: string, phrase: string, lower: char -> string, result: string) {
    || (exists k: nat :: Matches(text, phrase, lower, k) && result == text[..k])
    || (result == text && forall k: nat :: !Matches(text, phrase, lower, k))
  }

  lemma SameOffset(text: string, lower: char -> string, k: nat, p: nat)
    requires k <= |text| && p <= |Lowered(text, lower)|
    ensures Size(Lowered(text[..k], lower)) == Size(Lowered(text, lower)[..p]) <==> |Lowered(text[..k], lower)| == p
  {
    LoweredPrefix(text, lower, k);
    var lowered := Lowered(text, lower);
    var q := |Lowered(text[..k], lower)|;
    assert Lowered(text[..k], lower) == lowered[..q];
    if q < p {
      OffsetsGrow(lowered, q, p);
    } else if p < q {
      OffsetsGrow(lowered, p, q);
    }
  }

  method StripPhrase(text: string, phrase: string, lower: char -> string) returns (result: string)
    ensures StripsTo(text, phrase, lower, result)
  {
    var lowered, offsets := LowerWithOffsets(text, lower);
    result := text;
    var found := RFind(lowered, phrase);
    if found.Some? {
      var p := found.value;
      var position := Size(lowered[..p]);
      var tail := lowered[p + |phrase|..];
      if Trailing(tail) {
        var index := IndexOfKey(offsets, position);
        forall k: nat | k < |text|
          ensures offsets[k].0 == position <==> |Lowered(text[..k], lower)| == p
        {
          SameOffset(text, lower, k, p);
        }
        if index.Some? {
          TruncateAt(text, index.value);
          result := Truncate(text, offsets[index.value].1);
          assert Matches(text, phrase, lower, index.value);
        } else {
          assert forall k: nat :: !Matches(text, phrase, lower, k);
        }
      }
    }
  }

  /** What a phrase strips is the phrase and trailing punctuation, nothing else, and it starts on a character. */
  lemma StripIsSound(text: string, phrase: string, lower: char -> string, result: string) returns (tail: string)
    requires StripsTo(text, phrase, lower, result) && result != text
    ensures result <= text && Trailing(tail)
    ensures Lowered(text, lower) == Lowered(result, lower) + phrase + tail
  {
    var k: nat :| Matches(text, phrase, lower, k) && result == text[..k];
    LoweredPrefix(text, lower, k);
    var p := |Lowered(result, lower)|;
    tail := Lowered(text, lower)[p + |phrase|..];
  }

  /** The strip of one phrase is one definite text. */
  lemma StripIsUnique(text: string, phrase: string, lower: char -> string, r1: string, r2: string)
    requires Lowers(lower) && StripsTo(text, phrase, lower, r1) && StripsTo(text, phrase, lower, r2)
    ensures r1 == r2
  {
    if (exists k: nat :: Matches(text, phrase, lower, k)) {
      var k1: nat :| Matches(text, phrase, lower, k1) && r1 == text[..k1];
      var k2: nat :| Matches(text, phrase, lower, k2) && r2 == text[..k2];
      if k1 < k2 {
        LoweredGrows(text, lower, k1, k2);
      } else if k2 < k1 {
        LoweredGrows(text, lower, k2, k1);
      }
    }
  }

  // ----- The phrases, longest first -----

  /** Insert after every phrase at least as long: the sort is stable and descending. */
  function InsertByLength(sorted: seq<string>, phrase: string): seq<string> {
    if sorted == [] || Size(Last(sorted)) >= Size(phrase) then sorted + [phrase]
    else InsertByLength(Init(sorted), phrase) + [Last(sorted)]
  }

  function ByLength(phrases: seq<string>): seq<string> {
    if phrases == [] then []
    else InsertByLength(ByLength(Init(phrases)), Last(phrases))
  }

  ghost predicate LongestFirst(phrases: seq<string>) {
    forall i, j :: 0 <= i < j < |phrases| ==> Size(phrases[i]) >= Size(phrases[j])
  }

  lemma {:induction false} InsertKeepsPhrases(sorted: seq<string>, phrase: string)
    ensures multiset(InsertByLength(sorted, phrase)) == multiset(sorted) + multiset{phrase}
  {
    if sorted != [] && Size(Last(sorted)) < Size(phrase) {
      InsertKeepsPhrases(Init(sorted), phrase);
      assert sorted == Init(sorted) + [Last(sorted)];
    }
  }

  lemma AppendShorter(sorted: seq<string>, phrase: string)
    requires LongestFirst(sorted) && forall q :: q in sorted ==> Size(q) >= Size(phrase)
    ensures LongestFirst(sorted + [phrase])
  {
  }

  lemma {:induction false} InsertKeepsOrder(sorted: seq<string>, phrase: string)
    requires LongestFirst(sorted)
    ensures LongestFirst(InsertByLength(sorted, phrase))
  {
    if sorted == [] || Size(Last(sorted)) >= Size(phrase) {
      AppendShorter(sorted, phrase);
    } else {
      InsertKeepsOrder(Init(sorted), phrase);
      InsertKeepsPhrases(Init(sorted), phrase);
      var r := InsertByLength(Init(sorted), phrase);
      forall q | q in r
        ensures Size(q) >= Size(Last(sorted))
      {
        assert q in multiset(r);
      }
      AppendShorter(r, Last(sorted));
    }
  }

  /** The order tried: every phrase of the table, longest first. */
  lemma {:induction false} ByLengthIsLongestFirst(phrases: seq<string>)
    ensures LongestFirst(ByLength(phrases)) && multiset(ByLength(phrases)) == multiset(phrases)
  {
    if phrases != [] {
      var init := Init(phrases);
      ByLengthIsLongestFirst(init);
      InsertKeepsOrder(ByLength(init), Last(phrases));
      InsertKeepsPhrases(ByLength(init), Last(phrases));
      assert phrases == init + [Last(phrases)];
    }
  }

  // ----- All phrases -----

  /** One phrase after the other, each on what the one before left. */
  ghost predicate StripsAll(text: string, phrases: seq<string>, lower: char -> string, result: string)
    decreases |phrases|
  {
    if phrases == [] then result == text
    else
      exists middle ::
        && StripsAll(text, Init(phrases), lower, middle)
        && StripsTo(middle, Last(phrases), lower, result)
  }

  /** Removed pieces, in the order they stood: each a phrase and the trailing punctuation after it. */
  function Flatten(pieces: seq<(string, string)>): string {
    if pieces == [] then "" else pieces[0].0 + pieces[0].1 + Flatten(pieces[1..])
  }

  ghost predicate ArePieces(pieces: seq<(string, string)>, phrases: seq<string>) {
    forall i :: 0 <= i < |pieces| ==> pieces[i].0 in phrases && Trailing(pieces[i].1)
  }

  lemma OnePieceMore(kept: string, piece: (string, string), pieces: seq<(string, string)>)
    ensures kept + piece.0 + piece.1 + Flatten(pieces) == kept + Flatten([piece] + pieces)
  {
    assert ([piece] + pieces)[1..] == pieces;
  }

  /** Whatever all phrases together strip was, lowercased, a run of phrases each with trailing punctuation, at most one
      per phrase of the table; the kept text is a prefix of the input. */
  lemma {:induction false} OnlyPhrasesAreStripped(text: string, phrases: seq<string>, lower: char -> string,
      result: string) returns (pieces: seq<(string, string)>)
    requires StripsAll(text, phrases, lower, result)
    ensures result <= text && |pieces| <= |phrases| && ArePieces(pieces, phrases)
    ensures Lowered(text, lower) == Lowered(result, lower) + Flatten(pieces)
    decreases |phrases|
  {
    if phrases == [] {
      pieces := [];
    } else {
      var init, last := Init(phrases), Last(phrases);
      var middle :| StripsAll(text, init, lower, middle) && StripsTo(middle, last, lower, result);
      var before := OnlyPhrasesAreStripped(text, init, lower, middle);
      if result == middle {
        pieces := before;
      } else {
        var tail := StripIsSound(middle, last, lower, result);
        pieces := [(last, tail)] + before;
        OnePieceMore(Lowered(result, lower), (last, tail), before);
      }
    }
  }

  // ----- No orphans -----

  /** What the phrase table satisfies: no phrase is empty or ends in trailing punctuation. */
  predicate IsSignOff(phrase: string) {
    phrase != "" && !IsTrailing(phrase[|phrase| - 1])
  }

  lemma SignOffEnds(lowered: string, phrase: string, p: nat)
    requires IsSignOff(phrase) && OccursAt(lowered, phrase, p)
    ensures !IsTrailing(lowered[p + |phrase| - 1])
  {
    assert lowered[p..p + |phrase|][|phrase| - 1] == lowered[p + |phrase| - 1];
  }

  lemma TailIsTrailing(lowered: string, from: nat, i: nat)
    requires from <= i < |lowered| && Trailing(lowered[from..])
    ensures IsTrailing(lowered[i])
  {
    assert lowered[from..][i - from] == lowered[i];
  }

  /** A sign-off followed only by trailing punctuation is the last occurrence of its phrase. */
  lemma SignOffIsLast(text: string, phrase: string, lower: char -> string, k: nat)
    requires IsSignOff(phrase) && EndsWith(text, phrase, lower, k)
    ensures IsLast(text, phrase, lower, k)
  {
    var lowered, start := Lowered(text, lower), |Lowered(text[..k], lower)|;
    forall p: nat | OccursAt(lowered, phrase, p)
      ensures !IsTrailing(lowered[p + |phrase| - 1])
    {
      SignOffEnds(lowered, phrase, p);
    }
    forall i: nat | start + |phrase| <= i < |lowered|
      ensures IsTrailing(lowered[i])
    {
      TailIsTrailing(lowered, start + |phrase|, i);
    }
    assert forall p :: p > start ==> OccursAt(lowered, phrase, p) ==> p + |phrase| - 1 >= start + |phrase|;
  }

  /** Two sign-offs ending the same text end at the same character. */
  lemma SignOffsEndTogether(lowered: string, a: string, p: nat, b: string, q: nat)
    requires IsSignOff(a) && OccursAt(lowered, a, p) && Trailing(lowered[p + |a|..])
    requires IsSignOff(b) && OccursAt(lowered, b, q) && Trailing(lowered[q + |b|..])
    ensures p + |a| == q + |b|
  {
    SignOffEnds(lowered, a, p);
    SignOffEnds(lowered, b, q);
    assert forall i :: p + |a| <= i < |lowered| ==> lowered[i] in lowered[p + |a|..];
    assert forall i :: q + |b| <= i < |lowered| ==> lowered[i] in lowered[q + |b|..];
  }

  /** Of two texts ending together, the one starting later has fewer bytes. */
  lemma LaterIsSmaller(lowered: string, later: string, p: nat, earlier: string, q: nat)
    requires OccursAt(lowered, later, p) && OccursAt(lowered, earlier, q)
    requires p + |later| == q + |earlier| && q < p
    ensures Size(later) < Size(earlier)
  {
    assert earlier == lowered[q..p] + later;
    SizeOfAppend(lowered[q..p], later);
    SizeCoversLength(lowered[q..p]);
  }

  /** Of two sign-offs ending the same text, one with at least as many bytes starts no later. */
  lemma LongerStartsEarlier(text: string, lower: char -> string, longer: string, i: nat, phrase: string, k: nat)
    requires Lowers(lower) && IsSignOff(longer) && IsSignOff(phrase) && Size(longer) >= Size(phrase)
    requires EndsWith(text, longer, lower, i) && EndsWith(text, phrase, lower, k)
    ensures i <= k
  {
    var p, q := |Lowered(text[..i], lower)|, |Lowered(text[..k], lower)|;
    SignOffsEndTogether(Lowered(text, lower), longer, p, phrase, q);
    if k < i {
      LoweredGrows(text, lower, k, i);
      LaterIsSmaller(Lowered(text, lower), longer, p, phrase, q);
    }
  }

  lemma {:induction false} LongerPhrasesCutEarlier(text: string, phrases: seq<string>, lower: char -> string,
      result: string, phrase: string, k: nat)
    requires Lowers(lower) && StripsAll(text, phrases, lower, result) && result != text
    requires IsSignOff(phrase) && EndsWith(text, phrase, lower, k)
    requires forall q :: q in phrases ==> IsSignOff(q) && Size(q) >= Size(phrase)
    ensures |result| <= k
    decreases |phrases|
  {
    var init, last := Init(phrases), Last(phrases);
    var middle :| StripsAll(text, init, lower, middle) && StripsTo(middle, last, lower, result);
    if middle != text {
      LongerPhrasesCutEarlier(text, init, lower, middle, phrase, k);
    } else {
      var i: nat :| Matches(text, last, lower, i) && result == text[..i];
      LongerStartsEarlier(text, lower, last, i, phrase, k);
    }
  }

  /** Longest first leaves no orphan: if the text ends in some phrase of the table, at a source character, then nothing
      of that phrase survives, whichever shorter phrases it contains. */
  lemma {:induction false} NoPhraseIsLeftBehind(text: string, phrases: seq<string>, lower: char -> string,
      result: string, phrase: string, k: nat)
    requires Lowers(lower) && LongestFirst(phrases) && StripsAll(text, phrases, lower, result)
    requires forall q :: q in phrases ==> IsSignOff(q)
    requires phrase in phrases && EndsWith(text, phrase, lower, k)
    ensures result <= text[..k]
    decreases |phrases|
  {
    var init, last := Init(phrases), Last(phrases);
    var middle :| StripsAll(text, init, lower, middle) && StripsTo(middle, last, lower, result);
    var pieces := OnlyPhrasesAreStripped(text, init, lower, middle);
    if phrase in init {
      NoPhraseIsLeftBehind(text, init, lower, middle, phrase, k);
    } else if middle != text {
      LongerPhrasesCutEarlier(text, init, lower, middle, phrase, k);
    } else {
      SignOffIsLast(text, phrase, lower, k);
      assert Matches(text, phrase, lower, k);
      StripIsUnique(text, phrase, lower, result, text[..k]);
    }
  }

  // ----- The whole operation -----

  predicate IsOuterPunctuation(c: char) {
    c == '.' || c == '!' || c == '?' || c == ',' || c == ' '
  }

  /** `trim_matches` with the outer punctuation. */
  function TrimPunctuation(s: string): string {
    if s != "" && IsOuterPunctuation(s[0]) then TrimPunctuation(s[1..])
    else if s != "" && IsOuterPunctuation(Last(s)) then TrimPunctuation(Init(s))
    else s
  }

  function WithoutNotes(s: string): string {
    if s == "" then "" else WithoutNotes(Init(s)) + if Last(s) == '♪' then "" else [Last(s)]
  }

  /** `lowerText` is `str::to_lowercase`, which is not the map of `char::to_lowercase` (a final sigma). */
  method StripHallucinations(text: string, phrases: seq<string>, lower: char -> string, lowerText: string -> string)
    returns (result: string)
    ensures TrimPunctuation(Text.Trim(lowerText(text))) in phrases ==> result == ""
    ensures TrimPunctuation(Text.Trim(lowerText(text))) !in phrases ==>
              exists kept :: StripsAll(text, ByLength(phrases), lower, kept) && result == Text.Trim(WithoutNotes(kept))
  {
    if TrimPunctuation(Text.Trim(lowerText(text))) in phrases {
      return "";
    }
    var ordered := ByLength(phrases);
    result := text;
    for i := 0 to |ordered|
      invariant StripsAll(text, ordered[..i], lower, result)
    {
      assert Init(ordered[..i + 1]) == ordered[..i] && Last(ordered[..i + 1]) == ordered[i];
      result := StripPhrase(result, ordered[i], lower);
    }
    assert ordered[..|ordered|] == ordered;
    result := Text.Trim(WithoutNotes(result));
  }

  // ----- The characters involved -----

  /** Whitespace, or one of the marks that may follow a sign-off. */
  predicate MayFollow(c: char) {
    Text.IsWhitespace(c) || c in ".!?,…\"»)"
  }

  /** A phrase with such marks after it counts as the end of the text, and with any other character does not. */
  lemma PhraseMayBePunctuated(text: string, phrase: string, lower: char -> string, k: nat, tail: string)
    requires k < |text| && Lowered(text, lower) == Lowered(text[..k], lower) + phrase + tail
    ensures EndsWith(text, phrase, lower, k) <==> forall c :: c in tail ==> MayFollow(c)
  {
    var p := |Lowered(text[..k], lower)|;
    assert Lowered(text, lower)[p..p + |phrase|] == phrase;
    assert Lowered(text, lower)[p + |phrase|..] == tail;
    assert forall c :: IsTrailing(c) == MayFollow(c);
  }

  /** Note signs are dropped, and nothing else. */
  lemma {:induction false} NotesAreDropped(s: string)
    ensures forall c :: c in WithoutNotes(s) <==> c in s && c != '♪'
    ensures '♪' !in s ==> WithoutNotes(s) == s
  {
    if s != "" {
      NotesAreDropped(Init(s));
      assert s == Init(s) + [Last(s)];
    }
  }

  lemma {:induction false} NotesAreDroppedInPlace(a: string, b: string)
    ensures WithoutNotes(a + b) == WithoutNotes(a) + WithoutNotes(b)
  {
    if b == "" {
      assert a + b == a;
    } else {
      assert Init(a + b) == a + Init(b) && Last(a + b) == Last(b);
      NotesAreDroppedInPlace(a, Init(b));
    }
  }

  predicate OnlyOuter(s: string) {
    forall c :: c in s ==> c in ".!?, "
  }

  /** Comparing with the table ignores the marks and spaces around a text, and nothing inside it. */
  lemma {:induction false} OuterPunctuationIsDropped(s: string) returns (a: string, b: string)
    ensures OnlyOuter(a) && OnlyOuter(b) && s == a + TrimPunctuation(s) + b
    ensures TrimPunctuation(s) != "" ==> TrimPunctuation(s)[0] !in ".!?, " && Last(TrimPunctuation(s)) !in ".!?, "
    decreases |s|
  {
    if s != "" && IsOuterPunctuation(s[0]) {
      var a', b' := OuterPunctuationIsDropped(s[1..]);
      a, b := [s[0]] + a', b';
    } else if s != "" && IsOuterPunctuation(Last(s)) {
      var a', b' := OuterPunctuationIsDropped(Init(s));
      a, b := a', b' + [Last(s)];
    } else {
      a, b := "", "";
      assert s == "" + s + "";
    }
  }
}
