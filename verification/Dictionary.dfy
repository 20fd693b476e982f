/** Personal-dictionary replacement (src/transcription/postprocess.rs): the scan replaces exactly the leftmost,
    non-overlapping eligible matches, each judged on the original text. */
module Dictionary {
  import opened Sequences
  import Text

  datatype Rule = Rule(from: string, to: string, wholeWord: bool, caseSensitive: bool)

  /** What the scan asks of a character: its lowercase and whether it is alphanumeric. */
  datatype Alphabet = Alphabet(lower: char -> string, alphanumeric: char -> bool)

  // ----- What may be replaced -----

  predicate CharMatches(alphabet: Alphabet, a: char, b: char, caseSensitive: bool) {
    a == b || (!caseSensitive && alphabet.lower(a) == alphabet.lower(b))
  }

  predicate MatchesAt(alphabet: Alphabet, text: string, rule: Rule, i: nat) {
    && i + |rule.from| <= |text|
    && forall k :: 0 <= k < |rule.from| ==> CharMatches(alphabet, text[i + k], rule.from[k], rule.caseSensitive)
  }

  /** No word character of the original text touches the match on either side. */
  predicate IsWholeWord(alphabet: Alphabet, text: string, i: nat, end: nat)
    requires i <= end <= |text|
  {
    && (i == 0 || !alphabet.alphanumeric(text[i - 1]))
    && (end == |text| || !alphabet.alphanumeric(text[end]))
  }

  predicate Eligible(alphabet: Alphabet, text: string, rule: Rule, i: nat) {
    && rule.from != ""
    && MatchesAt(alphabet, text, rule, i)
    && (rule.wholeWord ==> IsWholeWord(alphabet, text, i, i + |rule.from|))
  }

  // ----- What is replaced -----

  /** Ascending starts of matches of width `m` that do not overlap and end by `upTo`. */
  predicate Fit(starts: seq<nat>, m: nat, upTo: nat) {
    starts == [] || (Last(starts) + m <= upTo && Fit(Init(starts), m, Last(starts)))
  }

  predicate Inside(starts: seq<nat>, m: nat, p: nat) {
    exists s :: s in starts && s <= p < s + m
  }

  /** The starts are the leftmost choice up to `upTo`: every one is eligible, and an eligible match starts at no
      position the chosen matches leave untouched. */
  ghost predicate Leftmost(alphabet: Alphabet, text: string, rule: Rule, starts: seq<nat>, upTo: nat) {
    && Fit(starts, |rule.from|, upTo)
    && (forall s :: s in starts ==> Eligible(alphabet, text, rule, s))
    && (forall p: nat :: p < upTo && Eligible(alphabet, text, rule, p) ==> Inside(starts, |rule.from|, p))
  }

  /** The text up to `upTo` with every chosen match replaced. */
  function Rendered(text: string, starts: seq<nat>, m: nat, to: string, upTo: nat): string
    requires upTo <= |text| && Fit(starts, m, upTo)
  {
    if starts == [] then text[..upTo]
    else
      var s := Last(starts);
      Rendered(text, Init(starts), m, to, s) + to + text[s + m..upTo]
  }

  ghost predicate IsReplacement(alphabet: Alphabet, text: string, rule: Rule, starts: seq<nat>, result: string) {
    && Leftmost(alphabet, text, rule, starts, |text|)
    && result == Rendered(text, starts, |rule.from|, rule.to, |text|)
  }

  ghost predicate ReplacesTo(alphabet: Alphabet, text: string, rule: Rule, result: string) {
    exists starts :: IsReplacement(alphabet, text, rule, starts, result)
  }

  // ----- The scan -----

  lemma KeepOne(alphabet: Alphabet, text: string, rule: Rule, starts: seq<nat>, i: nat)
    requires i < |text| && Leftmost(alphabet, text, rule, starts, i) && !Eligible(alphabet, text, rule, i)
    ensures Leftmost(alphabet, text, rule, starts, i + 1)
    ensures Rendered(text, starts, |rule.from|, rule.to, i + 1)
         == Rendered(text, starts, |rule.from|, rule.to, i) + [text[i]]
  {
  }

  lemma ReplaceOne(alphabet: Alphabet, text: string, rule: Rule, starts: seq<nat>, i: nat)
    requires i <= |text| && Leftmost(alphabet, text, rule, starts, i) && Eligible(alphabet, text, rule, i)
    ensures Leftmost(alphabet, text, rule, starts + [i], i + |rule.from|)
    ensures Rendered(text, starts + [i], |rule.from|, rule.to, i + |rule.from|)
         == Rendered(text, starts, |rule.from|, rule.to, i) + rule.to
  {
    var m := |rule.from|;
    assert Init(starts + [i]) == starts;
    forall p: nat | p < i + m && Eligible(alphabet, text, rule, p)
      ensures Inside(starts + [i], m, p)
    {
      if p < i {
        var s :| s in starts && s <= p < s + m;
        assert s in starts + [i];
      } else {
        assert i in starts + [i];
      }
    }
  }

  method ReplaceRule(alphabet: Alphabet, text: string, rule: Rule) returns (result: string)
    ensures ReplacesTo(alphabet, text, rule, result)
  {
    var n, m := |text|, |rule.from|;
    ghost var starts: seq<nat> := [];
    if m == 0 || m > n {
      assert text[..n] == text;
      assert IsReplacement(alphabet, text, rule, starts, text);
      return text;
    }
    result := "";
    var i := 0;
    while i < n
      invariant i <= n && Leftmost(alphabet, text, rule, starts, i)
      invariant result == Rendered(text, starts, m, rule.to, i)
    {
      var matchesHere := MatchesAt(alphabet, text, rule, i);
      if matchesHere {
        var leftOk := !rule.wholeWord || i == 0 || !alphabet.alphanumeric(text[i - 1]);
        var rightOk := !rule.wholeWord || i + m == n || !alphabet.alphanumeric(text[i + m]);
        if leftOk && rightOk {
          ReplaceOne(alphabet, text, rule, starts, i);
          starts := starts + [i];
          result := result + rule.to;
          i := i + m;
          continue;
        }
      }
      KeepOne(alphabet, text, rule, starts, i);
      result := result + [text[i]];
      i := i + 1;
    }
    assert IsReplacement(alphabet, text, rule, starts, result);
  }

  // ----- What the specification says -----

  lemma {:induction false} StartsAreEarlier(starts: seq<nat>, m: nat, upTo: nat, s: nat)
    requires Fit(starts, m, upTo) && s in starts
    ensures s + m <= upTo
  {
    if s != Last(starts) {
      assert s in Init(starts);
      StartsAreEarlier(Init(starts), m, Last(starts), s);
    }
  }

  lemma {:induction false} ChosenDoNotOverlap(starts: seq<nat>, m: nat, upTo: nat, s: nat, t: nat)
    requires Fit(starts, m, upTo) && s in starts && t in starts && s < t
    ensures s + m <= t
  {
    if t == Last(starts) {
      assert s in Init(starts);
      StartsAreEarlier(Init(starts), m, t, s);
    } else {
      assert t in Init(starts);
      StartsAreEarlier(Init(starts), m, Last(starts), t);
      assert s in Init(starts);
      ChosenDoNotOverlap(Init(starts), m, Last(starts), s, t);
    }
  }

  lemma {:induction false} SameMembers(alphabet: Alphabet, text: string, rule: Rule, a: seq<nat>, b: seq<nat>,
      upTo: nat, p: nat)
    requires Leftmost(alphabet, text, rule, a, upTo) && Leftmost(alphabet, text, rule, b, upTo) && p in a
    ensures p in b
    decreases p
  {
    var m := |rule.from|;
    StartsAreEarlier(a, m, upTo, p);
    var s :| s in b && s <= p < s + m;
    if s < p {
      SameMembers(alphabet, text, rule, b, a, upTo, s);
      ChosenDoNotOverlap(a, m, upTo, s, p);
    }
  }

  lemma NoMembers(starts: seq<nat>)
    ensures (forall s :: s !in starts) ==> starts == []
  {
    assert starts != [] ==> starts[0] in starts;
  }

  lemma {:induction false} SameMembersSameSequence(a: seq<nat>, b: seq<nat>, m: nat, upToA: nat, upToB: nat)
    requires m > 0 && Fit(a, m, upToA) && Fit(b, m, upToB) && forall s :: s in a <==> s in b
    ensures a == b
  {
    NoMembers(a);
    NoMembers(b);
    if a != [] && b != [] {
      assert Last(a) in b && Last(b) in a;
      LastIsGreatest(a, m, upToA);
      LastIsGreatest(b, m, upToB);
      assert Last(a) == Last(b);
      SameMembersSameSequence(Init(a), Init(b), m, Last(a), Last(b));
    }
  }

  lemma LastIsGreatest(starts: seq<nat>, m: nat, upTo: nat)
    requires m > 0 && starts != [] && Fit(starts, m, upTo)
    ensures forall s :: s in starts <==> s in Init(starts) || s == Last(starts)
    ensures forall s :: s in Init(starts) ==> s < Last(starts)
  {
    assert starts == Init(starts) + [Last(starts)];
    forall s | s in Init(starts)
      ensures s < Last(starts)
    {
      StartsAreEarlier(Init(starts), m, Last(starts), s);
    }
  }

  /** The leftmost choice is unique. */
  lemma LeftmostIsUnique(alphabet: Alphabet, text: string, rule: Rule, a: seq<nat>, b: seq<nat>, upTo: nat)
    requires Leftmost(alphabet, text, rule, a, upTo) && Leftmost(alphabet, text, rule, b, upTo)
    ensures a == b
  {
    forall s
      ensures s in a <==> s in b
    {
      if s in a {
        SameMembers(alphabet, text, rule, a, b, upTo, s);
      }
      if s in b {
        SameMembers(alphabet, text, rule, b, a, upTo, s);
      }
    }
    if rule.from == "" {
      NoMembers(a);
      NoMembers(b);
    } else {
      SameMembersSameSequence(a, b, |rule.from|, upTo, upTo);
    }
  }

  /** A rule's result is one definite text. */
  lemma ReplacementIsUnique(alphabet: Alphabet, text: string, rule: Rule, r1: string, r2: string)
    requires ReplacesTo(alphabet, text, rule, r1) && ReplacesTo(alphabet, text, rule, r2)
    ensures r1 == r2
  {
    var a :| IsReplacement(alphabet, text, rule, a, r1);
    var b :| IsReplacement(alphabet, text, rule, b, r2);
    LeftmostIsUnique(alphabet, text, rule, a, b, |text|);
  }

  /** The input again, piece by piece: what was kept and what each match covered. */
  function Recovered(text: string, starts: seq<nat>, m: nat, upTo: nat): string
    requires upTo <= |text| && Fit(starts, m, upTo)
  {
    if starts == [] then text[..upTo]
    else
      var s := Last(starts);
      Recovered(text, Init(starts), m, s) + text[s..s + m] + text[s + m..upTo]
  }

  /** Kept and matched pieces concatenate back to the input. */
  lemma {:induction false} PiecesAreTheInput(text: string, starts: seq<nat>, m: nat, upTo: nat)
    requires upTo <= |text| && Fit(starts, m, upTo)
    ensures Recovered(text, starts, m, upTo) == text[..upTo]
  {
    if starts != [] {
      var s := Last(starts);
      PiecesAreTheInput(text, Init(starts), m, s);
      assert text[..upTo] == text[..s] + text[s..s + m] + text[s + m..upTo];
    }
  }

  lemma MatchIsTheText(alphabet: Alphabet, text: string, rule: Rule, s: nat)
    requires rule.caseSensitive && MatchesAt(alphabet, text, rule, s)
    ensures text[s..s + |rule.from|] == rule.from
  {
    forall k | 0 <= k < |rule.from|
      ensures text[s..s + |rule.from|][k] == rule.from[k]
    {
      assert text[s..s + |rule.from|][k] == text[s + k];
    }
  }

  lemma {:induction false} ReplacingByItself(alphabet: Alphabet, text: string, rule: Rule, starts: seq<nat>, upTo: nat)
    requires upTo <= |text| && Fit(starts, |rule.from|, upTo) && rule.caseSensitive
    requires forall s :: s in starts ==> Eligible(alphabet, text, rule, s)
    ensures Rendered(text, starts, |rule.from|, rule.from, upTo) == Recovered(text, starts, |rule.from|, upTo)
  {
    if starts != [] {
      var s := Last(starts);
      assert s in starts && Eligible(alphabet, text, rule, s);
      MatchIsTheText(alphabet, text, rule, s);
      ReplacingByItself(alphabet, text, rule, Init(starts), s);
    }
  }

  /** A case-sensitive rule whose replacement is its own text changes nothing, overlapping matches or not. */
  lemma SelfReplacementIsIdentity(alphabet: Alphabet, text: string, rule: Rule, result: string)
    requires rule.caseSensitive && rule.to == rule.from && ReplacesTo(alphabet, text, rule, result)
    ensures result == text
  {
    var starts :| IsReplacement(alphabet, text, rule, starts, result);
    ReplacingByItself(alphabet, text, rule, starts, |text|);
    PiecesAreTheInput(text, starts, |rule.from|, |text|);
    assert text[..|text|] == text;
  }

  lemma SameEligible(alphabet: Alphabet, text: string, rule: Rule, from: string, i: nat)
    requires !rule.caseSensitive && |from| == |rule.from|
    requires forall k :: 0 <= k < |from| ==> alphabet.lower(from[k]) == alphabet.lower(rule.from[k])
    ensures Eligible(alphabet, text, rule, i) == Eligible(alphabet, text, rule.(from := from), i)
  {
    assert MatchesAt(alphabet, text, rule, i) == MatchesAt(alphabet, text, rule.(from := from), i);
  }

  lemma SameChoices(alphabet: Alphabet, text: string, rule: Rule, from: string, starts: seq<nat>)
    requires !rule.caseSensitive && |from| == |rule.from|
    requires forall k :: 0 <= k < |from| ==> alphabet.lower(from[k]) == alphabet.lower(rule.from[k])
    requires Leftmost(alphabet, text, rule, starts, |text|)
    ensures Leftmost(alphabet, text, rule.(from := from), starts, |text|)
  {
    forall s | s in starts
      ensures Eligible(alphabet, text, rule.(from := from), s)
    {
      SameEligible(alphabet, text, rule, from, s);
    }
    forall p: nat | p < |text| && Eligible(alphabet, text, rule.(from := from), p)
      ensures Inside(starts, |from|, p)
    {
      SameEligible(alphabet, text, rule, from, p);
    }
  }

  /** Ignoring case, any spelling of `from` makes the same rule. */
  lemma SpellingOfFromIsIrrelevant(alphabet: Alphabet, text: string, rule: Rule, from: string, result: string)
    requires !rule.caseSensitive && |from| == |rule.from|
    requires forall k :: 0 <= k < |from| ==> alphabet.lower(from[k]) == alphabet.lower(rule.from[k])
    requires ReplacesTo(alphabet, text, rule, result)
    ensures ReplacesTo(alphabet, text, rule.(from := from), result)
  {
    var starts :| IsReplacement(alphabet, text, rule, starts, result);
    SameChoices(alphabet, text, rule, from, starts);
    assert IsReplacement(alphabet, text, rule.(from := from), starts, result);
  }

  // ----- All rules -----

  /** Rules apply in order, each to what the one before left; a rule with a blank `from` is skipped. */
  ghost predicate AppliesTo(alphabet: Alphabet, text: string, rules: seq<Rule>, result: string)
    decreases |rules|
  {
    if rules == [] then result == text
    else
      exists middle ::
        && AppliesTo(alphabet, text, Init(rules), middle)
        && (if Text.Trim(Last(rules).from) == "" then result == middle
            else ReplacesTo(alphabet, middle, Last(rules), result))
  }

  method ApplyReplacements(alphabet: Alphabet, text: string, rules: seq<Rule>) returns (out: string)
    ensures AppliesTo(alphabet, text, rules, out)
  {
    out := text;
    for i := 0 to |rules|
      invariant AppliesTo(alphabet, text, rules[..i], out)
    {
      assert Init(rules[..i + 1]) == rules[..i] && Last(rules[..i + 1]) == rules[i];
      if Text.Trim(rules[i].from) != "" {
        out := ReplaceRule(alphabet, out, rules[i]);
      }
    }
    assert rules[..|rules|] == rules;
  }

  lemma {:induction false} ReplacementsAreUnique(alphabet: Alphabet, text: string, rules: seq<Rule>, r1: string,
      r2: string)
    requires AppliesTo(alphabet, text, rules, r1) && AppliesTo(alphabet, text, rules, r2)
    ensures r1 == r2
    decreases |rules|
  {
    if rules != [] {
      var m1 :| AppliesTo(alphabet, text, Init(rules), m1)
        && (if Text.Trim(Last(rules).from) == "" then r1 == m1 else ReplacesTo(alphabet, m1, Last(rules), r1));
      var m2 :| AppliesTo(alphabet, text, Init(rules), m2)
        && (if Text.Trim(Last(rules).from) == "" then r2 == m2 else ReplacesTo(alphabet, m2, Last(rules), r2));
      ReplacementsAreUnique(alphabet, text, Init(rules), m1, m2);
      if Text.Trim(Last(rules).from) != "" {
        ReplacementIsUnique(alphabet, m1, Last(rules), r1, r2);
      }
    }
  }

  // ----- What a rule does to one occurrence -----

  /** The text reads as `from` at `p`, up to case if case does not matter. */
  ghost predicate ReadsAt(alphabet: Alphabet, text: string, rule: Rule, p: nat) {
    && p + |rule.from| <= |text|
    && forall k :: 0 <= k < |rule.from| ==>
         text[p + k] == rule.from[k]
         || (!rule.caseSensitive && alphabet.lower(text[p + k]) == alphabet.lower(rule.from[k]))
  }

  /** A letter or digit stands right before or after. */
  ghost predicate TouchesWord(alphabet: Alphabet, text: string, p: nat, end: nat) {
    || (0 < p <= |text| && alphabet.alphanumeric(text[p - 1]))
    || (end < |text| && alphabet.alphanumeric(text[end]))
  }

  lemma EligibleReads(alphabet: Alphabet, text: string, rule: Rule, p: nat)
    requires rule.from != ""
    ensures Eligible(alphabet, text, rule, p) <==>
              ReadsAt(alphabet, text, rule, p) && (rule.wholeWord ==> !TouchesWord(alphabet, text, p, p + |rule.from|))
  {
  }

  /** A text that reads as `from` nowhere, or for a whole-word rule only inside words, is left as it is. */
  lemma UnmatchedIsKept(alphabet: Alphabet, text: string, rule: Rule, result: string)
    requires rule.from != "" && ReplacesTo(alphabet, text, rule, result)
    requires forall p: nat :: ReadsAt(alphabet, text, rule, p) ==>
               rule.wholeWord && TouchesWord(alphabet, text, p, p + |rule.from|)
    ensures result == text
  {
    forall p: nat
      ensures !Eligible(alphabet, text, rule, p)
    {
      EligibleReads(alphabet, text, rule, p);
    }
    var starts :| IsReplacement(alphabet, text, rule, starts, result);
    NoMembers(starts);
    assert text[..|text|] == text;
  }

  /** Where a text reads as `from` once, and not inside a word if the rule asks for whole words, exactly that is
      replaced. */
  lemma OnlyMatchIsReplaced(alphabet: Alphabet, text: string, rule: Rule, p: nat, result: string)
    requires rule.from != "" && ReplacesTo(alphabet, text, rule, result)
    requires forall q: nat :: ReadsAt(alphabet, text, rule, q) <==> q == p
    requires rule.wholeWord ==> !TouchesWord(alphabet, text, p, p + |rule.from|)
    ensures p + |rule.from| <= |text|
    ensures result == text[..p] + rule.to + text[p + |rule.from|..]
  {
    var m := |rule.from|;
    assert ReadsAt(alphabet, text, rule, p);
    forall q: nat
      ensures Eligible(alphabet, text, rule, q) <==> q == p
    {
      EligibleReads(alphabet, text, rule, q);
    }
    OneIsLeftmost(alphabet, text, rule, p);
    assert IsReplacement(alphabet, text, rule, [p], Rendered(text, [p], m, rule.to, |text|));
    ReplacementIsUnique(alphabet, text, rule, result, Rendered(text, [p], m, rule.to, |text|));
    OneIsRendered(text, p, m, rule.to);
  }

  lemma OneIsLeftmost(alphabet: Alphabet, text: string, rule: Rule, p: nat)
    requires rule.from != "" && p + |rule.from| <= |text|
    requires forall q: nat :: Eligible(alphabet, text, rule, q) <==> q == p
    ensures Leftmost(alphabet, text, rule, [p], |text|)
  {
    assert Init([p]) == [] && Last([p]) == p;
    assert p in [p];
  }

  lemma OneIsRendered(text: string, p: nat, m: nat, to: string)
    requires p + m <= |text| && Fit([p], m, |text|)
    ensures Rendered(text, [p], m, to, |text|) == text[..p] + to + text[p + m..]
  {
    assert Init([p]) == [] && Last([p]) == p;
    assert text[p + m..|text|] == text[p + m..];
  }
}
