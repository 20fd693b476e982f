/** Word error scoring (scripts/benchmark.py): the rolling-row edit distance equals the least cost of any
    edit script, and it is a metric. */
module EditDistance {
  import opened Numbers
  import opened Sequences

  // ----- Edit scripts -----

  /** Keep or replace a word, drop one, or add one. */
  datatype Edit<T> = Substitute(word: T) | Drop | Add(word: T)

  /** A script fits a word list when its edits consume the list exactly. */
  predicate Fits<T>(script: seq<Edit<T>>, words: seq<T>)
    decreases |script|
  {
    if script == [] then words == []
    else
      match Last(script)
      case Substitute(_) => words != [] && Fits(Init(script), Init(words))
      case Drop => words != [] && Fits(Init(script), Init(words))
      case Add(_) => Fits(Init(script), words)
  }

  function Apply<T>(script: seq<Edit<T>>, words: seq<T>): seq<T>
    requires Fits(script, words)
    decreases |script|
  {
    if script == [] then []
    else
      match Last(script)
      case Substitute(w) => Apply(Init(script), Init(words)) + [w]
      case Drop => Apply(Init(script), Init(words))
      case Add(w) => Apply(Init(script), words) + [w]
  }

  /** Replacing a word by itself is free; every other edit costs one. */
  function Cost<T(==)>(script: seq<Edit<T>>, words: seq<T>): nat
    requires Fits(script, words)
    decreases |script|
  {
    if script == [] then 0
    else
      match Last(script)
      case Substitute(w) => Cost(Init(script), Init(words)) + Differ(Last(words), w)
      case Drop => Cost(Init(script), Init(words)) + 1
      case Add(_) => Cost(Init(script), words) + 1
  }

  function Differ<T(==)>(a: T, b: T): nat {
    if a == b then 0 else 1
  }

  // ----- The distance, by its recurrence -----

  function Distance<T(==)>(a: seq<T>, b: seq<T>): nat
    decreases |a| + |b|
  {
    if a == [] then |b|
    else if b == [] then |a|
    else
      Min(Min(Distance(a, Init(b)) + 1, Distance(Init(a), b) + 1),
          Distance(Init(a), Init(b)) + Differ(Last(a), Last(b)))
  }

  lemma OneDropped<T>(a: seq<T>, b: seq<T>)
    requires a != []
    ensures Distance(a, b) <= Distance(Init(a), b) + 1
  {
  }

  lemma OneAdded<T>(a: seq<T>, b: seq<T>)
    requires b != []
    ensures Distance(a, b) <= Distance(a, Init(b)) + 1
  {
  }

  lemma OneSubstituted<T>(a: seq<T>, b: seq<T>)
    requires a != [] && b != []
    ensures Distance(a, b) <= Distance(Init(a), Init(b)) + Differ(Last(a), Last(b))
  {
  }

  /** No script is cheaper than the distance. */
  lemma {:induction false} NoScriptIsCheaper<T>(script: seq<Edit<T>>, a: seq<T>)
    requires Fits(script, a)
    ensures Cost(script, a) >= Distance(a, Apply(script, a))
    decreases |script|
  {
    if script != [] {
      var b := Apply(script, a);
      match Last(script)
      case Substitute(w) =>
        NoScriptIsCheaper(Init(script), Init(a));
        assert Init(b) == Apply(Init(script), Init(a));
        OneSubstituted(a, b);
      case Drop =>
        NoScriptIsCheaper(Init(script), Init(a));
        OneDropped(a, b);
      case Add(w) =>
        NoScriptIsCheaper(Init(script), a);
        assert Init(b) == Apply(Init(script), a);
        OneAdded(a, b);
    }
  }

  ghost predicate Turns<T>(script: seq<Edit<T>>, a: seq<T>, b: seq<T>, cost: nat) {
    Fits(script, a) && Apply(script, a) == b && Cost(script, a) == cost
  }

  lemma Adding<T>(script: seq<Edit<T>>, a: seq<T>, b: seq<T>, cost: nat)
    requires b != [] && Turns(script, a, Init(b), cost)
    ensures Turns(script + [Add(Last(b))], a, b, cost + 1)
  {
    assert Init(script + [Add(Last(b))]) == script && b == Init(b) + [Last(b)];
  }

  lemma Dropping<T>(script: seq<Edit<T>>, a: seq<T>, b: seq<T>, cost: nat)
    requires a != [] && Turns(script, Init(a), b, cost)
    ensures Turns(script + [Drop], a, b, cost + 1)
  {
    assert Init(script + [Drop]) == script;
  }

  lemma Substituting<T>(script: seq<Edit<T>>, a: seq<T>, b: seq<T>, cost: nat)
    requires a != [] && b != [] && Turns(script, Init(a), Init(b), cost)
    ensures Turns(script + [Substitute(Last(b))], a, b, cost + Differ(Last(a), Last(b)))
  {
    assert Init(script + [Substitute(Last(b))]) == script && b == Init(b) + [Last(b)];
  }

  /** Some script costs exactly the distance; so the distance is the minimum over all scripts. */
  lemma {:induction false} SomeScriptIsExact<T>(a: seq<T>, b: seq<T>) returns (script: seq<Edit<T>>)
    ensures Turns(script, a, b, Distance(a, b))
    decreases |a| + |b|
  {
    if a == [] && b == [] {
      script := [];
    } else if a == [] || (b != [] && Distance(a, b) == Distance(a, Init(b)) + 1) {
      var rest := SomeScriptIsExact(a, Init(b));
      Adding(rest, a, b, Distance(a, Init(b)));
      script := rest + [Add(Last(b))];
    } else if b == [] || Distance(a, b) == Distance(Init(a), b) + 1 {
      var rest := SomeScriptIsExact(Init(a), b);
      Dropping(rest, a, b, Distance(Init(a), b));
      script := rest + [Drop];
    } else {
      var rest := SomeScriptIsExact(Init(a), Init(b));
      Substituting(rest, a, b, Distance(Init(a), Init(b)));
      script := rest + [Substitute(Last(b))];
    }
  }

  // ----- A metric -----

  lemma {:induction false} ZeroExactlyWhenEqual<T>(a: seq<T>, b: seq<T>)
    ensures Distance(a, b) == 0 <==> a == b
    decreases |a| + |b|
  {
    if a != [] && b != [] {
      ZeroExactlyWhenEqual(Init(a), Init(b));
    }
  }

  lemma {:induction false} Symmetric<T>(a: seq<T>, b: seq<T>)
    ensures Distance(a, b) == Distance(b, a)
    decreases |a| + |b|
  {
    if a != [] && b != [] {
      Symmetric(a, Init(b));
      Symmetric(Init(a), b);
      Symmetric(Init(a), Init(b));
    }
  }

  lemma {:induction false} AtMostTheLonger<T>(a: seq<T>, b: seq<T>)
    ensures Distance(a, b) <= if |a| >= |b| then |a| else |b|
    decreases |a| + |b|
  {
    if a != [] && b != [] {
      AtMostTheLonger(Init(a), Init(b));
    }
  }

  lemma {:induction false} AtLeastTheDifference<T>(a: seq<T>, b: seq<T>)
    ensures Distance(a, b) >= if |a| >= |b| then |a| - |b| else |b| - |a|
    decreases |a| + |b|
  {
    if a != [] && b != [] {
      AtLeastTheDifference(a, Init(b));
      AtLeastTheDifference(Init(a), b);
      AtLeastTheDifference(Init(a), Init(b));
    }
  }

  /** The triangle inequality, by the last edits from `a` to `b` and from `b` to `c`. */
  lemma {:induction false} Triangle<T>(a: seq<T>, b: seq<T>, c: seq<T>)
    ensures Distance(a, c) <= Distance(a, b) + Distance(b, c)
    decreases |a| + |b| + |c|
  {
    if a == [] || b == [] || c == [] {
      AtLeastTheDifference(a, b);
      AtLeastTheDifference(b, c);
      AtMostTheLonger(a, c);
    } else if Distance(a, b) == Distance(Init(a), b) + 1 {
      Triangle(Init(a), b, c);
      OneDropped(a, c);
    } else if Distance(b, c) == Distance(b, Init(c)) + 1 {
      Triangle(a, b, Init(c));
      OneAdded(a, c);
    } else if Distance(a, b) == Distance(a, Init(b)) + 1 {
      if Distance(b, c) == Distance(Init(b), c) + 1 {
        Triangle(a, Init(b), c);
      } else {
        Triangle(a, Init(b), Init(c));
        OneAdded(a, c);
      }
    } else if Distance(b, c) == Distance(Init(b), c) + 1 {
      Triangle(Init(a), Init(b), c);
      OneDropped(a, c);
    } else {
      Triangle(Init(a), Init(b), Init(c));
      OneSubstituted(a, c);
    }
  }

  // ----- The rolling rows -----

  /** `row[j]` is the distance from `a` to the first `j` words of `b`. */
  ghost predicate IsRow<T>(row: seq<nat>, a: seq<T>, b: seq<T>) {
    |row| <= |b| + 1 && forall j {:trigger row[j]} :: 0 <= j < |row| ==> row[j] == Distance(a, b[..j])
  }

  lemma RowGrows<T>(row: seq<nat>, a: seq<T>, b: seq<T>, entry: nat)
    requires IsRow(row, a, b) && |row| <= |b| && entry == Distance(a, b[..|row|])
    ensures IsRow(row + [entry], a, b)
  {
  }

  function Entry<T(==)>(left: nat, above: nat, diagonal: nat, source: T, target: T): nat {
    Min(Min(left + 1, above + 1), diagonal + Differ(source, target))
  }

  lemma RowEntry<T>(a: seq<T>, b: seq<T>, left: nat, above: nat, diagonal: nat)
    requires a != [] && b != []
    requires left == Distance(a, Init(b)) && above == Distance(Init(a), b) && diagonal == Distance(Init(a), Init(b))
    ensures Entry(left, above, diagonal, Last(a), Last(b)) == Distance(a, b)
  {
  }

  lemma NextEntry<T>(row: seq<nat>, next: seq<nat>, before: seq<T>, source: T, hypothesis: seq<T>, j: nat)
    requires j < |hypothesis| && |row| == |hypothesis| + 1 && IsRow(row, before, hypothesis)
    requires |next| == j + 1 && IsRow(next, before + [source], hypothesis)
    ensures IsRow(next + [Entry(next[j], row[j + 1], row[j], source, hypothesis[j])], before + [source], hypothesis)
  {
    var left, above, diagonal := next[j], row[j + 1], row[j];
    var a, b := before + [source], hypothesis[..j + 1];
    assert Init(a) == before && Init(b) == hypothesis[..j];
    RowEntry(a, b, left, above, diagonal);
    RowGrows(next, a, hypothesis, Entry(left, above, diagonal, source, hypothesis[j]));
  }

  method FirstRow<T(==)>(hypothesis: seq<T>) returns (row: seq<nat>)
    ensures |row| == |hypothesis| + 1 && IsRow(row, [], hypothesis)
  {
    row := [];
    for j := 0 to |hypothesis| + 1
      invariant |row| == j && IsRow(row, [], hypothesis)
    {
      RowGrows(row, [], hypothesis, j);
      row := row + [j];
    }
  }

  method NextRow<T(==)>(row: seq<nat>, i: nat, ghost before: seq<T>, source: T, hypothesis: seq<T>)
    returns (next: seq<nat>)
    requires i == |before| + 1 && |row| == |hypothesis| + 1 && IsRow(row, before, hypothesis)
    ensures |next| == |hypothesis| + 1 && IsRow(next, before + [source], hypothesis)
  {
    next := [i];
    for j := 0 to |hypothesis|
      invariant |next| == j + 1 && IsRow(next, before + [source], hypothesis)
    {
      NextEntry(row, next, before, source, hypothesis, j);
      next := next + [Entry(next[j], row[j + 1], row[j], source, hypothesis[j])];
    }
  }

  method EditDistance<T(==)>(reference: seq<T>, hypothesis: seq<T>) returns (d: nat)
    ensures d == Distance(reference, hypothesis)
  {
    var row := FirstRow(hypothesis);
    assert reference[..0] == [];
    for i := 0 to |reference|
      invariant |row| == |hypothesis| + 1 && IsRow(row, reference[..i], hypothesis)
    {
      row := NextRow(row, i + 1, reference[..i], reference[i], hypothesis);
      assert reference[..i + 1] == reference[..i] + [reference[i]];
    }
    assert reference[..|reference|] == reference && hypothesis[..|hypothesis|] == hypothesis;
    d := Last(row);
  }
}
