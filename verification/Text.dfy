/** Whitespace, trimming and joining of transcripts, and the word lists they denote. */
module Text {
  import opened Sequences

  /** `char::is_whitespace`: the characters with Unicode's White_Space property. */
  predicate IsWhitespace(c: char) {
    || '\U{0009}' <= c <= '\U{000D}'
    || c == ' ' || c == '\U{0085}' || c == '\U{00A0}' || c == '\U{1680}'
    || '\U{2000}' <= c <= '\U{200A}'
    || c == '\U{2028}' || c == '\U{2029}' || c == '\U{202F}' || c == '\U{205F}' || c == '\U{3000}'
  }

  function TrimStart(s: string): string {
    if s != "" && IsWhitespace(s[0]) then TrimStart(s[1..]) else s
  }

  function TrimEnd(s: string): string {
    if s != "" && IsWhitespace(Last(s)) then TrimEnd(Init(s)) else s
  }

  function Trim(s: string): string {
    TrimEnd(TrimStart(s))
  }

  function Finished(current: string): seq<string> {
    if current == "" then [] else [current]
  }

  /** The words of `current + s`, where `current` is the word being read. */
  function Split(current: string, s: string): seq<string>
    decreases |s|
  {
    if s == "" then
      Finished(current)
    else if IsWhitespace(s[0]) then
      Finished(current) + Split("", s[1..])
    else
      Split(current + [s[0]], s[1..])
  }

  /** The whitespace-separated words of a text. */
  function Words(s: string): seq<string> {
    Split("", s)
  }

  /** The words of several texts, one text after the other. */
  function AllWords(texts: seq<string>): seq<string> {
    if texts == [] then [] else Words(texts[0]) + AllWords(texts[1..])
  }

  function Join(parts: seq<string>): string {
    if parts == [] then "" else if |parts| == 1 then parts[0] else parts[0] + " " + Join(parts[1..])
  }

  function TrimmedNonEmpty(texts: seq<string>): seq<string> {
    if texts == [] then []
    else
      var t := Trim(texts[0]);
      (if t == "" then [] else [t]) + TrimmedNonEmpty(texts[1..])
  }

  /** Trim every text, drop the empty ones and join the rest with single spaces. */
  function JoinTrimmed(texts: seq<string>): string {
    Join(TrimmedNonEmpty(texts))
  }

  /** A whitespace character separates words whatever surrounds it. */
  lemma {:induction false} SplitAtSpace(current: string, a: string, sp: char, b: string)
    requires IsWhitespace(sp)
    ensures Split(current, a + [sp] + b) == Split(current, a) + Words(b)
    decreases |a|
  {
    var whole := a + [sp] + b;
    if a == "" {
      assert whole[1..] == b;
    } else {
      assert whole[1..] == a[1..] + [sp] + b;
      if IsWhitespace(a[0]) {
        SplitAtSpace("", a[1..], sp, b);
      } else {
        SplitAtSpace(current + [a[0]], a[1..], sp, b);
      }
    }
  }

  lemma {:induction false} WordsOfTrimStart(s: string)
    ensures Words(TrimStart(s)) == Words(s)
  {
    if s != "" && IsWhitespace(s[0]) {
      WordsOfTrimStart(s[1..]);
      assert Words(s) == [] + Words(s[1..]);
    }
  }

  lemma {:induction false} WordsOfTrimEnd(s: string)
    ensures Words(TrimEnd(s)) == Words(s)
  {
    if s != "" && IsWhitespace(Last(s)) {
      var init := Init(s);
      WordsOfTrimEnd(init);
      SplitAtSpace("", init, Last(s), "");
      assert s == init + [Last(s)] + "";
    }
  }

  /** Trimming changes no word. */
  lemma {:induction false} WordsOfTrim(s: string)
    ensures Words(Trim(s)) == Words(s)
  {
    WordsOfTrimStart(s);
    WordsOfTrimEnd(TrimStart(s));
  }

  lemma {:induction false} WordsOfJoin(parts: seq<string>)
    ensures Words(Join(parts)) == AllWords(parts)
  {
    if |parts| >= 2 {
      WordsOfJoin(parts[1..]);
      SplitAtSpace("", parts[0], ' ', Join(parts[1..]));
    } else if |parts| == 1 {
      assert AllWords(parts[1..]) == [];
    }
  }

  lemma {:induction false} AllWordsOfTrimmedNonEmpty(texts: seq<string>)
    ensures AllWords(TrimmedNonEmpty(texts)) == AllWords(texts)
  {
    if texts != [] {
      var t := Trim(texts[0]);
      var rest := TrimmedNonEmpty(texts[1..]);
      AllWordsOfTrimmedNonEmpty(texts[1..]);
      WordsOfTrim(texts[0]);
      if t == "" {
        assert [] + rest == rest;
      } else {
        assert ([t] + rest)[1..] == rest;
      }
    }
  }

  /** Joining neither loses, invents nor reorders a word. */
  lemma {:induction false} WordsOfJoinTrimmed(texts: seq<string>)
    ensures Words(JoinTrimmed(texts)) == AllWords(texts)
  {
    WordsOfJoin(TrimmedNonEmpty(texts));
    AllWordsOfTrimmedNonEmpty(texts);
  }

  lemma {:induction false} AllWordsOfAppend(a: seq<string>, b: seq<string>)
    ensures AllWords(a + b) == AllWords(a) + AllWords(b)
  {
    if a == [] {
      assert a + b == b;
    } else {
      assert (a + b)[1..] == a[1..] + b;
      AllWordsOfAppend(a[1..], b);
    }
  }

  // ----- What trimming and joining leave -----

  predicate Blank(s: string) {
    forall c :: c in s ==> IsWhitespace(c)
  }

  /** `trimmed` is `s` without the whitespace around it. */
  ghost predicate IsTrimmed(s: string, trimmed: string) {
    && (trimmed != "" ==> !IsWhitespace(trimmed[0]) && !IsWhitespace(Last(trimmed)))
    && exists a, b :: Blank(a) && Blank(b) && s == a + trimmed + b
  }

  lemma {:induction false} TrimStartDrops(s: string) returns (a: string)
    ensures Blank(a) && s == a + TrimStart(s)
    ensures TrimStart(s) != "" ==> !IsWhitespace(TrimStart(s)[0]) && Last(TrimStart(s)) == Last(s)
  {
    if s != "" && IsWhitespace(s[0]) {
      var rest := TrimStartDrops(s[1..]);
      a := [s[0]] + rest;
    } else {
      a := "";
    }
  }

  lemma {:induction false} TrimEndDrops(s: string) returns (b: string)
    ensures Blank(b) && s == TrimEnd(s) + b
    ensures TrimEnd(s) != "" ==> !IsWhitespace(Last(TrimEnd(s))) && TrimEnd(s)[0] == s[0]
  {
    if s != "" && IsWhitespace(Last(s)) {
      var rest := TrimEndDrops(Init(s));
      b := rest + [Last(s)];
    } else {
      b := "";
    }
  }

  /** Trimming drops the whitespace around a text and nothing else. */
  lemma TrimIsExact(s: string)
    ensures IsTrimmed(s, Trim(s))
  {
    var a := TrimStartDrops(s);
    var b := TrimEndDrops(TrimStart(s));
    assert s == a + Trim(s) + b;
  }

  /** Between two joined texts stands one space. */
  lemma {:induction false} JoinIsSpaced(parts: seq<string>, more: string)
    ensures Join(parts + [more]) == if parts == [] then more else Join(parts) + " " + more
  {
    if |parts| <= 1 {
      assert |parts| == 1 ==> (parts + [more])[1..] == [more];
      assert parts == [] ==> parts + [more] == [more];
    } else {
      assert (parts + [more])[1..] == parts[1..] + [more];
      JoinIsSpaced(parts[1..], more);
      assert parts[0] + " " + (Join(parts[1..]) + " " + more) == (parts[0] + " " + Join(parts[1..])) + " " + more;
    }
  }

  /** What is joined are the trimmed texts, without the blank ones. */
  lemma {:induction false} OnlyBlanksAreDropped(texts: seq<string>, more: string)
    ensures TrimmedNonEmpty(texts + [more]) == TrimmedNonEmpty(texts) + if Trim(more) == "" then [] else [Trim(more)]
  {
    if texts == [] {
      assert texts + [more] == [more] && [more][1..] == [];
    } else {
      assert (texts + [more])[1..] == texts[1..] + [more];
      OnlyBlanksAreDropped(texts[1..], more);
    }
  }
}
