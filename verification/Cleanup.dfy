/** Transcript cleanup (src/transcription/postprocess.rs): one pass over the characters equals capitalising the words
    and joining them with single spaces, and a second pass changes nothing. */
module Cleanup {
  import opened Sequences
  import Text

  /** The character properties the pass asks for. */
  datatype Letters = Letters(alphabetic: char -> bool, upper: char -> string)

  predicate EndsSentence(c: char) {
    c == '.' || c == '!' || c == '?'
  }

  /** Uppercasing is stable: it yields visible text in which nothing is left to capitalise. */
  ghost predicate Stable(letters: Letters) {
    && (forall c :: EndsSentence(c) || Text.IsWhitespace(c) ==> !letters.alphabetic(c))
    && (forall c :: letters.alphabetic(c) ==> letters.upper(c) != "")
    && (forall c, u :: letters.alphabetic(c) && u in letters.upper(c) ==> !EndsSentence(u) && !Text.IsWhitespace(u))
    && (forall c :: letters.alphabetic(c) && letters.upper(c) != "" && letters.alphabetic(letters.upper(c)[0]) ==>
          letters.upper(letters.upper(c)[0]) == [letters.upper(c)[0]])
  }

  // ----- The pass -----

  /** What one visible character becomes after `last`. */
  function Shown(letters: Letters, last: char, c: char): string {
    if EndsSentence(last) && letters.alphabetic(c) then letters.upper(c) else [c]
  }

  /** The rest of the pass: `last` is the last visible character read, `spaced` says a space was just written. */
  function Rest(letters: Letters, s: string, last: char, spaced: bool, result: string): string
    decreases |s|
  {
    if s == "" then result
    else if Text.IsWhitespace(s[0]) then
      if !spaced && result != "" then Rest(letters, s[1..], last, true, result + " ")
      else Rest(letters, s[1..], last, spaced, result)
    else
      Rest(letters, s[1..], s[0], false, result + Shown(letters, last, s[0]))
  }

  function Cleaned(letters: Letters, text: string): string {
    Rest(letters, Text.Trim(text), '.', false, "")
  }

  method CleanupTranscript(letters: Letters, text: string) returns (result: string)
    ensures result == Cleaned(letters, text)
  {
    result := "";
    if text == "" {
      return;
    }
    var lastChar := '.';
    var lastWasSpace := false;
    var trimmed := Text.Trim(text);
    assert trimmed[0..] == trimmed;
    for i := 0 to |trimmed|
      invariant Rest(letters, trimmed[i..], lastChar, lastWasSpace, result) == Cleaned(letters, text)
    {
      var ch := trimmed[i];
      assert trimmed[i..][1..] == trimmed[i + 1..];
      if Text.IsWhitespace(ch) {
        if !lastWasSpace && result != "" {
          result := result + " ";
          lastWasSpace := true;
        }
        continue;
      }
      lastWasSpace := false;
      if EndsSentence(lastChar) && letters.alphabetic(ch) {
        result := result + letters.upper(ch);
        lastChar := ch;
        continue;
      }
      result := result + [ch];
      lastChar := ch;
    }
  }

  // ----- What it computes -----

  function LastOf(s: string, otherwise: char): char {
    if s == "" then otherwise else Last(s)
  }

  /** A word, capitalised wherever a letter follows a sentence end, `last` being the character before the word. */
  function Capitalised(letters: Letters, word: string, last: char): string {
    if word == "" then ""
    else Capitalised(letters, Init(word), last) + Shown(letters, LastOf(Init(word), last), Last(word))
  }

  function AllCapitalised(letters: Letters, words: seq<string>, last: char): seq<string> {
    if words == [] then []
    else [Capitalised(letters, words[0], last)] + AllCapitalised(letters, words[1..], LastOf(words[0], last))
  }

  /** A text with nothing to trim at its end. */
  predicate EndsVisibly(s: string) {
    s == "" || !Text.IsWhitespace(Last(s))
  }

  lemma {:induction false} VisibleTextHasWords(current: string, s: string)
    requires EndsVisibly(s) && (current != "" || s != "")
    ensures Text.Split(current, s) != []
    decreases |s|
  {
    if s != "" {
      assert |s| > 1 ==> Last(s[1..]) == Last(s);
      if Text.IsWhitespace(s[0]) {
        VisibleTextHasWords("", s[1..]);
      } else {
        VisibleTextHasWords(current + [s[0]], s[1..]);
      }
    }
  }

  lemma {:induction false} CapitalisedIsVisible(letters: Letters, word: string, last: char)
    requires Stable(letters) && word != ""
    ensures Capitalised(letters, word, last) != ""
  {
  }

  lemma OneWordMore(letters: Letters, word: string, words: seq<string>, last: char)
    requires words != []
    ensures Text.Join(AllCapitalised(letters, [word] + words, last))
         == Capitalised(letters, word, last) + " " + Text.Join(AllCapitalised(letters, words, LastOf(word, last)))
  {
    assert ([word] + words)[1..] == words;
    var rest := AllCapitalised(letters, words, LastOf(word, last));
    assert ([Capitalised(letters, word, last)] + rest)[1..] == rest;
  }

  lemma TailEndsVisibly(s: string)
    requires s != "" && EndsVisibly(s)
    ensures EndsVisibly(s[1..])
    ensures Text.IsWhitespace(s[0]) ==> s[1..] != ""
  {
    assert |s| > 1 ==> Last(s[1..]) == Last(s);
  }

  /** What the pass does in the middle of word `current`, having written `before` ahead of it. */
  function Resume(letters: Letters, s: string, before: string, current: string, last: char): string {
    Rest(letters, s, LastOf(current, last), current == "" && before != "",
         before + Capitalised(letters, current, last))
  }

  /** The words still to come, capitalised and joined. */
  function Coming(letters: Letters, s: string, current: string, last: char): string {
    Text.Join(AllCapitalised(letters, Text.Split(current, s), last))
  }

  lemma WordGoesOn(letters: Letters, s: string, before: string, current: string, last: char)
    requires s != "" && !Text.IsWhitespace(s[0])
    ensures Resume(letters, s, before, current, last) == Resume(letters, s[1..], before, current + [s[0]], last)
    ensures Coming(letters, s, current, last) == Coming(letters, s[1..], current + [s[0]], last)
  {
    var longer := current + [s[0]];
    assert Init(longer) == current && Last(longer) == s[0];
    assert before + Capitalised(letters, longer, last)
        == before + Capitalised(letters, current, last) + Shown(letters, LastOf(current, last), s[0]);
  }

  lemma WordEnds(letters: Letters, s: string, before: string, current: string, last: char)
    requires Stable(letters) && s != "" && Text.IsWhitespace(s[0]) && EndsVisibly(s) && current != ""
    ensures Resume(letters, s, before, current, last)
         == Resume(letters, s[1..], before + Capitalised(letters, current, last) + " ", "", Last(current))
    ensures Coming(letters, s, current, last)
         == Capitalised(letters, current, last) + " " + Coming(letters, s[1..], "", Last(current))
  {
    CapitalisedIsVisible(letters, current, last);
    TailEndsVisibly(s);
    VisibleTextHasWords("", s[1..]);
    OneWordMore(letters, current, Text.Split("", s[1..]), last);
    var next := before + Capitalised(letters, current, last) + " ";
    assert next + Capitalised(letters, "", Last(current)) == next;
  }

  lemma SpaceIsSkipped(letters: Letters, s: string, before: string, last: char)
    requires s != "" && Text.IsWhitespace(s[0])
    ensures Resume(letters, s, before, "", last) == Resume(letters, s[1..], before, "", last)
    ensures Coming(letters, s, "", last) == Coming(letters, s[1..], "", last)
  {
    assert [] + Text.Split("", s[1..]) == Text.Split("", s[1..]);
  }

  /** The rest of the pass writes the remaining words, capitalised and joined. */
  lemma {:induction false} RestWritesWords(letters: Letters, s: string, before: string, current: string, last: char)
    requires Stable(letters) && EndsVisibly(s) && (current == "" ==> s != "")
    ensures Resume(letters, s, before, current, last) == before + Coming(letters, s, current, last)
    decreases |s|
  {
    if s == "" {
      assert AllCapitalised(letters, [current], last) == [Capitalised(letters, current, last)];
    } else {
      TailEndsVisibly(s);
      if !Text.IsWhitespace(s[0]) {
        WordGoesOn(letters, s, before, current, last);
        RestWritesWords(letters, s[1..], before, current + [s[0]], last);
      } else if current == "" {
        SpaceIsSkipped(letters, s, before, last);
        RestWritesWords(letters, s[1..], before, "", last);
      } else {
        var next := before + Capitalised(letters, current, last) + " ";
        WordEnds(letters, s, before, current, last);
        RestWritesWords(letters, s[1..], next, "", Last(current));
      }
    }
  }

  lemma {:induction false} TrimEndEndsVisibly(s: string)
    ensures EndsVisibly(Text.TrimEnd(s))
  {
    if s != "" && Text.IsWhitespace(Last(s)) {
      TrimEndEndsVisibly(Init(s));
    }
  }

  /** Cleanup is the text's words, each capitalised where it starts a sentence, joined by single spaces. */
  lemma CleanedIsItsWords(letters: Letters, text: string)
    requires Stable(letters)
    ensures Cleaned(letters, text) == Text.Join(AllCapitalised(letters, Text.Words(text), '.'))
  {
    var trimmed := Text.Trim(text);
    Text.WordsOfTrim(text);
    TrimEndEndsVisibly(Text.TrimStart(text));
    if trimmed != "" {
      RestWritesWords(letters, trimmed, "", "", '.');
      assert "" + Capitalised(letters, "", '.') == "";
      assert "" + Coming(letters, trimmed, "", '.') == Coming(letters, trimmed, "", '.');
    }
  }

  // ----- A second pass changes nothing -----

  /** A whitespace-free text that is not empty. */
  predicate IsWord(s: string) {
    s != "" && forall c :: c in s ==> !Text.IsWhitespace(c)
  }

  lemma {:induction false} SplitMakesWords(current: string, s: string)
    requires current == "" || IsWord(current)
    ensures forall w :: w in Text.Split(current, s) ==> IsWord(w)
    decreases |s|
  {
    if s != "" {
      if Text.IsWhitespace(s[0]) {
        SplitMakesWords("", s[1..]);
      } else {
        SplitMakesWords(current + [s[0]], s[1..]);
      }
    }
  }

  lemma {:induction false} SplitOfWord(current: string, s: string)
    requires (current != "" || s != "") && forall c :: c in s ==> !Text.IsWhitespace(c)
    ensures Text.Split(current, s) == [current + s]
    decreases |s|
  {
    if s == "" {
      assert current + s == current;
    } else {
      assert (current + [s[0]]) + s[1..] == current + s;
      SplitOfWord(current + [s[0]], s[1..]);
    }
  }

  lemma {:induction false} AllWordsOfWords(words: seq<string>)
    requires forall w :: w in words ==> IsWord(w)
    ensures Text.AllWords(words) == words
  {
    if words != [] {
      assert words[0] in words;
      SplitOfWord("", words[0]);
      assert "" + words[0] == words[0];
      AllWordsOfWords(words[1..]);
    }
  }

  lemma {:induction false} CapitalisedIsWord(letters: Letters, word: string, last: char)
    requires Stable(letters) && IsWord(word)
    ensures IsWord(Capitalised(letters, word, last))
  {
    if |word| > 1 {
      CapitalisedIsWord(letters, Init(word), last);
    }
    var shown := Shown(letters, LastOf(Init(word), last), Last(word));
    assert Last(word) in word;
    assert forall c :: c in shown ==> !Text.IsWhitespace(c);
    assert shown != "";
  }

  lemma {:induction false} AllCapitalisedAreWords(letters: Letters, words: seq<string>, last: char)
    requires Stable(letters) && forall w :: w in words ==> IsWord(w)
    ensures forall w :: w in AllCapitalised(letters, words, last) ==> IsWord(w)
  {
    if words != [] {
      CapitalisedIsWord(letters, words[0], last);
      AllCapitalisedAreWords(letters, words[1..], LastOf(words[0], last));
    }
  }

  lemma {:induction false} CapitalisedAppend(letters: Letters, a: string, b: string, last: char)
    ensures Capitalised(letters, a + b, last)
         == Capitalised(letters, a, last) + Capitalised(letters, b, LastOf(a, last))
  {
    if b == "" {
      assert a + b == a;
    } else {
      assert Init(a + b) == a + Init(b) && Last(a + b) == Last(b);
      CapitalisedAppend(letters, a, Init(b), last);
      assert LastOf(a + Init(b), last) == LastOf(Init(b), LastOf(a, last));
    }
  }

  /** A text in which only the first character could be capitalised, and is already. */
  ghost predicate Settled(letters: Letters, u: string) {
    && (forall c :: c in u ==> !EndsSentence(c))
    && (u != "" && letters.alphabetic(u[0]) ==> letters.upper(u[0]) == [u[0]])
  }

  lemma {:induction false} SettledStays(letters: Letters, u: string, last: char)
    requires Settled(letters, u)
    ensures Capitalised(letters, u, last) == u
  {
    if u != "" {
      SettledStays(letters, Init(u), last);
      assert u == Init(u) + [Last(u)];
      assert |u| > 1 ==> Last(Init(u)) in u;
    }
  }

  /** Capitalising a capitalised word changes nothing, and it ends a sentence exactly when the word did. */
  lemma {:induction false} CapitalisedStays(letters: Letters, word: string, last: char, again: char)
    requires Stable(letters) && EndsSentence(last) == EndsSentence(again)
    ensures Capitalised(letters, Capitalised(letters, word, last), again) == Capitalised(letters, word, last)
    ensures EndsSentence(LastOf(Capitalised(letters, word, last), again)) == EndsSentence(LastOf(word, last))
  {
    if word != "" {
      var c, before := Last(word), LastOf(Init(word), last);
      var done, shown := Capitalised(letters, Init(word), last), Shown(letters, before, c);
      CapitalisedStays(letters, Init(word), last, again);
      CapitalisedAppend(letters, done, shown, again);
      ShownStays(letters, before, LastOf(done, again), c);
      assert Last(done + shown) == Last(shown);
    }
  }

  lemma OneShownStays(letters: Letters, again: char, c: char)
    requires !EndsSentence(again) || !letters.alphabetic(c)
    ensures Capitalised(letters, [c], again) == [c]
  {
    assert Init([c]) == "" && Last([c]) == c;
    assert Capitalised(letters, "", again) + [c] == [c];
  }

  lemma ShownStays(letters: Letters, last: char, again: char, c: char)
    requires Stable(letters) && EndsSentence(last) == EndsSentence(again)
    ensures Shown(letters, last, c) != ""
    ensures Capitalised(letters, Shown(letters, last, c), again) == Shown(letters, last, c)
    ensures EndsSentence(Last(Shown(letters, last, c))) == EndsSentence(c)
  {
    var shown := Shown(letters, last, c);
    if EndsSentence(last) && letters.alphabetic(c) {
      assert Settled(letters, shown);
      SettledStays(letters, shown, again);
      assert Last(shown) in shown;
    } else {
      OneShownStays(letters, again, c);
    }
  }

  lemma {:induction false} AllCapitalisedStay(letters: Letters, words: seq<string>, last: char, again: char)
    requires Stable(letters) && EndsSentence(last) == EndsSentence(again)
    ensures AllCapitalised(letters, AllCapitalised(letters, words, last), again)
         == AllCapitalised(letters, words, last)
  {
    if words != [] {
      var first := Capitalised(letters, words[0], last);
      CapitalisedStays(letters, words[0], last, again);
      AllCapitalisedStay(letters, words[1..], LastOf(words[0], last), LastOf(first, again));
      var rest := AllCapitalised(letters, words[1..], LastOf(words[0], last));
      assert ([first] + rest)[1..] == rest;
    }
  }

  /** Cleaning a cleaned transcript changes nothing. */
  lemma CleaningTwiceIsCleaningOnce(letters: Letters, text: string)
    requires Stable(letters)
    ensures Cleaned(letters, Cleaned(letters, text)) == Cleaned(letters, text)
  {
    var words := AllCapitalised(letters, Text.Words(text), '.');
    CleanedIsItsWords(letters, text);
    CleanedIsItsWords(letters, Cleaned(letters, text));
    SplitMakesWords("", text);
    AllCapitalisedAreWords(letters, Text.Words(text), '.');
    Text.WordsOfJoin(words);
    AllWordsOfWords(words);
    AllCapitalisedStay(letters, Text.Words(text), '.', '.');
  }

  // ----- Which letters are capitals -----

  /** The character before position `j` of a word, `last` being the one before the word. */
  function CharBefore(word: string, j: nat, last: char): char
    requires j <= |word|
  {
    if j == 0 then last else word[j - 1]
  }

  /** A letter after a full stop, an exclamation or a question mark is written as its capital; every other character is
      written as it is. */
  lemma CapitalsAreExact(letters: Letters, word: string, last: char, j: nat)
    requires j < |word|
    ensures
      var before := CharBefore(word, j, last);
      Capitalised(letters, word[..j + 1], last)
        == Capitalised(letters, word[..j], last)
           + if letters.alphabetic(word[j]) && (before == '.' || before == '!' || before == '?') then letters.upper(word[j])
             else [word[j]]
  {
    assert Init(word[..j + 1]) == word[..j] && Last(word[..j + 1]) == word[j];
  }

  /** The character before the `i`th word. */
  function BeforeWord(words: seq<string>, i: nat, last: char): char
    requires i <= |words|
  {
    if i == 0 then last else LastOf(words[i - 1], last)
  }

  /** The words of a text are judged one after the other, each after the last character of the one before. */
  lemma {:induction false} WordsFollow(letters: Letters, words: seq<string>, last: char, i: nat)
    requires i < |words| && forall w :: w in words ==> w != ""
    ensures |AllCapitalised(letters, words, last)| == |words|
    ensures AllCapitalised(letters, words, last)[i] == Capitalised(letters, words[i], BeforeWord(words, i, last))
  {
    var rest := words[1..];
    assert words[0] in words && words[0] != "";
    assert forall w :: w in rest ==> w in words;
    if rest != [] {
      var k := if i > 0 then i - 1 else 0;
      WordsFollow(letters, rest, Last(words[0]), k);
      if i > 1 {
        assert rest[k - 1] == words[i - 1] && rest[k - 1] in rest;
      }
    }
  }
}
