/** The table of hallucinated sign-offs (src/transcription/postprocess.rs). */
module SignOffTable {
  import opened Hallucinations

  const ENGLISH := [
    "thank you for watching", "thanks for watching", "please subscribe", "like and subscribe",
    "see you in the next video", "see you next time", "don't forget to subscribe", "subtitles by",
    "amara.org"
  ]
  const GREEK_THANKS := [
    "ευχαριστώ που παρακολουθήσατε", "ευχαριστούμε που παρακολουθήσατε",
    "σας ευχαριστώ για την παρακολούθηση", "σας ευχαριστούμε πολύ", "σας ευχαριστούμε",
    "ευχαριστούμε πολύ", "σας ευχαριστώ πολύ", "σας ευχαριστώ"
  ]
  const GREEK_OTHERS := [
    "ευχαριστώ πολύ", "ευχαριστούμε", "καλή συνέχεια", "υπότιτλοι authorwave", "υπότιτλοι από",
    "απόδοση διαλόγων", "επιμέλεια υποτίτλων", "υπότιτλοι"
  ]
  const GERMAN := [
    "danke fürs zuschauen", "untertitel von", "untertitel der"
  ]
  const FRENCH := [
    "merci d'avoir regardé", "sous-titres par", "sous-titres de"
  ]
  const SPANISH := [
    "gracias por ver", "subtítulos por", "subtítulos de"
  ]
  const ITALIAN := [
    "grazie per aver guardato", "sottotitoli di", "sottotitoli da"
  ]
  const PORTUGUESE := [
    "obrigado por assistir", "legendas por", "legendas de"
  ]
  const RUSSIAN := [
    "спасибо за просмотр", "субтитры от", "субтитры сделаны"
  ]
  const CHINESE := [
    "感谢观看", "谢谢观看", "字幕由"
  ]
  const NOISE_MARKERS := [
    "[music]", "[applause]", "[laughter]"
  ]

  /** The phrases in declaration order. */
  const PHRASES: seq<string> :=
    ENGLISH + GREEK_THANKS + GREEK_OTHERS + GERMAN + FRENCH + SPANISH + ITALIAN +
    PORTUGUESE + RUSSIAN + CHINESE + NOISE_MARKERS

  /** Every phrase of a list is a sign-off; decided phrase by phrase on each part of the table. */
  predicate AllSignOffs(phrases: seq<string>) {
    phrases == [] || (IsSignOff(phrases[0]) && AllSignOffs(phrases[1..]))
  }

  lemma {:induction false} EachIsSignOff(phrases: seq<string>)
    requires AllSignOffs(phrases)
    ensures forall q :: q in phrases ==> IsSignOff(q)
  {
    if phrases != [] {
      EachIsSignOff(phrases[1..]);
    }
  }

  lemma English()
    ensures AllSignOffs(ENGLISH)
  {
  }

  lemma GreekThanks()
    ensures AllSignOffs(GREEK_THANKS)
  {
  }

  lemma GreekOthers()
    ensures AllSignOffs(GREEK_OTHERS)
  {
  }

  lemma German()
    ensures AllSignOffs(GERMAN)
  {
  }

  lemma Romance()
    ensures AllSignOffs(FRENCH) && AllSignOffs(SPANISH)
    ensures AllSignOffs(ITALIAN) && AllSignOffs(PORTUGUESE)
  {
  }

  lemma Others()
    ensures AllSignOffs(RUSSIAN) && AllSignOffs(CHINESE) && AllSignOffs(NOISE_MARKERS)
  {
  }

  lemma TableHasSignOffs()
    ensures forall q :: q in PHRASES ==> IsSignOff(q)
  {
    English();
    GreekThanks();
    GreekOthers();
    German();
    Romance();
    Others();
    EachIsSignOff(ENGLISH);
    EachIsSignOff(GREEK_THANKS);
    EachIsSignOff(GREEK_OTHERS);
    EachIsSignOff(GERMAN);
    EachIsSignOff(FRENCH);
    EachIsSignOff(SPANISH);
    EachIsSignOff(ITALIAN);
    EachIsSignOff(PORTUGUESE);
    EachIsSignOff(RUSSIAN);
    EachIsSignOff(CHINESE);
    EachIsSignOff(NOISE_MARKERS);
  }

  /** With the table as declared, nothing of a phrase that ends the text survives, whichever shorter phrases it
      contains. */
  lemma TableLeavesNoOrphan(text: string, lower: char -> string, kept: string, phrase: string, k: nat)
    requires Lowers(lower) && StripsAll(text, ByLength(PHRASES), lower, kept)
    requires phrase in PHRASES && EndsWith(text, phrase, lower, k)
    ensures kept <= text[..k]
  {
    ByLengthIsLongestFirst(PHRASES);
    TableHasSignOffs();
    forall q | q in ByLength(PHRASES)
      ensures IsSignOff(q)
    {
      assert q in multiset(ByLength(PHRASES));
    }
    assert phrase in multiset(PHRASES);
    NoPhraseIsLeftBehind(text, ByLength(PHRASES), lower, kept, phrase, k);
  }
}
