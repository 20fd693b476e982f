/** What dictation leaves in the history: however often takes are retried and in whatever order their decodes finish,
    one entry per take, as last finished (src/application.rs:910-931, src/ui/history_page.rs:688-694). */
module TakeHistory {
  import opened Sequences
  import Text
  import opened Chunking
  import opened Recording
  import opened Dictation
  import History

  /** The textual id of a take; no two takes share one. */
  ghost predicate Injective(name: nat -> string) {
    forall a, b :: a != b ==> name(a) != name(b)
  }

  /** Only a result with nothing to show is not recorded. */
  predicate IsRecorded(f: Finished) {
    if f.stale then f.outcome.cleanedText != ""
    else f.outcome.cleanedText != "" || Text.Trim(f.outcome.rawText) != ""
  }

  function EntryOf(f: Finished, name: nat -> string): History.Entry {
    History.Entry(name(f.outcome.id), f.outcome.cleanedText)
  }

  /** The entries handed to the history, in order. */
  function EntriesOf(finished: seq<Finished>, name: nat -> string): seq<History.Entry>
    decreases |finished|
  {
    if finished == [] then []
    else
      EntriesOf(Init(finished), name) + if IsRecorded(Last(finished)) then [EntryOf(Last(finished), name)] else []
  }

  ghost predicate CarryTheirTake(finished: seq<Finished>) {
    forall i :: 0 <= i < |finished| ==> finished[i].outcome.id == finished[i].take.id
  }

  /** Nothing of the same take was recorded after number `i`. */
  ghost predicate IsLastOfTake(finished: seq<Finished>, i: nat)
    requires i < |finished|
  {
    && IsRecorded(finished[i])
    && forall k :: i < k < |finished| && IsRecorded(finished[k]) ==> finished[k].take.id != finished[i].take.id
  }

  lemma {:induction false} LastOfTakeWins(finished: seq<Finished>, name: nat -> string, i: nat)
    requires Injective(name) && CarryTheirTake(finished)
    requires i < |finished| && IsLastOfTake(finished, i)
    ensures
      var contents := History.Contents(EntriesOf(finished, name));
      name(finished[i].take.id) in contents && contents[name(finished[i].take.id)] == EntryOf(finished[i], name)
    decreases |finished|
  {
    var last, before := Last(finished), EntriesOf(Init(finished), name);
    if IsRecorded(last) {
      assert Init(before + [EntryOf(last, name)]) == before;
    } else {
      assert before + [] == before;
    }
    if i < |finished| - 1 {
      assert forall k :: 0 <= k < |finished| - 1 ==> Init(finished)[k] == finished[k];
      LastOfTakeWins(Init(finished), name, i);
    }
  }

  lemma {:induction false} OnlyTakesAreRecorded(finished: seq<Finished>, name: nat -> string, id: string)
    requires CarryTheirTake(finished) && id in History.Contents(EntriesOf(finished, name))
    ensures exists i :: 0 <= i < |finished| && id == name(finished[i].take.id)
    decreases |finished|
  {
    var last, before := Last(finished), EntriesOf(Init(finished), name);
    if IsRecorded(last) {
      assert Init(before + [EntryOf(last, name)]) == before;
    } else {
      assert before + [] == before;
    }
    if !IsRecorded(last) || id != name(last.take.id) {
      OnlyTakesAreRecorded(Init(finished), name, id);
      var i :| 0 <= i < |finished| - 1 && id == name(Init(finished)[i].take.id);
      assert Init(finished)[i] == finished[i];
    } else {
      assert id == name(finished[|finished| - 1].take.id);
    }
  }

  /** After any run, upserting everything finished leaves one entry per recorded take, as it was last finished, and
      touches no other entry of the history. */
  lemma OneEntryPerTake(rms: Measure, polish: Polish, events: seq<Event>, history: seq<History.Entry>,
      name: nat -> string)
    requires History.UniqueIds(history) && Injective(name)
    ensures
      var finished := Run(rms, polish, Fresh, events).finished;
      var after := History.AllUpserted(history, EntriesOf(finished, name));
      && History.UniqueIds(after)
      && (forall i :: 0 <= i < |finished| && IsLastOfTake(finished, i) ==>
            && name(finished[i].take.id) in History.Contents(after)
            && History.Contents(after)[name(finished[i].take.id)] == EntryOf(finished[i], name))
      && (forall id :: (forall i :: 0 <= i < |finished| ==> id != name(finished[i].take.id)) ==>
            (id in History.Contents(after) <==> id in History.Contents(history))
            && (id in History.Contents(history) ==> History.Contents(after)[id] == History.Contents(history)[id]))
  {
    var finished := Run(rms, polish, Fresh, events).finished;
    var news := EntriesOf(finished, name);
    AudioIsConserved(rms, polish, events);
    History.UpsertingAll(history, news);
    forall i | 0 <= i < |finished| && IsLastOfTake(finished, i)
      ensures name(finished[i].take.id) in History.Contents(news)
      ensures History.Contents(news)[name(finished[i].take.id)] == EntryOf(finished[i], name)
    {
      LastOfTakeWins(finished, name, i);
    }
    forall id | id in History.Contents(news)
      ensures exists i :: 0 <= i < |finished| && id == name(finished[i].take.id)
    {
      OnlyTakesAreRecorded(finished, name, id);
    }
  }

  /** A finished take whose text is not empty, and after which nothing of the take finished, is in the history with that
      text; so is a current one whose raw text is not blank. */
  lemma FinishedTextIsInHistory(rms: Measure, polish: Polish, events: seq<Event>, history: seq<History.Entry>,
      name: nat -> string, i: nat)
    requires History.UniqueIds(history) && Injective(name)
    requires i < |Run(rms, polish, Fresh, events).finished|
    requires
      var finished := Run(rms, polish, Fresh, events).finished;
      && (finished[i].outcome.cleanedText != "" || (!finished[i].stale && Text.Words(finished[i].outcome.rawText) != []))
      && forall k :: i < k < |finished| ==> finished[k].take.id != finished[i].take.id
    ensures
      var f := Run(rms, polish, Fresh, events).finished[i];
      var after := History.AllUpserted(history, EntriesOf(Run(rms, polish, Fresh, events).finished, name));
      && name(f.take.id) in History.Contents(after)
      && History.Contents(after)[name(f.take.id)] == History.Entry(name(f.take.id), f.outcome.cleanedText)
  {
    var finished := Run(rms, polish, Fresh, events).finished;
    OneEntryPerTake(rms, polish, events, history, name);
    AudioIsConserved(rms, polish, events);
    Text.WordsOfTrim(finished[i].outcome.rawText);
    assert IsLastOfTake(finished, i);
  }
}
