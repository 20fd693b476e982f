/** The history list (src/ui/history_page.rs): one entry per id, merging what was loaded with what is in memory. */
module History {
  import opened Sequences

  datatype Entry = Entry(id: string, text: string)

  ghost predicate UniqueIds(entries: seq<Entry>) {
    forall i, j :: 0 <= i < j < |entries| ==> entries[i].id != entries[j].id
  }

  // ----- Replace or append -----

  /** The first entry with the id, or the length if there is none. */
  function Find(entries: seq<Entry>, id: string): (i: nat)
    ensures i <= |entries|
    ensures i < |entries| ==> entries[i].id == id
    ensures forall j :: 0 <= j < i ==> entries[j].id != id
  {
    if entries == [] then 0
    else if entries[0].id == id then 0
    else 1 + Find(entries[1..], id)
  }

  function Upserted(entries: seq<Entry>, entry: Entry): seq<Entry> {
    var i := Find(entries, entry.id);
    if i < |entries| then entries[i := entry] else entries + [entry]
  }

  function AllUpserted(entries: seq<Entry>, news: seq<Entry>): seq<Entry> {
    if news == [] then entries else Upserted(AllUpserted(entries, Init(news)), Last(news))
  }

  // ----- What a list holds -----

  /** The list as a map from ids to entries. */
  function Contents(entries: seq<Entry>): map<string, Entry> {
    if entries == [] then map[] else Contents(Init(entries))[Last(entries).id := Last(entries)]
  }

  lemma {:induction false} ContentsAt(entries: seq<Entry>, i: nat)
    requires UniqueIds(entries) && i < |entries|
    ensures entries[i].id in Contents(entries) && Contents(entries)[entries[i].id] == entries[i]
  {
    if i < |entries| - 1 {
      ContentsAt(Init(entries), i);
    }
  }

  lemma {:induction false} ContentsHaveEntries(entries: seq<Entry>, id: string)
    requires id in Contents(entries)
    ensures Find(entries, id) < |entries|
  {
    if id != Last(entries).id {
      ContentsHaveEntries(Init(entries), id);
    }
    assert exists j :: 0 <= j < |entries| && entries[j].id == id by {
      if id == Last(entries).id {
        assert entries[|entries| - 1].id == id;
      } else {
        var j := Find(Init(entries), id);
        assert entries[j].id == id;
      }
    }
  }

  lemma UpsertKeepsIdsUnique(entries: seq<Entry>, entry: Entry)
    requires UniqueIds(entries)
    ensures UniqueIds(Upserted(entries, entry))
  {
  }

  /** Upserting sets one id and touches no other. */
  lemma {:induction false} UpsertSetsOne(entries: seq<Entry>, entry: Entry)
    requires UniqueIds(entries)
    ensures Contents(Upserted(entries, entry)) == Contents(entries)[entry.id := entry]
  {
    var i := Find(entries, entry.id);
    if i == |entries| {
      assert Init(entries + [entry]) == entries;
    } else {
      SettingSetsOne(entries, i, entry);
    }
  }

  lemma {:induction false} SettingSetsOne(entries: seq<Entry>, i: nat, entry: Entry)
    requires UniqueIds(entries) && i < |entries| && entries[i].id == entry.id
    ensures Contents(entries[i := entry]) == Contents(entries)[entry.id := entry]
  {
    var set1 := entries[i := entry];
    if i == |entries| - 1 {
      assert Init(set1) == Init(entries);
    } else {
      assert Init(set1) == Init(entries)[i := entry];
      assert Last(set1) == Last(entries);
      SettingSetsOne(Init(entries), i, entry);
    }
  }

  /** However often a take is retried, its fixed id keeps one entry: the last. */
  lemma {:induction false} RetriesKeepOneEntry(entries: seq<Entry>, retries: seq<Entry>, id: string)
    requires UniqueIds(entries) && retries != [] && forall r :: r in retries ==> r.id == id
    ensures AllUpserted(entries, retries) == Upserted(entries, Last(retries))
  {
    if |retries| > 1 {
      assert forall r :: r in Init(retries) ==> r in retries;
      RetriesKeepOneEntry(entries, Init(retries), id);
      assert Last(retries) in retries && Last(Init(retries)) in retries;
      UpsertTwice(entries, Last(Init(retries)), Last(retries));
    }
  }

  lemma UpsertTwice(entries: seq<Entry>, first: Entry, second: Entry)
    requires first.id == second.id
    ensures Upserted(Upserted(entries, first), second) == Upserted(entries, second)
  {
    var i, once := Find(entries, first.id), Upserted(entries, first);
    assert forall j :: 0 <= j < i ==> once[j] == entries[j];
    assert once[i].id == second.id;
    assert Find(once, second.id) == i;
  }

  // ----- Dropping entries -----

  /** `Vec::retain`. */
  function Retained(entries: seq<Entry>, keep: Entry -> bool): seq<Entry> {
    if entries == [] then []
    else Retained(Init(entries), keep) + if keep(Last(entries)) then [Last(entries)] else []
  }

  lemma {:induction false} RetainedAreKept(entries: seq<Entry>, keep: Entry -> bool)
    ensures forall e :: e in Retained(entries, keep) <==> e in entries && keep(e)
  {
    if entries != [] {
      RetainedAreKept(Init(entries), keep);
      assert forall e :: e in entries <==> e in Init(entries) || e == Last(entries);
    }
  }

  lemma {:induction false} RetainedIsUnique(entries: seq<Entry>, keep: Entry -> bool)
    requires UniqueIds(entries)
    ensures UniqueIds(Retained(entries, keep))
  {
    if entries != [] {
      RetainedIsUnique(Init(entries), keep);
      RetainedAreKept(Init(entries), keep);
      var rest := Retained(Init(entries), keep);
      forall i | 0 <= i < |rest|
        ensures rest[i].id != Last(entries).id
      {
        assert rest[i] in Init(entries);
      }
    }
  }

  /** What a list drops is exactly what is not kept, and the rest is unchanged. */
  lemma {:induction false} RetainedHolds(entries: seq<Entry>, keep: Entry -> bool, id: string)
    requires UniqueIds(entries)
    ensures id in Contents(Retained(entries, keep)) <==> id in Contents(entries) && keep(Contents(entries)[id])
    ensures id in Contents(Retained(entries, keep)) ==>
              Contents(Retained(entries, keep))[id] == Contents(entries)[id]
  {
    if entries != [] {
      var last := Last(entries);
      RetainedHolds(Init(entries), keep, id);
      if id == last.id {
        NotAmongEarlier(entries);
      }
      if keep(last) {
        assert Init(Retained(Init(entries), keep) + [last]) == Retained(Init(entries), keep);
      } else {
        assert Retained(Init(entries), keep) + [] == Retained(Init(entries), keep);
      }
    }
  }

  lemma NotAmongEarlier(entries: seq<Entry>)
    requires UniqueIds(entries) && entries != []
    ensures Last(entries).id !in Contents(Init(entries))
  {
    if Last(entries).id in Contents(Init(entries)) {
      ContentsHaveEntries(Init(entries), Last(entries).id);
    }
  }

  // ----- Merging a load -----

  lemma SettingInSum(left: map<string, Entry>, right: map<string, Entry>, entry: Entry)
    ensures (left + right)[entry.id := entry] == left + right[entry.id := entry]
  {
  }

  lemma {:induction false} UpsertingAll(entries: seq<Entry>, news: seq<Entry>)
    requires UniqueIds(entries)
    ensures UniqueIds(AllUpserted(entries, news))
    ensures Contents(AllUpserted(entries, news)) == Contents(entries) + Contents(news)
  {
    if news != [] {
      UpsertingAll(entries, Init(news));
      UpsertKeepsIdsUnique(AllUpserted(entries, Init(news)), Last(news));
      UpsertSetsOne(AllUpserted(entries, Init(news)), Last(news));
      SettingInSum(Contents(entries), Contents(Init(news)), Last(news));
    }
  }

  class HistoryList {
    var entries: seq<Entry>

    constructor ()
      ensures entries == []
    {
      entries := [];
    }

    method Upsert(entry: Entry)
      modifies this
      ensures entries == Upserted(old(entries), entry)
    {
      var i := 0;
      while i < |entries| && entries[i].id != entry.id
        invariant i <= |entries| && forall j :: 0 <= j < i ==> entries[j].id != entry.id
      {
        i := i + 1;
      }
      if i < |entries| {
        entries := entries[i := entry];
      } else {
        entries := entries + [entry];
      }
    }

    /** The loaded list with the in-memory entries upserted: the ids of both, memory winning. */
    method Merge(loaded: seq<Entry>)
      modifies this
      ensures entries == AllUpserted(loaded, old(entries))
      ensures UniqueIds(loaded) ==> UniqueIds(entries) && Contents(entries) == Contents(loaded) + Contents(old(entries))
    {
      var current := entries;
      entries := loaded;
      for i := 0 to |current|
        invariant entries == AllUpserted(loaded, current[..i])
      {
        assert Init(current[..i + 1]) == current[..i] && Last(current[..i + 1]) == current[i];
        Upsert(current[i]);
      }
      assert current[..|current|] == current;
      if UniqueIds(loaded) {
        UpsertingAll(loaded, current);
      }
    }

    method Clear()
      modifies this
      ensures entries == []
    {
      entries := [];
    }

    method Retain(keep: Entry -> bool)
      modifies this
      ensures entries == Retained(old(entries), keep)
    {
      var kept: seq<Entry> := [];
      for i := 0 to |entries|
        invariant kept == Retained(entries[..i], keep)
      {
        assert Init(entries[..i + 1]) == entries[..i] && Last(entries[..i + 1]) == entries[i];
        if keep(entries[i]) {
          kept := kept + [entries[i]];
        }
      }
      assert entries[..|entries|] == entries;
      entries := kept;
    }
  }
}
