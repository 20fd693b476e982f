/** Saving the history (src/ui/history_page.rs): snapshots written by threads in any order never go backwards, and
    exactly which entries of the file a save can lose. */
module HistorySaves {
  import opened History
  import opened Sequences
  import opened Wrappers

  // ----- Snapshots -----

  /** A save thread that has not yet taken the file lock. */
  datatype SaveJob = SaveJob(sequence: nat, entries: seq<Entry>)

  /** The two counters, the threads still to run, the file, and all snapshots issued, in order. */
  datatype Saver = Saver(saved: nat, jobs: seq<SaveJob>, disk: seq<Entry>, issued: seq<seq<Entry>>)

  function NewSaver(disk: seq<Entry>): Saver {
    Saver(0, [], disk, [])
  }

  function Issue(s: Saver, entries: seq<Entry>): Saver {
    s.(jobs := s.jobs + [SaveJob(|s.issued| + 1, entries)], issued := s.issued + [entries])
  }

  /** A thread takes the lock and writes unless a newer snapshot was saved; `writes(n)` says whether a write of
      snapshot `n` succeeds. */
  function Finish(s: Saver, i: nat, writes: nat -> bool): Saver {
    if i >= |s.jobs| then s
    else
      var job, t := s.jobs[i], s.(jobs := Without(s.jobs, i));
      if s.saved < job.sequence && writes(job.sequence) then t.(saved := job.sequence, disk := job.entries) else t
  }

  /** The newest of the first `n` snapshots whose write succeeds, or 0. */
  function NewestGood(writes: nat -> bool, n: nat): (g: nat)
    ensures g <= n
    ensures g > 0 ==> writes(g)
    ensures forall k :: g < k <= n ==> !writes(k)
    decreases n
  {
    if n == 0 || writes(n) then n else NewestGood(writes, n - 1)
  }

  predicate IsWaiting(s: Saver, n: nat) {
    exists i :: 0 <= i < |s.jobs| && s.jobs[i].sequence == n
  }

  /** The file holds the saved snapshot, or `base` while none after number `floor` was saved. */
  predicate HoldsSaved(s: Saver, floor: nat, base: seq<Entry>) {
    && floor <= s.saved <= |s.issued|
    && s.disk == if s.saved == floor then base else s.issued[s.saved - 1]
  }

  ghost predicate Sequenced(s: Saver, floor: nat, base: seq<Entry>, writes: nat -> bool) {
    && HoldsSaved(s, floor, base)
    && (s.saved > 0 ==> writes(s.saved))
    && (forall i :: 0 <= i < |s.jobs| ==>
          1 <= s.jobs[i].sequence <= |s.issued| && s.jobs[i].entries == s.issued[s.jobs[i].sequence - 1])
    && (forall n: nat :: s.saved < n <= |s.issued| && writes(n) ==> IsWaiting(s, n))
  }

  lemma IssueKeeps(s: Saver, entries: seq<Entry>, floor: nat, base: seq<Entry>, writes: nat -> bool)
    requires Sequenced(s, floor, base, writes)
    ensures Sequenced(Issue(s, entries), floor, base, writes)
  {
    var t := Issue(s, entries);
    assert t.jobs[|s.jobs|].sequence == |t.issued|;
    forall n: nat | t.saved < n <= |t.issued| && writes(n)
      ensures IsWaiting(t, n)
    {
      if n <= |s.issued| {
        var i :| 0 <= i < |s.jobs| && s.jobs[i].sequence == n;
        assert t.jobs[i].sequence == n;
      }
    }
  }

  lemma StillWaiting(s: Saver, i: nat, n: nat)
    requires i < |s.jobs| && s.jobs[i].sequence != n && IsWaiting(s, n)
    ensures IsWaiting(s.(jobs := Without(s.jobs, i)), n)
  {
    var rest := Without(s.jobs, i);
    var k :| 0 <= k < |s.jobs| && s.jobs[k].sequence == n;
    assert rest[if k < i then k else k - 1].sequence == n;
  }

  /** A thread that finishes moves the saved number forward or leaves the file alone. */
  lemma FinishKeeps(s: Saver, i: nat, floor: nat, base: seq<Entry>, writes: nat -> bool)
    requires Sequenced(s, floor, base, writes)
    ensures Sequenced(Finish(s, i, writes), floor, base, writes)
    ensures Finish(s, i, writes).saved >= s.saved
    ensures Finish(s, i, writes).saved == s.saved ==> Finish(s, i, writes).disk == s.disk
  {
    if i < |s.jobs| {
      var t := Finish(s, i, writes);
      forall n: nat | t.saved < n <= |t.issued| && writes(n)
        ensures IsWaiting(t, n)
      {
        StillWaiting(s, i, n);
        assert IsWaiting(s.(jobs := Without(s.jobs, i)), n);
      }
    }
  }

  /** With no thread left, the file is the newest snapshot whose write succeeded, in whatever order they ran. */
  lemma DrainedIsNewest(s: Saver, floor: nat, base: seq<Entry>, writes: nat -> bool)
    requires Sequenced(s, floor, base, writes) && s.jobs == []
    ensures
      var newest := NewestGood(writes, |s.issued|);
      && s.saved == newest >= floor
      && s.disk == if newest == floor then base else s.issued[newest - 1]
  {
    assert forall n: nat :: !IsWaiting(s, n);
  }

  function FinishAll(s: Saver, order: seq<nat>, writes: nat -> bool): Saver
    decreases |order|
  {
    if order == [] then s else FinishAll(Finish(s, order[0], writes), order[1..], writes)
  }

  lemma {:induction false} FinishAllKeeps(s: Saver, order: seq<nat>, floor: nat, base: seq<Entry>,
      writes: nat -> bool)
    requires Sequenced(s, floor, base, writes)
    ensures Sequenced(FinishAll(s, order, writes), floor, base, writes)
    ensures FinishAll(s, order, writes).issued == s.issued
    decreases |order|
  {
    if order != [] {
      FinishKeeps(s, order[0], floor, base, writes);
      FinishAllKeeps(Finish(s, order[0], writes), order[1..], floor, base, writes);
    }
  }

  lemma AppendIsNewFloor(s: Saver, disk: seq<Entry>, floor: nat, base: seq<Entry>, writes: nat -> bool)
    requires Sequenced(s, floor, base, writes)
    ensures Sequenced(s.(disk := disk), s.saved, disk, writes)
  {
    assert forall n: nat :: IsWaiting(s, n) ==> IsWaiting(s.(disk := disk), n);
  }

  lemma UpsertedIsThere(entries: seq<Entry>, entry: Entry)
    ensures entry in Upserted(entries, entry)
  {
    assert Upserted(entries, entry)[Find(entries, entry.id)] == entry;
  }

  lemma AllDrained(s: Saver, order: seq<nat>, floor: nat, base: seq<Entry>, writes: nat -> bool)
    requires Sequenced(s, floor, base, writes) && FinishAll(s, order, writes).jobs == []
    ensures
      var newest := NewestGood(writes, |s.issued|);
      newest >= floor && FinishAll(s, order, writes).disk == if newest == floor then base else s.issued[newest - 1]
  {
    FinishAllKeeps(s, order, floor, base, writes);
    DrainedIsNewest(FinishAll(s, order, writes), floor, base, writes);
  }

  /** Once the waiting snapshots have run over a file changed meanwhile, it is as changed, or the last one written. */
  lemma DrainsOver(s: Saver, disk: seq<Entry>, order: seq<nat>, floor: nat, base: seq<Entry>, writes: nat -> bool)
    requires Sequenced(s, floor, base, writes) && FinishAll(s.(disk := disk), order, writes).jobs == []
    ensures
      var newest := NewestGood(writes, |s.issued|);
      && newest >= s.saved
      && FinishAll(s.(disk := disk), order, writes).disk == if newest == s.saved then disk else s.issued[newest - 1]
  {
    AppendIsNewFloor(s, disk, floor, base, writes);
    AllDrained(s.(disk := disk), order, s.saved, disk, writes);
  }

  /** An entry appended directly to the file while snapshots are waiting: once they have run it is there exactly when
      none of them was written over it, or the last one written holds it too. */
  lemma AppendSurvivesExactly(s: Saver, entry: Entry, order: seq<nat>, floor: nat, base: seq<Entry>,
      writes: nat -> bool)
    requires Sequenced(s, floor, base, writes)
    requires FinishAll(s.(disk := Upserted(s.disk, entry)), order, writes).jobs == []
    ensures
      var end := FinishAll(s.(disk := Upserted(s.disk, entry)), order, writes);
      var newest := NewestGood(writes, |s.issued|);
      newest >= s.saved
      && (entry in end.disk <==> newest == s.saved || entry in s.issued[newest - 1])
  {
    DrainsOver(s, Upserted(s.disk, entry), order, floor, base, writes);
    UpsertedIsThere(s.disk, entry);
  }

  // ----- The page -----

  /** The entries the retention setting keeps, at some moment. */
  type Keep = Entry -> bool

  function Dropped(entries: seq<Entry>, keep: Keep): set<string> {
    set e | e in entries && !keep(e) :: e.id
  }

  /** `read` is what the loading thread found in the file; `appends` are entries whose background append to the file has
      not run yet. The rest records the history of the page: `origin` what the load merged; `added` every entry ever
      added, in order; `removed` the ids deleted, cleared or expired since they were last added; `earlier` the number of
      snapshots issued before the page opened; `base` the file as left by the last append, or at first, when snapshot
      `floor` was the saved one. */
  datatype Page = Page(entries: seq<Entry>, loaded: bool, savePending: bool, read: Option<seq<Entry>>, saver: Saver,
                       appends: seq<Entry>, origin: map<string, Entry>, added: seq<Entry>, removed: set<string>,
                       earlier: nat, floor: nat, base: seq<Entry>)

  datatype Event =
    | Add(entry: Entry, keep: Keep)
    | Delete(id: string, keep: Keep)
    | ClearAll(keep: Keep)
    | ReadFile
    | LoadFails
    | FinishLoad(limited: bool, keep: Keep)
    | RunSave(i: nat)
    | RunAppend(i: nat, succeeds: bool, keep: Keep)

  /** The counters and the threads belong to the program: a page finds those of the windows before it. */
  function Opened(saver: Saver, appends: seq<Entry>): Page {
    Page([], false, false, None, saver, appends, map[], [], {}, |saver.issued|, saver.saved, saver.disk)
  }

  /** What a save prunes from memory. */
  function Pruned(p: Page, keep: Keep): set<string> {
    if p.loaded then Dropped(p.entries, keep) else {}
  }

  /** A save before the load has merged is deferred; a save prunes, then issues a snapshot. */
  function Save(p: Page, keep: Keep): Page {
    if !p.loaded then p.(savePending := true)
    else
      var kept := Retained(p.entries, keep);
      p.(entries := kept, removed := p.removed + Pruned(p, keep), saver := Issue(p.saver, kept))
  }

  function Added(p: Page, entry: Entry): Page {
    p.(entries := Upserted(p.entries, entry), added := p.added + [entry], removed := p.removed - {entry.id})
  }

  function Deleted(p: Page, id: string): Page {
    p.(entries := Retained(p.entries, (e: Entry) => e.id != id), removed := p.removed + {id})
  }

  /** What the load merged and everything added since, the additions winning. */
  function Truth(p: Page): map<string, Entry> {
    p.origin + Contents(p.added)
  }

  /** Clearing is refused until the load has merged. */
  function Cleared(p: Page): Page {
    p.(entries := [], removed := p.removed + Truth(p).Keys)
  }

  function ReadStep(p: Page): Page {
    if p.loaded || p.read.Some? then p else p.(read := Some(p.saver.disk))
  }

  function Merged(p: Page): Page
    requires p.read.Some?
  {
    p.(entries := if p.read.value == [] then p.entries else AllUpserted(p.read.value, p.entries),
       origin := Contents(p.read.value), loaded := true, savePending := false, read := None)
  }

  function FinishLoadStep(p: Page, limited: bool, keep: Keep): Page {
    if p.read.None? then p
    else if p.savePending || limited then Save(Merged(p), keep)
    else Merged(p)
  }

  /** A background append: read, upsert, prune, write. It does not touch the snapshot counters. */
  function Appended(p: Page, entry: Entry, keep: Keep): Page {
    var disk := Retained(Upserted(p.saver.disk, entry), keep);
    p.(saver := p.saver.(disk := disk), floor := p.saver.saved, base := disk)
  }

  function AppendStep(p: Page, i: nat, succeeds: bool, keep: Keep): Page {
    if i >= |p.appends| then p
    else
      var rest := p.(appends := Without(p.appends, i));
      if succeeds then Appended(rest, p.appends[i], keep) else rest
  }

  function Step(p: Page, e: Event, writes: nat -> bool): Page {
    match e
    case Add(entry, keep) => Save(Added(p, entry), keep)
    case Delete(id, keep) => Save(Deleted(p, id), keep)
    case ClearAll(keep) => if p.loaded then Save(Cleared(p), keep) else p
    case ReadFile => ReadStep(p)
    case LoadFails => p.(read := None)
    case FinishLoad(limited, keep) => FinishLoadStep(p, limited, keep)
    case RunSave(i) => p.(saver := Finish(p.saver, i, writes))
    case RunAppend(i, succeeds, keep) => AppendStep(p, i, succeeds, keep)
  }

  function Run(p: Page, events: seq<Event>, writes: nat -> bool): Page
    decreases |events|
  {
    if events == [] then p else Run(Step(p, events[0], writes), events[1..], writes)
  }

  // ----- What every run keeps -----

  /** No list holds an id twice. */
  ghost predicate Unique(p: Page) {
    && UniqueIds(p.saver.disk) && UniqueIds(p.entries)
    && (forall i :: 0 <= i < |p.saver.jobs| ==> UniqueIds(p.saver.jobs[i].entries))
    && (p.read.Some? ==> UniqueIds(p.read.value))
  }

  predicate SameAt(a: map<string, Entry>, b: map<string, Entry>, id: string) {
    (id in a <==> id in b) && (id in a && id in b ==> a[id] == b[id])
  }

  /** Memory is what was merged and added, except for what was removed. */
  ghost predicate Remembers(entries: seq<Entry>, truth: map<string, Entry>, removed: set<string>) {
    forall id :: id !in removed ==> SameAt(Contents(entries), truth, id)
  }

  /** A page whose memory may be ahead of its last snapshot. */
  ghost predicate Unsaved(p: Page, writes: nat -> bool) {
    && Unique(p)
    && Remembers(p.entries, Truth(p), p.removed)
    && Sequenced(p.saver, p.floor, p.base, writes)
    && p.earlier <= |p.saver.issued|
    && (if p.loaded then p.read.None? else |p.saver.issued| == p.earlier && p.origin == map[])
  }

  /** A page that was changed has issued a snapshot of its own, or will when its load has merged. */
  predicate OwesNothing(p: Page) {
    p.added != [] || p.removed != {} ==> if p.loaded then |p.saver.issued| > p.earlier else p.savePending
  }

  ghost predicate Good(p: Page, writes: nat -> bool) {
    && Unsaved(p, writes)
    && OwesNothing(p)
    && (|p.saver.issued| > p.earlier ==> Last(p.saver.issued) == p.entries)
  }

  /** What earlier windows leave behind. */
  ghost predicate Inherited(saver: Saver, writes: nat -> bool) {
    && Sequenced(saver, saver.saved, saver.disk, writes)
    && UniqueIds(saver.disk)
    && forall i :: 0 <= i < |saver.jobs| ==> UniqueIds(saver.jobs[i].entries)
  }

  lemma DroppedIds(entries: seq<Entry>, keep: Keep, id: string)
    requires UniqueIds(entries)
    ensures id in Dropped(entries, keep) <==> id in Contents(entries) && !keep(Contents(entries)[id])
  {
    if id in Contents(entries) {
      ContentsHaveEntries(entries, id);
      ContentsAt(entries, Find(entries, id));
    }
    if id in Dropped(entries, keep) {
      var e :| e in entries && !keep(e) && e.id == id;
      var i :| 0 <= i < |entries| && entries[i] == e;
      ContentsAt(entries, i);
    }
  }

  lemma RetainedRemembers(entries: seq<Entry>, keep: Keep, truth: map<string, Entry>, removed: set<string>)
    requires UniqueIds(entries) && Remembers(entries, truth, removed)
    ensures Remembers(Retained(entries, keep), truth, removed + Dropped(entries, keep))
  {
    forall id | id !in removed + Dropped(entries, keep)
      ensures SameAt(Contents(Retained(entries, keep)), truth, id)
    {
      DroppedIds(entries, keep, id);
      RetainedHolds(entries, keep, id);
    }
  }

  lemma SaveKeeps(p: Page, keep: Keep, writes: nat -> bool)
    requires Unsaved(p, writes)
    ensures Good(Save(p, keep), writes)
  {
    if p.loaded {
      RetainedIsUnique(p.entries, keep);
      RetainedRemembers(p.entries, keep, Truth(p), p.removed);
      IssueKeeps(p.saver, Retained(p.entries, keep), p.floor, p.base, writes);
    }
  }

  lemma UpsertRemembers(entries: seq<Entry>, entry: Entry, truth: map<string, Entry>, removed: set<string>)
    requires UniqueIds(entries) && Remembers(entries, truth, removed)
    ensures Remembers(Upserted(entries, entry), truth[entry.id := entry], removed - {entry.id})
  {
    UpsertSetsOne(entries, entry);
    forall id | id !in removed - {entry.id}
      ensures SameAt(Contents(Upserted(entries, entry)), truth[entry.id := entry], id)
    {
      assert id != entry.id ==> SameAt(Contents(entries), truth, id);
    }
  }

  lemma TruthGrows(p: Page, entry: Entry)
    ensures Truth(Added(p, entry)) == Truth(p)[entry.id := entry]
  {
    assert Init(p.added + [entry]) == p.added;
    SettingInSum(p.origin, Contents(p.added), entry);
  }

  lemma AddedIsUnsaved(p: Page, entry: Entry, writes: nat -> bool)
    requires Good(p, writes)
    ensures Unsaved(Added(p, entry), writes)
  {
    TruthGrows(p, entry);
    UpsertKeepsIdsUnique(p.entries, entry);
    UpsertRemembers(p.entries, entry, Truth(p), p.removed);
  }

  lemma DeletedIsUnsaved(p: Page, id: string, writes: nat -> bool)
    requires Good(p, writes)
    ensures Unsaved(Deleted(p, id), writes)
  {
    var keep := (e: Entry) => e.id != id;
    RetainedIsUnique(p.entries, keep);
    RetainedRemembers(p.entries, keep, Truth(p), p.removed);
    forall x | x in Dropped(p.entries, keep)
      ensures x == id
    {
    }
  }

  /** A merge keeps what memory holds and adds what was found. */
  lemma MergeRemembers(entries: seq<Entry>, truth: map<string, Entry>, found: map<string, Entry>, removed: set<string>)
    requires Remembers(entries, truth, removed)
    ensures forall id :: id !in removed ==> SameAt(found + Contents(entries), found + truth, id)
  {
    forall id | id !in removed
      ensures SameAt(found + Contents(entries), found + truth, id)
    {
      assert SameAt(Contents(entries), truth, id);
    }
  }

  lemma MergedHolds(p: Page)
    requires p.read.Some? && UniqueIds(p.read.value)
    ensures UniqueIds(p.entries) ==> UniqueIds(Merged(p).entries)
    ensures Contents(Merged(p).entries) == Contents(p.read.value) + Contents(p.entries)
  {
    UpsertingAll(p.read.value, p.entries);
  }

  lemma MergedRemembers(p: Page)
    requires p.read.Some? && UniqueIds(p.read.value) && p.origin == map[] && Remembers(p.entries, Truth(p), p.removed)
    ensures Remembers(Merged(p).entries, Truth(Merged(p)), p.removed)
  {
    MergedHolds(p);
    assert Truth(p) == Contents(p.added);
    MergeRemembers(p.entries, Truth(p), Contents(p.read.value), p.removed);
  }

  lemma MergedIsUnsaved(p: Page, writes: nat -> bool)
    requires Good(p, writes) && p.read.Some?
    ensures Unsaved(Merged(p), writes)
  {
    MergedHolds(p);
    MergedRemembers(p);
  }

  lemma AppendKeeps(p: Page, entry: Entry, keep: Keep, writes: nat -> bool)
    requires Good(p, writes)
    ensures Good(Appended(p, entry, keep), writes)
  {
    var longer := Upserted(p.saver.disk, entry);
    UpsertKeepsIdsUnique(p.saver.disk, entry);
    RetainedIsUnique(longer, keep);
    AppendIsNewFloor(p.saver, Retained(longer, keep), p.floor, p.base, writes);
  }

  lemma AppendStepKeeps(p: Page, i: nat, succeeds: bool, keep: Keep, writes: nat -> bool)
    requires Good(p, writes)
    ensures Good(AppendStep(p, i, succeeds, keep), writes)
  {
    if i < |p.appends| {
      AppendKeeps(p.(appends := Without(p.appends, i)), p.appends[i], keep, writes);
    }
  }

  lemma RunSaveKeeps(p: Page, i: nat, writes: nat -> bool)
    requires Good(p, writes)
    ensures Good(Step(p, RunSave(i), writes), writes)
  {
    FinishKeeps(p.saver, i, p.floor, p.base, writes);
  }

  lemma ReadingKeeps(p: Page, e: Event, writes: nat -> bool)
    requires Good(p, writes) && (e.ReadFile? || e.LoadFails?)
    ensures Good(Step(p, e, writes), writes)
  {
  }

  lemma ChangeKeeps(p: Page, e: Event, writes: nat -> bool)
    requires Good(p, writes) && (e.Add? || e.Delete? || e.ClearAll?)
    ensures Good(Step(p, e, writes), writes)
  {
    match e
    case Add(entry, keep) =>
      AddedIsUnsaved(p, entry, writes);
      SaveKeeps(Added(p, entry), keep, writes);
    case Delete(id, keep) =>
      DeletedIsUnsaved(p, id, writes);
      SaveKeeps(Deleted(p, id), keep, writes);
    case ClearAll(keep) =>
      if p.loaded {
        SaveKeeps(Cleared(p), keep, writes);
      }
  }

  lemma FinishLoadKeeps(p: Page, limited: bool, keep: Keep, writes: nat -> bool)
    requires Good(p, writes)
    ensures Good(FinishLoadStep(p, limited, keep), writes)
  {
    if p.read.Some? {
      MergedIsUnsaved(p, writes);
      SaveKeeps(Merged(p), keep, writes);
    }
  }

  lemma StepKeeps(p: Page, e: Event, writes: nat -> bool)
    requires Good(p, writes)
    ensures Good(Step(p, e, writes), writes)
  {
    match e {
      case FinishLoad(limited, keep) => FinishLoadKeeps(p, limited, keep, writes);
      case RunSave(i) => RunSaveKeeps(p, i, writes);
      case RunAppend(i, succeeds, keep) => AppendStepKeeps(p, i, succeeds, keep, writes);
      case ReadFile => ReadingKeeps(p, e, writes);
      case LoadFails => ReadingKeeps(p, e, writes);
      case _ => ChangeKeeps(p, e, writes);
    }
  }

  lemma {:induction false} RunKeeps(p: Page, events: seq<Event>, writes: nat -> bool)
    requires Good(p, writes)
    ensures Good(Run(p, events, writes), writes)
    decreases |events|
  {
    if events != [] {
      StepKeeps(p, events[0], writes);
      RunKeeps(Step(p, events[0], writes), events[1..], writes);
    }
  }

  /** A window finds what the one before it leaves, and the first finds the file and no threads. */
  lemma WindowsFollow(p: Page, disk: seq<Entry>, writes: nat -> bool)
    ensures Good(p, writes) ==> Inherited(p.saver, writes)
    ensures UniqueIds(disk) ==> Inherited(NewSaver(disk), writes)
  {
    if Good(p, writes) {
      AppendIsNewFloor(p.saver, p.saver.disk, p.floor, p.base, writes);
      assert p.saver.(disk := p.saver.disk) == p.saver;
    }
  }

  lemma OpensGood(saver: Saver, appends: seq<Entry>, writes: nat -> bool)
    requires Inherited(saver, writes)
    ensures Good(Opened(saver, appends), writes)
  {
  }

  // ----- What a save can lose -----

  /** The step deletes, clears or expires the id. */
  predicate Takes(p: Page, e: Event, id: string) {
    match e
    case Add(entry, keep) => id in Pruned(Added(p, entry), keep)
    case Delete(other, keep) => id == other || id in Pruned(Deleted(p, other), keep)
    case ClearAll(_) => p.loaded
    case FinishLoad(limited, keep) => p.read.Some? && (p.savePending || limited) && id in Pruned(Merged(p), keep)
    case RunAppend(i, succeeds, keep) =>
      i < |p.appends| && succeeds && id in Dropped(Upserted(p.saver.disk, p.appends[i]), keep)
    case _ => false
  }

  predicate Spared(p: Page, events: seq<Event>, id: string, writes: nat -> bool)
    decreases |events|
  {
    events == [] || (!Takes(p, events[0], id) && Spared(Step(p, events[0], writes), events[1..], id, writes))
  }

  predicate OnDisk(p: Page, id: string) {
    id in Contents(p.saver.disk)
  }

  /** Every waiting snapshot that may still be written holds the id. */
  ghost predicate HeldByWaiting(s: Saver, id: string, writes: nat -> bool) {
    forall i :: 0 <= i < |s.jobs| && s.saved < s.jobs[i].sequence && writes(s.jobs[i].sequence) ==>
      id in Contents(s.jobs[i].entries)
  }

  /** The page has yet to read the file, or knows the id. */
  predicate Expects(p: Page, id: string) {
    || (!p.loaded && p.read.None?)
    || id in Contents(p.entries)
    || (p.read.Some? && id in Contents(p.read.value))
  }

  /** No snapshot issued from now on is written. */
  ghost predicate NoMoreWrites(s: Saver, writes: nat -> bool) {
    forall n: nat :: n > |s.issued| ==> !writes(n)
  }

  ghost predicate Safe(p: Page, id: string, writes: nat -> bool) {
    HeldByWaiting(p.saver, id, writes) && (Expects(p, id) || NoMoreWrites(p.saver, writes))
  }

  lemma RetainedKeeps(entries: seq<Entry>, keep: Keep, id: string)
    requires UniqueIds(entries) && id in Contents(entries) && id !in Dropped(entries, keep)
    ensures id in Contents(Retained(entries, keep))
  {
    DroppedIds(entries, keep, id);
    RetainedHolds(entries, keep, id);
  }

  lemma SaveSpares(p: Page, keep: Keep, id: string, writes: nat -> bool)
    requires Unsaved(p, writes) && Safe(p, id, writes) && id !in Pruned(p, keep)
    ensures Safe(Save(p, keep), id, writes)
  {
    if p.loaded && id in Contents(p.entries) {
      RetainedKeeps(p.entries, keep, id);
    }
  }

  lemma ChangeSpares(p: Page, e: Event, id: string, writes: nat -> bool)
    requires Good(p, writes) && (e.Add? || e.Delete?) && Safe(p, id, writes) && !Takes(p, e, id)
    ensures Safe(Step(p, e, writes), id, writes)
  {
    match e
    case Add(entry, keep) =>
      AddedIsUnsaved(p, entry, writes);
      UpsertSetsOne(p.entries, entry);
      SaveSpares(Added(p, entry), keep, id, writes);
    case Delete(other, keep) =>
      DeletedIsUnsaved(p, other, writes);
      if id in Contents(p.entries) {
        RetainedKeeps(p.entries, (e: Entry) => e.id != other, id);
      }
      SaveSpares(Deleted(p, other), keep, id, writes);
  }

  lemma FinishLoadSpares(p: Page, limited: bool, keep: Keep, id: string, writes: nat -> bool)
    requires Good(p, writes) && Safe(p, id, writes) && !Takes(p, FinishLoad(limited, keep), id)
    ensures Safe(FinishLoadStep(p, limited, keep), id, writes)
  {
    if p.read.Some? {
      MergedHolds(p);
      MergedIsUnsaved(p, writes);
      if p.savePending || limited {
        SaveSpares(Merged(p), keep, id, writes);
      }
    }
  }

  lemma AppendedHolds(disk: seq<Entry>, entry: Entry, keep: Keep, id: string)
    requires UniqueIds(disk) && (id == entry.id || id in Contents(disk))
    requires id !in Dropped(Upserted(disk, entry), keep)
    ensures id in Contents(Retained(Upserted(disk, entry), keep))
  {
    UpsertKeepsIdsUnique(disk, entry);
    UpsertSetsOne(disk, entry);
    RetainedKeeps(Upserted(disk, entry), keep, id);
  }

  /** Whether an id is safe does not depend on the file. */
  lemma AppendLeavesSafety(p: Page, i: nat, succeeds: bool, keep: Keep, id: string, writes: nat -> bool)
    ensures Safe(AppendStep(p, i, succeeds, keep), id, writes) <==> Safe(p, id, writes)
  {
    var q := AppendStep(p, i, succeeds, keep);
    assert q.saver == p.saver.(disk := q.saver.disk);
    assert HeldByWaiting(q.saver, id, writes) <==> HeldByWaiting(p.saver, id, writes);
  }

  lemma AppendSpares(p: Page, i: nat, succeeds: bool, keep: Keep, id: string, writes: nat -> bool)
    requires Good(p, writes) && OnDisk(p, id) && Safe(p, id, writes) && !Takes(p, RunAppend(i, succeeds, keep), id)
    ensures OnDisk(AppendStep(p, i, succeeds, keep), id) && Safe(AppendStep(p, i, succeeds, keep), id, writes)
  {
    AppendLeavesSafety(p, i, succeeds, keep, id, writes);
    if i < |p.appends| && succeeds {
      AppendedHolds(p.saver.disk, p.appends[i], keep, id);
    }
  }

  /** A thread that writes puts a snapshot with the id on the disk. */
  lemma RunSaveSpares(p: Page, i: nat, id: string, writes: nat -> bool)
    requires OnDisk(p, id) && Safe(p, id, writes)
    ensures OnDisk(Step(p, RunSave(i), writes), id) && Safe(Step(p, RunSave(i), writes), id, writes)
  {
  }

  lemma StepSpares(p: Page, e: Event, id: string, writes: nat -> bool)
    requires Good(p, writes) && OnDisk(p, id) && Safe(p, id, writes) && !Takes(p, e, id)
    ensures OnDisk(Step(p, e, writes), id) && Safe(Step(p, e, writes), id, writes)
  {
    match e {
      case FinishLoad(limited, keep) => FinishLoadSpares(p, limited, keep, id, writes);
      case RunAppend(i, succeeds, keep) => AppendSpares(p, i, succeeds, keep, id, writes);
      case RunSave(i) => RunSaveSpares(p, i, id, writes);
      case ReadFile =>
      case LoadFails =>
      case ClearAll(_) =>
      case _ => ChangeSpares(p, e, id, writes);
    }
  }

  lemma {:induction false} RunSpares(p: Page, events: seq<Event>, id: string, writes: nat -> bool)
    requires Good(p, writes) && OnDisk(p, id) && Safe(p, id, writes) && Spared(p, events, id, writes)
    ensures OnDisk(Run(p, events, writes), id)
    decreases |events|
  {
    if events != [] {
      StepKeeps(p, events[0], writes);
      StepSpares(p, events[0], id, writes);
      RunSpares(Step(p, events[0], writes), events[1..], id, writes);
    }
  }

  /** Some run that does not delete, clear or expire the id leaves it off the disk. */
  ghost predicate CanLose(p: Page, id: string, writes: nat -> bool) {
    exists events :: Spared(p, events, id, writes) && !OnDisk(Run(p, events, writes), id)
  }

  lemma StepThenLose(p: Page, e: Event, id: string, writes: nat -> bool)
    requires !Takes(p, e, id) && CanLose(Step(p, e, writes), id, writes)
    ensures CanLose(p, id, writes)
  {
    var rest :| Spared(Step(p, e, writes), rest, id, writes) && !OnDisk(Run(Step(p, e, writes), rest, writes), id);
    assert ([e] + rest)[1..] == rest;
    assert Spared(p, [e] + rest, id, writes) && !OnDisk(Run(p, [e] + rest, writes), id);
  }

  /** A waiting snapshot without the id takes it off the disk when it is written. */
  lemma WaitingLoses(p: Page, id: string, writes: nat -> bool)
    requires !HeldByWaiting(p.saver, id, writes)
    ensures CanLose(p, id, writes)
  {
    var i :| 0 <= i < |p.saver.jobs| && p.saver.saved < p.saver.jobs[i].sequence && writes(p.saver.jobs[i].sequence)
             && id !in Contents(p.saver.jobs[i].entries);
    var q := Step(p, RunSave(i), writes);
    assert Spared(q, [], id, writes) && !OnDisk(Run(q, [], writes), id);
    StepThenLose(p, RunSave(i), id, writes);
  }

  /** A snapshot just issued without the id. */
  lemma IssuedLoses(p: Page, id: string, writes: nat -> bool)
    requires Good(p, writes) && p.loaded && id !in Contents(p.entries)
    requires |p.saver.issued| > p.earlier && p.saver.saved < |p.saver.issued| && writes(|p.saver.issued|)
    ensures CanLose(p, id, writes)
  {
    var n := |p.saver.issued|;
    assert IsWaiting(p.saver, n);
    var i :| 0 <= i < |p.saver.jobs| && p.saver.jobs[i].sequence == n;
    WaitingLoses(p, id, writes);
  }

  function KeepAll(): Keep {
    (e: Entry) => true
  }

  lemma NothingDropped(entries: seq<Entry>)
    ensures Dropped(entries, KeepAll()) == {}
  {
    assert forall e :: KeepAll()(e);
  }

  /** Adding another entry changes nothing for the id. */
  lemma AddIsBlind(p: Page, entry: Entry, id: string, writes: nat -> bool)
    requires Good(p, writes) && p.loaded && id !in Contents(p.entries) && entry.id != id
    ensures
      var q := Step(p, Add(entry, KeepAll()), writes);
      && Good(q, writes) && q.loaded && id !in Contents(q.entries) && !Takes(p, Add(entry, KeepAll()), id)
      && q.earlier == p.earlier && |q.saver.issued| == |p.saver.issued| + 1 && q.saver.saved == p.saver.saved
  {
    StepKeeps(p, Add(entry, KeepAll()), writes);
    UpsertKeepsIdsUnique(p.entries, entry);
    UpsertSetsOne(p.entries, entry);
    NothingDropped(Upserted(p.entries, entry));
    RetainedHolds(Upserted(p.entries, entry), KeepAll(), id);
  }

  /** A loaded page that does not know the id loses it with the next snapshot that can be written. */
  lemma {:induction false} LoadedLoses(p: Page, id: string, n: nat, writes: nat -> bool)
    requires Good(p, writes) && p.loaded && id !in Contents(p.entries)
    requires n > |p.saver.issued| && writes(n)
    ensures CanLose(p, id, writes)
    decreases n - |p.saver.issued|
  {
    var add := Add(Entry(id + "'", ""), KeepAll());
    AddIsBlind(p, add.entry, id, writes);
    var q := Step(p, add, writes);
    if n == |q.saver.issued| {
      IssuedLoses(q, id, writes);
    } else {
      LoadedLoses(q, id, n, writes);
    }
    StepThenLose(p, add, id, writes);
  }

  /** Finishing a load that did not find the id. */
  lemma FinishLoadIsBlind(p: Page, id: string, writes: nat -> bool)
    requires Good(p, writes) && p.read.Some? && id !in Contents(p.entries) && id !in Contents(p.read.value)
    ensures
      var q := FinishLoadStep(p, false, KeepAll());
      && Good(q, writes) && q.loaded && id !in Contents(q.entries) && !Takes(p, FinishLoad(false, KeepAll()), id)
      && q.earlier == p.earlier == |p.saver.issued| <= |q.saver.issued| <= |p.saver.issued| + 1
      && q.saver.saved == p.saver.saved
  {
    FinishLoadKeeps(p, false, KeepAll(), writes);
    MergedHolds(p);
    NothingDropped(Merged(p).entries);
    MergedIsUnsaved(p, writes);
    RetainedHolds(Merged(p).entries, KeepAll(), id);
  }

  lemma LoadingLoses(p: Page, id: string, n: nat, writes: nat -> bool)
    requires Good(p, writes) && p.read.Some? && id !in Contents(p.entries) && id !in Contents(p.read.value)
    requires n > |p.saver.issued| && writes(n)
    ensures CanLose(p, id, writes)
  {
    var finish := FinishLoad(false, KeepAll());
    FinishLoadIsBlind(p, id, writes);
    var q := Step(p, finish, writes);
    if n == |q.saver.issued| {
      IssuedLoses(q, id, writes);
    } else {
      LoadedLoses(q, id, n, writes);
    }
    StepThenLose(p, finish, id, writes);
  }

  lemma UnexpectedIsLost(p: Page, id: string, n: nat, writes: nat -> bool)
    requires Good(p, writes) && !Expects(p, id) && n > |p.saver.issued| && writes(n)
    ensures CanLose(p, id, writes)
  {
    if p.loaded {
      LoadedLoses(p, id, n, writes);
    } else {
      LoadingLoses(p, id, n, writes);
    }
  }

  /** An entry of the file can be lost to a save exactly when a waiting snapshot that may still be written does not hold
      it, or the page has read the file without finding it and a later snapshot can be written. */
  lemma LosableExactly(p: Page, id: string, writes: nat -> bool)
    requires Good(p, writes) && OnDisk(p, id)
    ensures CanLose(p, id, writes) <==> !Safe(p, id, writes)
  {
    if Safe(p, id, writes) {
      forall events | Spared(p, events, id, writes)
        ensures OnDisk(Run(p, events, writes), id)
      {
        RunSpares(p, events, id, writes);
      }
    } else if !HeldByWaiting(p.saver, id, writes) {
      WaitingLoses(p, id, writes);
    } else {
      var n: nat :| n > |p.saver.issued| && writes(n);
      UnexpectedIsLost(p, id, n, writes);
    }
  }

  /** What is in the file when the page reads it, or at any time before, stays there in every later run, unless it is
      deleted, cleared or expired, exactly when every waiting snapshot that may still be written holds it. */
  lemma NothingOnDiskIsLost(saver: Saver, appends: seq<Entry>, events: seq<Event>, id: string, writes: nat -> bool)
    requires Inherited(saver, writes)
    ensures
      var p := Run(Opened(saver, appends), events, writes);
      !p.loaded && p.read.None? && OnDisk(p, id) ==>
        && (CanLose(p, id, writes) <==> !HeldByWaiting(p.saver, id, writes))
        && (CanLose(ReadStep(p), id, writes) <==> !HeldByWaiting(p.saver, id, writes))
  {
    var p := Run(Opened(saver, appends), events, writes);
    OpensGood(saver, appends, writes);
    RunKeeps(Opened(saver, appends), events, writes);
    if !p.loaded && p.read.None? && OnDisk(p, id) {
      StepKeeps(p, ReadFile, writes);
      LosableExactly(p, id, writes);
      LosableExactly(ReadStep(p), id, writes);
    }
  }

  /** An entry that a background append puts into the file can be lost exactly when a waiting snapshot does not hold it,
      or the page read the file before, does not know the entry and a later snapshot can be written: the lock keeps the
      append and the read apart, but does not order them. */
  lemma AppendIsLostExactly(p: Page, i: nat, keep: Keep, writes: nat -> bool)
    requires Good(p, writes) && i < |p.appends|
    requires !Takes(p, RunAppend(i, true, keep), p.appends[i].id)
    ensures
      var id := p.appends[i].id;
      CanLose(AppendStep(p, i, true, keep), id, writes) <==>
        !HeldByWaiting(p.saver, id, writes) || (!Expects(p, id) && !NoMoreWrites(p.saver, writes))
  {
    var id := p.appends[i].id;
    AppendedHolds(p.saver.disk, p.appends[i], keep, id);
    AppendLeavesSafety(p, i, true, keep, id, writes);
    StepKeeps(p, RunAppend(i, true, keep), writes);
    LosableExactly(AppendStep(p, i, true, keep), id, writes);
  }

  lemma ReadsTooEarly(late: Entry, writes: nat -> bool)
    ensures
      var p := Step(Opened(NewSaver([]), [late]), ReadFile, writes);
      Good(p, writes) && p.appends == [late] && p.saver == NewSaver([]) && !Expects(p, late.id)
  {
    var page := Opened(NewSaver([]), [late]);
    WindowsFollow(page, [], writes);
    OpensGood(NewSaver([]), [late], writes);
    StepKeeps(page, ReadFile, writes);
  }

  /** The input: the first window reads an empty file, and only then the append gets the lock. */
  lemma LateAppendIsLost(late: Entry, n: nat, writes: nat -> bool)
    requires n > 0 && writes(n)
    ensures
      var p := Step(Opened(NewSaver([]), [late]), ReadFile, writes);
      CanLose(AppendStep(p, 0, true, KeepAll()), late.id, writes)
  {
    ReadsTooEarly(late, writes);
    NothingDropped(Upserted([], late));
    AppendIsLostExactly(Step(Opened(NewSaver([]), [late]), ReadFile, writes), 0, KeepAll(), writes);
  }

  // ----- What is on the disk in the end -----

  /** Without background appends and waiting threads the file read is the file at first. */
  ghost predicate Untouched(p: Page, before: Saver) {
    && p.appends == [] && p.floor == before.saved && p.base == before.disk
    && (p.read.Some? ==> p.read.value == before.disk)
    && (if p.loaded then p.origin == Contents(before.disk) else p.saver == before)
  }

  lemma StepIsUntouched(p: Page, e: Event, before: Saver, writes: nat -> bool)
    requires Untouched(p, before) && before.jobs == []
    ensures Untouched(Step(p, e, writes), before)
  {
  }

  lemma {:induction false} RunIsUntouched(p: Page, events: seq<Event>, before: Saver, writes: nat -> bool)
    requires Untouched(p, before) && before.jobs == []
    ensures Untouched(Run(p, events, writes), before)
    decreases |events|
  {
    if events != [] {
      StepIsUntouched(p, events[0], before, writes);
      RunIsUntouched(Step(p, events[0], writes), events[1..], before, writes);
    }
  }

  lemma SameEverywhere(a: map<string, Entry>, b: map<string, Entry>)
    requires forall id :: SameAt(a, b, id)
    ensures a == b
  {
    assert forall id :: SameAt(a, b, id) ==> (id in a <==> id in b);
  }

  lemma StepKeepsEarlier(p: Page, e: Event, writes: nat -> bool)
    ensures Step(p, e, writes).earlier == p.earlier
  {
  }

  lemma {:induction false} EarlierStays(p: Page, events: seq<Event>, writes: nat -> bool)
    ensures Run(p, events, writes).earlier == p.earlier
    decreases |events|
  {
    if events != [] {
      StepKeepsEarlier(p, events[0], writes);
      EarlierStays(Step(p, events[0], writes), events[1..], writes);
    }
  }

  lemma MemoryIsOnDisk(p: Page, writes: nat -> bool)
    requires Good(p, writes) && p.loaded && p.saver.jobs == []
    requires |p.saver.issued| > p.floor && |p.saver.issued| > p.earlier && writes(|p.saver.issued|)
    ensures p.saver.disk == p.entries
    ensures Remembers(p.saver.disk, Truth(p), p.removed)
    ensures p.removed == {} ==> Contents(p.saver.disk) == Truth(p)
  {
    DrainedIsNewest(p.saver, p.floor, p.base, writes);
    if p.removed == {} {
      SameEverywhere(Contents(p.entries), Truth(p));
    }
  }

  function AddedBy(e: Event): seq<Entry> {
    if e.Add? then [e.entry] else []
  }

  /** The entries added by a run, in order. */
  function AddedIn(events: seq<Event>): seq<Entry> {
    if events == [] then [] else AddedBy(events[0]) + AddedIn(events[1..])
  }

  lemma StepAdds(p: Page, e: Event, writes: nat -> bool)
    ensures Step(p, e, writes).added == p.added + AddedBy(e)
  {
  }

  lemma {:induction false} RunAdds(p: Page, events: seq<Event>, writes: nat -> bool)
    ensures Run(p, events, writes).added == p.added + AddedIn(events)
    decreases |events|
  {
    if events == [] {
      Regrouped(p.added, [], []);
    } else {
      StepAdds(p, events[0], writes);
      RunAdds(Step(p, events[0], writes), events[1..], writes);
      Regrouped(p.added, AddedBy(events[0]), AddedIn(events[1..]));
    }
  }

  lemma StepSparesMemory(p: Page, e: Event, id: string, writes: nat -> bool)
    requires id !in p.removed && !Takes(p, e, id)
    ensures id !in Step(p, e, writes).removed
  {
  }

  /** Only what a run deletes, clears or expires counts as removed. */
  lemma {:induction false} SparedIsNotRemoved(p: Page, events: seq<Event>, id: string, writes: nat -> bool)
    requires id !in p.removed && Spared(p, events, id, writes)
    ensures id !in Run(p, events, writes).removed
    decreases |events|
  {
    if events != [] {
      StepSparesMemory(p, events[0], id, writes);
      SparedIsNotRemoved(Step(p, events[0], writes), events[1..], id, writes);
    }
  }

  /** Once the load has merged and every save thread has run, and the newest write succeeded with no append after it, a
      page to which anything was added has its list in the file: what the load merged and everything added in the run,
      the additions winning, except for what was removed. It is so too for any page with a snapshot of its own. Without
      background appends and threads of earlier windows, what the load merged is the file at first. */
  lemma DrainedDiskIsTruth(saver: Saver, appends: seq<Entry>, events: seq<Event>, writes: nat -> bool)
    requires Inherited(saver, writes)
    ensures
      var p := Run(Opened(saver, appends), events, writes);
      var newest := |p.saver.issued|;
      && (appends == [] && saver.jobs == [] && p.loaded ==> p.origin == Contents(saver.disk) && p.floor == saver.saved)
      && (p.loaded && p.saver.jobs == [] && newest > p.floor && writes(newest)
          && (AddedIn(events) != [] || p.removed != {} || newest > |saver.issued|) ==>
            && p.saver.disk == p.entries
            && Remembers(p.saver.disk, p.origin + Contents(AddedIn(events)), p.removed)
            && (p.removed == {} ==> Contents(p.saver.disk) == p.origin + Contents(AddedIn(events))))
  {
    var p := Run(Opened(saver, appends), events, writes);
    OpensGood(saver, appends, writes);
    RunKeeps(Opened(saver, appends), events, writes);
    EarlierStays(Opened(saver, appends), events, writes);
    RunAdds(Opened(saver, appends), events, writes);
    assert p.added == AddedIn(events);
    if appends == [] && saver.jobs == [] {
      RunIsUntouched(Opened(saver, appends), events, saver, writes);
    }
    var newest := |p.saver.issued|;
    if p.loaded && p.saver.jobs == [] && newest > p.floor && newest > p.earlier && writes(newest) {
      MemoryIsOnDisk(p, writes);
    }
  }

  /** A save keeps what the retention setting keeps, drops the rest, and issues what is left. */
  lemma SavePrunes(p: Page, keep: Keep)
    requires p.loaded
    ensures
      var q := Save(p, keep);
      && (forall e :: e in q.entries <==> e in p.entries && keep(e))
      && q.saver.issued == p.saver.issued + [q.entries] && q.loaded
      && IsWaiting(q.saver, |q.saver.issued|)
  {
    RetainedAreKept(p.entries, keep);
    var q := Save(p, keep);
    assert q.saver.jobs[|p.saver.jobs|].sequence == |q.saver.issued|;
  }

  /** A deleted entry is gone from memory, and no other is. */
  lemma DeleteDropsOne(p: Page, id: string, keep: Keep, writes: nat -> bool)
    requires p.loaded
    ensures
      var q := Step(p, Delete(id, keep), writes);
      && (forall e :: e in q.entries <==> e in p.entries && e.id != id && keep(e))
      && q.saver.issued == p.saver.issued + [q.entries]
  {
    RetainedAreKept(p.entries, (e: Entry) => e.id != id);
    SavePrunes(Deleted(p, id), keep);
  }

  /** Clearing leaves nothing, in memory and in the snapshot it issues; before the load it does nothing. */
  lemma ClearDropsAll(p: Page, keep: Keep, writes: nat -> bool)
    ensures
      var q := Step(p, ClearAll(keep), writes);
      if p.loaded then q.entries == [] && q.saver.issued == p.saver.issued + [[]] else q == p
  {
    if p.loaded {
      assert Retained([], keep) == [];
    }
  }

  /** A background append leaves the file with the entry upserted and pruned. */
  lemma AppendRewrites(p: Page, i: nat, keep: Keep)
    requires i < |p.appends|
    ensures
      var q := AppendStep(p, i, true, keep);
      && (forall e :: e in q.saver.disk <==> e in Upserted(p.saver.disk, p.appends[i]) && keep(e))
      && q.appends == Without(p.appends, i) && q.saver == p.saver.(disk := q.saver.disk)
  {
    RetainedAreKept(Upserted(p.saver.disk, p.appends[i]), keep);
  }

  /** So every entry added and spared since is in the file, as last added. */
  lemma AddedIsOnDisk(saver: Saver, appends: seq<Entry>, events: seq<Event>, id: string, writes: nat -> bool)
    requires Inherited(saver, writes) && id in Contents(AddedIn(events))
    requires Spared(Opened(saver, appends), events, id, writes)
    ensures
      var p := Run(Opened(saver, appends), events, writes);
      p.loaded && p.saver.jobs == [] && |p.saver.issued| > p.floor && writes(|p.saver.issued|) ==>
        id in Contents(p.saver.disk) && Contents(p.saver.disk)[id] == Contents(AddedIn(events))[id]
  {
    var p := Run(Opened(saver, appends), events, writes);
    DrainedDiskIsTruth(saver, appends, events, writes);
    SparedIsNotRemoved(Opened(saver, appends), events, id, writes);
    assert AddedIn(events) != [];
    if p.loaded && p.saver.jobs == [] && |p.saver.issued| > p.floor && writes(|p.saver.issued|) {
      assert SameAt(Contents(p.saver.disk), p.origin + Contents(AddedIn(events)), id);
    }
  }

  /** A load that succeeds makes the page the file and what was added meanwhile, and releases the save it held back. */
  lemma LoadMerges(p: Page, limited: bool, keep: Keep, writes: nat -> bool)
    requires Good(p, writes) && !p.loaded
    ensures
      var found := if p.read.Some? then p.read.value else p.saver.disk;
      var q := Step(Step(p, ReadFile, writes), FinishLoad(limited, keep), writes);
      && q.loaded && q.origin == Contents(found) && q.added == p.added
      && |q.saver.issued| == |p.saver.issued| + if p.savePending || limited then 1 else 0
  {
  }

  /** Threads that take the lock one after the other all finish. */
  lemma {:induction false} ThreadsFinish(s: Saver, order: seq<nat>, writes: nat -> bool)
    requires |order| == |s.jobs| && forall k :: 0 <= k < |order| ==> order[k] == 0
    ensures FinishAll(s, order, writes).jobs == []
    decreases |order|
  {
    if order != [] {
      ThreadsFinish(Finish(s, 0, writes), order[1..], writes);
    }
  }

  // ----- The object -----

  class HistoryPage {
    const list: HistoryList
    var loaded: bool
    var savePending: bool
    var read: Option<seq<Entry>>
    var saved: nat
    var jobs: seq<SaveJob>
    var appends: seq<Entry>
    var disk: seq<Entry>
    /** How each snapshot's write ends. */
    const writes: nat -> bool
    var issued: seq<seq<Entry>>
    ghost var origin: map<string, Entry>
    ghost var added: seq<Entry>
    ghost var removed: set<string>
    ghost var earlier: nat
    ghost var floor: nat
    ghost var base: seq<Entry>

    ghost function State(): Page
      reads this, list
    {
      Page(list.entries, loaded, savePending, read, Saver(saved, jobs, disk, issued), appends, origin, added, removed,
           earlier, floor, base)
    }

    ghost predicate Valid()
      reads this, list
    {
      Good(State(), writes)
    }

    constructor (saver: Saver, appends: seq<Entry>, writes: nat -> bool)
      requires Inherited(saver, writes)
      ensures Valid() && State() == Opened(saver, appends) && fresh(list) && this.writes == writes
    {
      list := new HistoryList();
      loaded, savePending, read := false, false, None;
      saved, jobs, disk, issued := saver.saved, saver.jobs, saver.disk, saver.issued;
      this.appends, this.writes := appends, writes;
      origin, added, removed, earlier, floor, base := map[], [], {}, |saver.issued|, saver.saved, saver.disk;
    }

    method SaveHistory(keep: Keep)
      modifies this, list
      ensures State() == Save(old(State()), keep)
    {
      if !loaded {
        savePending := true;
        return;
      }
      ghost var gone := Dropped(list.entries, keep);
      list.Retain(keep);
      removed := removed + gone;
      jobs := jobs + [SaveJob(|issued| + 1, list.entries)];
      issued := issued + [list.entries];
    }

    method AddEntry(entry: Entry, keep: Keep)
      requires Valid()
      modifies this, list
      ensures Valid() && State() == Step(old(State()), Add(entry, keep), writes)
    {
      StepKeeps(State(), Add(entry, keep), writes);
      UpsertAndSave(entry, keep);
    }

    /** Upsert in memory, then save. */
    method UpsertAndSave(entry: Entry, keep: Keep)
      modifies this, list
      ensures State() == Save(Added(old(State()), entry), keep)
    {
      list.Upsert(entry);
      added, removed := added + [entry], removed - {entry.id};
      SaveHistory(keep);
    }

    method DeleteEntry(id: string, keep: Keep)
      requires Valid()
      modifies this, list
      ensures Valid() && State() == Step(old(State()), Delete(id, keep), writes)
    {
      StepKeeps(State(), Delete(id, keep), writes);
      list.Retain((e: Entry) => e.id != id);
      removed := removed + {id};
      SaveHistory(keep);
    }

    method ClearHistory(keep: Keep)
      requires Valid()
      modifies this, list
      ensures Valid() && State() == Step(old(State()), ClearAll(keep), writes)
    {
      StepKeeps(State(), ClearAll(keep), writes);
      if loaded {
        DropAll();
        SaveHistory(keep);
      }
    }

    method DropAll()
      modifies this`removed, list
      ensures State() == Cleared(old(State()))
    {
      removed := removed + (origin + Contents(added)).Keys;
      list.Clear();
    }

    method ReadFile()
      requires Valid() && !loaded
      modifies this
      ensures Valid() && State() == ReadStep(old(State()))
    {
      if read.None? {
        read := Some(disk);
      }
    }

    /** The load came back with an error: the file stays protected. */
    method FailLoad()
      requires Valid()
      modifies this
      ensures Valid() && State() == Step(old(State()), LoadFails, writes)
    {
      StepKeeps(State(), LoadFails, writes);
      read := None;
    }

    /** The load came back: merge, prune and release the deferred save. */
    method FinishLoad(limited: bool, keep: Keep)
      requires Valid() && read.Some?
      modifies this, list
      ensures Valid() && State() == Step(old(State()), Event.FinishLoad(limited, keep), writes)
    {
      FinishLoadKeeps(State(), limited, keep, writes);
      MergeAndSave(limited, keep);
    }

    method MergeAndSave(limited: bool, keep: Keep)
      requires read.Some?
      modifies this, list
      ensures State() == FinishLoadStep(old(State()), limited, keep)
    {
      var due := savePending || limited;
      MergeLoaded();
      if due {
        SaveHistory(keep);
      }
    }

    method MergeLoaded()
      requires read.Some?
      modifies this, list
      ensures State() == Merged(old(State()))
    {
      var found := read.value;
      if found != [] {
        list.Merge(found);
      }
      origin, loaded, savePending, read := Contents(found), true, false, None;
    }

    /** One save thread, under the file lock. */
    method RunSaveThread(i: nat)
      requires Valid() && i < |jobs|
      modifies this
      ensures Valid() && State() == Step(old(State()), RunSave(i), writes)
    {
      StepKeeps(State(), RunSave(i), writes);
      WriteSnapshot(i);
    }

    /** Write a snapshot only if it is newer than the one saved. */
    method WriteSnapshot(i: nat)
      requires i < |jobs|
      modifies this
      ensures State() == Step(old(State()), RunSave(i), writes)
    {
      var job := jobs[i];
      jobs := Without(jobs, i);
      if saved < job.sequence {
        if writes(job.sequence) {
          disk := job.entries;
          saved := job.sequence;
        }
      }
    }

    /** One background append, under the file lock. */
    method RunAppendThread(i: nat, succeeds: bool, keep: Keep)
      requires Valid() && i < |appends|
      modifies this
      ensures Valid() && State() == Step(old(State()), RunAppend(i, succeeds, keep), writes)
    {
      StepKeeps(State(), RunAppend(i, succeeds, keep), writes);
      WriteAppended(i, succeeds, keep);
    }

    /** Read the file, upsert, prune and write it back. */
    method WriteAppended(i: nat, succeeds: bool, keep: Keep)
      requires i < |appends|
      modifies this
      ensures State() == AppendStep(old(State()), i, succeeds, keep)
    {
      var entry := appends[i];
      appends := Without(appends, i);
      if succeeds {
        RewriteFile(entry, keep);
      }
    }

    method RewriteFile(entry: Entry, keep: Keep)
      modifies this
      ensures State() == Appended(old(State()), entry, keep)
    {
      disk := Retained(Upserted(disk, entry), keep);
      floor, base := saved, disk;
    }
  }
}
