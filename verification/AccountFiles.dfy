/** What each finished operation of the account store has done, and what becomes of the key files
    of accounts that wait for their claim. */
module AccountFiles {
  import opened Options
  import opened Octets
  import opened Accounts

  ghost function Finished(w: World, d: Disk, op: Op): Disk { ApplyAll(d, Writes(w, d, op)) }

  lemma FinishedThen(w: World, d: Disk, rest: seq<Write>)
    ensures ApplyAll(d, SyncWrites(w, d) + rest) == ApplyAll(AfterSync(w, d), rest)
  {
    AllThen(d, SyncWrites(w, d), rest);
  }

  lemma AllOfOne(d: Disk, a: Write)
    ensures ApplyAll(d, [a]) == Apply(d, a)
  {
    assert [a][..0] == [];
  }

  lemma AllOfTwo(d: Disk, a: Write, b: Write)
    ensures ApplyAll(d, [a, b]) == Apply(Apply(d, a), b)
  {
    assert [a, b][..1] == [a];
    AllOfOne(d, a);
  }

  // ------------------------------------------------------------- finished operations

  /** Listing gives the active configuration an entry and a saved copy if it has none. */
  lemma ListMeans(w: World, keys: set<string>, d: Disk)
    requires Sane(w, keys) && Valid(w, keys, d)
    ensures var after, key := Finished(w, d, List), ActiveKey(w, d);
            if key == "" || Has(Index(d), key) then after == d
            else
              && Index(after) == [Entry(w.idOf(key), w.numbered(|Index(d)| + 1), key, false)] + Index(d)
              && after.conf == d.conf[w.idOf(key) := d.active.value] && after.active == d.active && after.key == d.key
  {
    hide Sane, NameOk;
    var key := ActiveKey(w, d);
    if key != "" {
      FindById(w, keys, Index(d), key);
      if NeedsEntry(w, d) {
        AllOfTwo(d, PutConf(w.idOf(key), d.active.value), PutIndex(Synced(w, d)));
      }
    }
  }

  /** The index, the saved copies and the active file after that. */
  lemma SyncMeans(w: World, d: Disk)
    ensures var d1 := AfterSync(w, d); Index(d1) == Synced(w, d) && d1.active == d.active && d1.key == d.key
  {
    if NeedsEntry(w, d) {
      AllOfTwo(d, PutConf(w.idOf(ActiveKey(w, d)), d.active.value), PutIndex(Synced(w, d)));
    }
  }

  /** A finished addition leaves one new pending entry, last, with that key, its id and the cleaned
      name, and its key file byte for byte. */
  lemma AddMeans(w: World, d: Disk, name: string, publicKey: string, keyFile: Bytes)
    ensures var after, before := Finished(w, d, Add(name, publicKey, keyFile)), Finished(w, d, List);
            var n := |Index(before)|;
            && |Index(after)| == n + 1 && Index(after)[..n] == Index(before)
            && var e := Index(after)[n];
            && e.publicKey == publicKey && e.id == w.idOf(publicKey) && e.pending
            && (w.trim(name) != "" ==> e.name == w.clean(name))
                && (w.trim(name) == "" ==> e.name == w.clean(w.numbered(n + 1)))
            && after.key == d.key[w.idOf(publicKey) := keyFile] && after.conf == before.conf && after.active == d.active
  {
    hide Find;
    SyncMeans(w, d);
    var rest := AddWrites(w, d, name, publicKey, keyFile);
    FinishedThen(w, d, rest);
    AllOfTwo(AfterSync(w, d), rest[0], rest[1]);
  }

  /** A finished renaming changes that entry's name to the cleaned one, and nothing else. */
  lemma RenameMeans(w: World, d: Disk, target: string, name: string)
    requires Find(w, Index(Finished(w, d, List)), target) >= 0 && w.clean(name) != ""
    ensures var after, before := Finished(w, d, Rename(target, name)), Finished(w, d, List);
            var i := Find(w, Index(before), target);
            && Index(after) == Index(before)[i := Index(before)[i].(name := w.clean(name))]
            && after.conf == before.conf && after.key == before.key && after.active == before.active
  {
    hide Find;
    SyncMeans(w, d);
    var rest := RenameWrites(w, d, target, name);
    FinishedThen(w, d, rest);
    AllOfOne(AfterSync(w, d), rest[0]);
  }

  /** A finished removal of an account that is not active leaves no entry, configuration or key
      file of it, and every other entry. */
  lemma RemoveMeans(w: World, keys: set<string>, d: Disk, target: string)
    requires Sane(w, keys) && Valid(w, keys, d) && Find(w, Index(Finished(w, d, List)), target) >= 0
    requires var e := Index(Finished(w, d, List))[Find(w, Index(Finished(w, d, List)), target)];
             ActiveKey(w, d) == "" || e.publicKey != ActiveKey(w, d)
    ensures var after, before := Finished(w, d, Remove(target)), Finished(w, d, List);
            var e := Index(before)[Find(w, Index(before), target)];
            && e.id !in after.conf && e.id !in after.key
            && (forall x :: x in Index(after) <==> x in Index(before) && x.publicKey != e.publicKey)
            && after.conf == before.conf - {e.id} && after.key == before.key - {e.id} && after.active == before.active
  {
    hide Find, Sane, NameOk, SyncWrites, Synced, Valid, EntriesOk;
    SyncMeans(w, d);
    SyncedEntriesOk(w, keys, d);
    var idx := Synced(w, d);
    var i := Find(w, idx, target);
    var rest := RemoveWrites(w, d, target);
    FinishedThen(w, d, rest);
    AllOfThree(AfterSync(w, d), rest[0], rest[1], rest[2]);
    WithoutOne(w, keys, idx, i);
  }

  lemma SyncedEntriesOk(w: World, keys: set<string>, d: Disk)
    requires Sane(w, keys) && Valid(w, keys, d)
    ensures EntriesOk(w, keys, Synced(w, d))
  {
    hide Sane, EntriesOk, FilesOk, Has, Config, Synced, SyncWrites;
    SyncState(w, keys, d);
  }

  lemma WithoutOne(w: World, keys: set<string>, idx: seq<Entry>, i: nat)
    requires EntriesOk(w, keys, idx) && i < |idx|
    ensures forall x :: x in idx[..i] + idx[i + 1..] <==> x in idx && x.publicKey != idx[i].publicKey
  {
    hide NameOk;
    forall x | x in idx && x.publicKey != idx[i].publicKey ensures x in idx[..i] + idx[i + 1..] {
      var j :| 0 <= j < |idx| && idx[j] == x;
      if j < i {
        assert idx[..i][j] == x;
      } else {
        assert idx[i + 1..][j - i - 1] == x;
      }
    }
  }

  lemma SyncIsTwoWrites(w: World, d: Disk)
    ensures Cut(d, SyncWrites(w, d), 2) == AfterSync(w, d)
  {
    CutWhole(d, SyncWrites(w, d), 2);
  }

  /** A finished switch to a claimed account with an undamaged saved configuration makes exactly
      that configuration active, and saves the one it leaves under its own id. */
  lemma UseMeans(w: World, d: Disk, target: string)
    requires Find(w, Index(Finished(w, d, List)), target) >= 0
    requires var before := Finished(w, d, List);
             var e := Index(before)[Find(w, Index(before), target)];
             && !e.pending && (ActiveKey(w, d) == "" || ActiveKey(w, d) != e.publicKey)
             && e.id in before.conf && w.keyOf(before.conf[e.id]) == e.publicKey
    ensures var after, before, old_ := Finished(w, d, Use(target)), Finished(w, d, List), ActiveKey(w, d);
            var e := Index(before)[Find(w, Index(before), target)];
            && after.active == Some(before.conf[e.id]) && Index(after) == Index(before) && after.key == before.key
            && after.conf == (if old_ == "" then before.conf else before.conf[w.idOf(old_) := d.active.value])
  {
    hide Find, SyncWrites, Synced;
    SyncMeans(w, d);
    SyncIsTwoWrites(w, d);
    var rest, next := UseWrites(w, d, target),
        PutActive(AfterSync(w, d).conf[Synced(w, d)[Find(w, Synced(w, d), target)].id]);
    FinishedThen(w, d, rest);
    if ActiveKey(w, d) == "" {
      assert rest == [next];
      AllOfOne(AfterSync(w, d), next);
    } else {
      var save := PutConf(w.idOf(ActiveKey(w, d)), d.active.value);
      assert rest == [save, next];
      AllOfTwo(AfterSync(w, d), save, next);
    }
  }

  // --------------------------------------------------------------- pending key files

  ghost predicate Awaits(entries: seq<Entry>, p: string) { exists e :: e in entries && e.publicKey == p && e.pending }

  function KeyFile(w: World, d: Disk, p: string): Option<Bytes> {
    if w.idOf(p) in d.key then Some(d.key[w.idOf(p)]) else None
  }

  /** A write that neither touches the key file nor drops the pending entry. */
  ghost predicate Leaves(w: World, write: Write, p: string) {
    match write
    case PutIndex(entries) => Awaits(entries, p)
    case PutKey(id, _) => id != w.idOf(p)
    case DropKey(id) => id != w.idOf(p)
    case _ => true
  }

  lemma {:induction false} AllLeave(w: World, d: Disk, writes: seq<Write>, p: string)
    requires Awaits(Index(d), p) && forall i :: 0 <= i < |writes| ==> Leaves(w, writes[i], p)
    ensures var after := ApplyAll(d, writes); Awaits(Index(after), p) && KeyFile(w, after, p) == KeyFile(w, d, p)
    decreases |writes|
  {
    hide Awaits;
    if writes != [] {
      AllLeave(w, d, writes[..|writes| - 1], p);
    }
  }

  lemma SyncLeaves(w: World, d: Disk, p: string)
    requires Awaits(Index(d), p)
    ensures Awaits(Synced(w, d), p)
    ensures forall i :: 0 <= i < |SyncWrites(w, d)| ==> Leaves(w, SyncWrites(w, d)[i], p)
  {
    hide Find;
    var e :| e in Index(d) && e.publicKey == p && e.pending;
    assert e in Synced(w, d);
  }

  lemma OtherEntry(entries: seq<Entry>, i: nat, p: string, e: Entry)
    requires i < |entries| && Awaits(entries, p)
    ensures entries[i].publicKey != p ==> Awaits(entries[i := e], p) && Awaits(entries[..i] + entries[i + 1..], p)
    ensures e.publicKey == entries[i].publicKey && e.pending == entries[i].pending ==> Awaits(entries[i := e], p)
  {
    var x :| x in entries && x.publicKey == p && x.pending;
    var j :| 0 <= j < |entries| && entries[j] == x;
    if j == i {
      assert entries[i := e][i] == e;
    } else {
      assert entries[i := e][j] == x;
      if j < i {
        assert entries[..i][j] == x;
      } else {
        assert entries[i + 1..][j - i - 1] == x;
      }
    }
  }

  lemma KnownKey(w: World, keys: set<string>, entries: seq<Entry>, p: string)
    requires EntriesOk(w, keys, entries) && Awaits(entries, p)
    ensures p in keys && Has(entries, p)
  {}

  lemma OperationLeaves(w: World, keys: set<string>, d: Disk, op: Op, p: string)
    requires Sane(w, keys) && Valid(w, keys, d) && Proper(w, keys, d, op)
    requires Awaits(Index(d), p) && Subject(w, d, op) != p
    ensures forall i :: 0 <= i < |Writes(w, d, op)| ==> Leaves(w, Writes(w, d, op)[i], p)
  {
    hide Find, Awaits, NameOk, FilesOk, SyncWrites, Sane;
    SyncLeaves(w, d, p);
    SyncState(w, keys, d);
    KnownKey(w, keys, Index(d), p);
    KnownKey(w, keys, Synced(w, d), p);
    match op
    case List =>
    case Use(_) =>
    case Add(name, publicKey, keyFile) => AddLeaves(w, keys, d, name, publicKey, keyFile, p);
    case Complete(id, config) => CompleteLeaves(w, keys, d, id, config, p);
    case Rename(target, name) =>
      var i := Find(w, Synced(w, d), target);
      if i >= 0 {
        OtherEntry(Synced(w, d), i, p, Synced(w, d)[i].(name := w.clean(name)));
      }
    case Remove(target) => RemoveLeaves(w, keys, d, target, p);
  }

  lemma AddLeaves(w: World, keys: set<string>, d: Disk, name: string, publicKey: string, keyFile: Bytes, p: string)
    requires Sane(w, keys) && Proper(w, keys, d, Add(name, publicKey, keyFile))
    requires Awaits(Synced(w, d), p) && p in keys
    ensures var rest := AddWrites(w, d, name, publicKey, keyFile);
            forall i :: 0 <= i < |rest| ==> Leaves(w, rest[i], p)
  {
    hide NameOk, Find;
    Longer(Synced(w, d), Entry(w.idOf(publicKey), AddedName(w, d, name), publicKey, true), p);
  }

  lemma CompleteLeaves(w: World, keys: set<string>, d: Disk, id: string, config: Bytes, p: string)
    requires Sane(w, keys) && Valid(w, keys, d) && Proper(w, keys, d, Complete(id, config))
    requires Awaits(Index(d), p) && p in keys && Subject(w, d, Complete(id, config)) != p
    ensures var rest := CompleteWrites(w, d, id, config); forall i :: 0 <= i < |rest| ==> Leaves(w, rest[i], p)
  {
    hide NameOk, Find, Awaits;
    var i := Find(w, Index(d), id);
    if i >= 0 {
      assert Index(d)[i] in Index(d);
      OtherEntry(Index(d), i, p, Index(d)[i].(pending := false));
    }
  }

  lemma RemoveLeaves(w: World, keys: set<string>, d: Disk, target: string, p: string)
    requires Sane(w, keys) && EntriesOk(w, keys, Synced(w, d))
    requires Awaits(Synced(w, d), p) && p in keys && Subject(w, d, Remove(target)) != p
    ensures var rest := RemoveWrites(w, d, target); forall i :: 0 <= i < |rest| ==> Leaves(w, rest[i], p)
  {
    hide NameOk, Find, Awaits;
    var idx := Synced(w, d);
    var i := Find(w, idx, target);
    if i >= 0 {
      assert idx[i] in idx;
      OtherEntry(idx, i, p, idx[i]);
    }
  }

  lemma Longer(entries: seq<Entry>, e: Entry, p: string)
    requires Awaits(entries, p)
    ensures Awaits(entries + [e], p)
  {
    var x :| x in entries && x.publicKey == p && x.pending;
    assert x in entries + [e];
  }

  lemma CutLeaves(w: World, keys: set<string>, d: Disk, op: Op, n: nat, p: string)
    requires Sane(w, keys) && Valid(w, keys, d) && Proper(w, keys, d, op)
    requires Awaits(Index(d), p) && Subject(w, d, op) != p
    ensures var after := Cut(d, Writes(w, d, op), n);
            Awaits(Index(after), p) && KeyFile(w, after, p) == KeyFile(w, d, p)
  {
    hide Sane, Valid, Proper, Awaits, Subject, Writes, Leaves;
    OperationLeaves(w, keys, d, op, p);
    var writes := Writes(w, d, op);
    AllLeave(w, d, if n < |writes| then writes[..n] else writes, p);
  }

  /** No run of operations, each cut after any file write, and edits of the active configuration
      loses or changes the key file of a pending account none of them is about. */
  lemma {:induction false} PendingKeysAreKept(w: World, keys: set<string>, d: Disk, steps: seq<Step>, p: string)
    requires Sane(w, keys) && Valid(w, keys, d) && Awaits(Index(d), p)
    requires forall i :: 0 <= i < |steps| ==> Spares(w, keys, Run(w, d, steps[..i]), steps[i], p)
    ensures var after := Run(w, d, steps);
            Awaits(Index(after), p) && KeyFile(w, after, p) == KeyFile(w, d, p) && Valid(w, keys, after)
    decreases |steps|
  {
    hide Valid, Awaits, Proper, Subject, Writes, Cut, Sane;
    if steps != [] {
      var front := steps[..|steps| - 1];
      forall i | 0 <= i < |front| ensures Spares(w, keys, Run(w, d, front[..i]), front[i], p) {
        assert front[..i] == steps[..i];
        assert Spares(w, keys, Run(w, d, steps[..i]), steps[i], p);
      }
      PendingKeysAreKept(w, keys, d, front, p);
      var mid := Run(w, d, front);
      assert Spares(w, keys, mid, steps[|steps| - 1], p);
      match steps[|steps| - 1]
      case Operate(op, n) =>
        OperationIsSafe(w, keys, mid, op, n);
        CutLeaves(w, keys, mid, op, n, p);
      case Edit(data) => EditSafe(w, keys, mid, data, p);
    }
  }
}
