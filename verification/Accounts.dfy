/** The account store: one device in several accounts, each with its own key and claimed
    configuration, kept in several files that are each replaced atomically.  An operation is
    the sequence of its file writes; a crash or an I/O error cuts it after any of them.  Key
    derivation, hashing, JSON and Unicode folding are parameters collected in `World`. */
module Accounts {
  import opened Options
  import opened Octets

  /** `keyOf` is the public key found by `inspect` ("" when there is none), `idOf` the account
      id of a key, `fold` what `strings.EqualFold` compares, `clean` the name clean-up and
      `numbered` the default name of the n-th account. */
  datatype World = World(
    keyOf: Bytes -> string, idOf: string -> string,
    trim: string -> string, fold: string -> string, clean: string -> string, numbered: nat -> string)

  datatype Entry = Entry(id: string, name: string, publicKey: string, pending: bool)

  /** The files: config.conf, accounts/index.json, accounts/<id>.conf and accounts/<id>.key. */
  datatype Disk = Disk(active: Option<Bytes>, index: Option<seq<Entry>>, conf: map<string, Bytes>,
                       key: map<string, Bytes>)

  datatype Write =
    | PutActive(data: Bytes)
    | PutIndex(entries: seq<Entry>)
    | PutConf(id: string, data: Bytes)
    | PutKey(id: string, data: Bytes)
    | DropConf(id: string)
    | DropKey(id: string)

  function Apply(d: Disk, w: Write): Disk {
    match w
    case PutActive(data) => d.(active := Some(data))
    case PutIndex(entries) => d.(index := Some(entries))
    case PutConf(id, data) => d.(conf := d.conf[id := data])
    case PutKey(id, data) => d.(key := d.key[id := data])
    case DropConf(id) => d.(conf := d.conf - {id})
    case DropKey(id) => d.(key := d.key - {id})
  }

  function ApplyAll(d: Disk, writes: seq<Write>): Disk
    decreases |writes|
  {
    if writes == [] then d else Apply(ApplyAll(d, writes[..|writes| - 1]), writes[|writes| - 1])
  }

  /** An operation cut after `n` of its writes. */
  function Cut(d: Disk, writes: seq<Write>, n: nat): Disk {
    ApplyAll(d, if n < |writes| then writes[..n] else writes)
  }

  // ------------------------------------------------------------------ operations

  function Index(d: Disk): seq<Entry> { if d.index.Some? then d.index.value else [] }

  function FirstById(entries: seq<Entry>, id: string): int {
    if entries == [] then -1
    else if entries[0].id == id then 0
    else var i := FirstById(entries[1..], id); if i < 0 then -1 else i + 1
  }

  function FirstByName(w: World, entries: seq<Entry>, key: string): int {
    if entries == [] then -1
    else if w.fold(entries[0].name) == w.fold(key) then 0
    else var i := FirstByName(w, entries[1..], key); if i < 0 then -1 else i + 1
  }

  /** `findLocked`: by id first, then by name without regard to case. */
  function Find(w: World, entries: seq<Entry>, idOrName: string): (i: int)
    ensures -1 <= i < |entries|
  {
    var key := w.trim(idOrName);
    FindBounds(w, entries, key);
    if FirstById(entries, key) >= 0 then FirstById(entries, key) else FirstByName(w, entries, key)
  }

  lemma {:induction false} FindBounds(w: World, entries: seq<Entry>, key: string)
    ensures -1 <= FirstById(entries, key) < |entries| && -1 <= FirstByName(w, entries, key) < |entries|
    ensures FirstById(entries, key) >= 0 ==> entries[FirstById(entries, key)].id == key
    ensures FirstById(entries, key) < 0 ==> forall e :: e in entries ==> e.id != key
    ensures FirstByName(w, entries, key) >= 0 ==> w.fold(entries[FirstByName(w, entries, key)].name) == w.fold(key)
    ensures forall j :: 0 <= j < |entries| && (j < FirstById(entries, key) || FirstById(entries, key) < 0) ==>
              entries[j].id != key
    ensures forall j :: 0 <= j < |entries| && (j < FirstByName(w, entries, key) || FirstByName(w, entries, key) < 0) ==>
              w.fold(entries[j].name) != w.fold(key)
    decreases |entries|
  {
    if entries != [] {
      FindBounds(w, entries[1..], key);
      assert forall e :: e in entries ==> e == entries[0] || e in entries[1..];
    }
  }

  function ActiveKey(w: World, d: Disk): string {
    if d.active.Some? then w.keyOf(d.active.value) else ""
  }

  /** `syncActiveLocked`: gives the active configuration an entry if it has none. */
  predicate NeedsEntry(w: World, d: Disk) {
    ActiveKey(w, d) != "" && Find(w, Index(d), w.idOf(ActiveKey(w, d))) < 0
  }

  function Synced(w: World, d: Disk): seq<Entry> {
    if NeedsEntry(w, d)
    then [Entry(w.idOf(ActiveKey(w, d)), w.numbered(|Index(d)| + 1), ActiveKey(w, d), false)] + Index(d)
    else Index(d)
  }

  function SyncWrites(w: World, d: Disk): seq<Write> {
    if NeedsEntry(w, d)
    then [PutConf(w.idOf(ActiveKey(w, d)), d.active.value), PutIndex(Synced(w, d))]
    else []
  }

  datatype Op =
    | List
    | Add(name: string, publicKey: string, keyFile: Bytes)
    | Complete(id: string, config: Bytes)
    | Use(target: string)
    | Rename(target: string, name: string)
    | Remove(target: string)

  function AddedName(w: World, d: Disk, name: string): string {
    w.clean(if w.trim(name) == "" then w.numbered(|Synced(w, d)| + 1) else name)
  }

  function AddWrites(w: World, d: Disk, name: string, publicKey: string, keyFile: Bytes): seq<Write> {
    [PutKey(w.idOf(publicKey), keyFile),
     PutIndex(Synced(w, d) + [Entry(w.idOf(publicKey), AddedName(w, d, name), publicKey, true)])]
  }

  /** `Complete` looks the entry up by `id` but names its files after the argument itself. */
  function CompleteWrites(w: World, d: Disk, id: string, config: Bytes): seq<Write> {
    var i := Find(w, Index(d), id);
    if i < 0 || !Index(d)[i].pending then []
    else [PutConf(id, config), PutIndex(Index(d)[i := Index(d)[i].(pending := false)]), DropKey(id)]
  }

  function UseWrites(w: World, d: Disk, target: string): seq<Write> {
    var idx, active := Synced(w, d), ActiveKey(w, d);
    var i := Find(w, idx, target);
    var conf := Cut(d, SyncWrites(w, d), 2).conf;
    if i < 0 || idx[i].pending || (active != "" && active == idx[i].publicKey) || idx[i].id !in conf
       || w.keyOf(conf[idx[i].id]) != idx[i].publicKey then []
    else (if active != "" then [PutConf(w.idOf(active), d.active.value)] else []) + [PutActive(conf[idx[i].id])]
  }

  function RenameWrites(w: World, d: Disk, target: string, name: string): seq<Write> {
    var i := Find(w, Synced(w, d), target);
    if i < 0 || w.clean(name) == "" then []
    else [PutIndex(Synced(w, d)[i := Synced(w, d)[i].(name := w.clean(name))])]
  }

  function RemoveWrites(w: World, d: Disk, target: string): seq<Write> {
    var idx := Synced(w, d);
    var i := Find(w, idx, target);
    if i < 0 || (ActiveKey(w, d) != "" && idx[i].publicKey == ActiveKey(w, d)) then []
    else [PutIndex(idx[..i] + idx[i + 1..]), DropConf(idx[i].id), DropKey(idx[i].id)]
  }

  /** The file writes of an operation, in order. */
  function Writes(w: World, d: Disk, op: Op): seq<Write> {
    match op
    case List => SyncWrites(w, d)
    case Add(name, publicKey, keyFile) => SyncWrites(w, d) + AddWrites(w, d, name, publicKey, keyFile)
    case Complete(id, config) => CompleteWrites(w, d, id, config)
    case Use(target) => SyncWrites(w, d) + UseWrites(w, d, target)
    case Rename(target, name) => SyncWrites(w, d) + RenameWrites(w, d, target, name)
    case Remove(target) => SyncWrites(w, d) + RemoveWrites(w, d, target)
  }

  // ------------------------------------------------------------------ the invariant

  /** The assumptions on keys: within the keys in play ids are distinct and already trimmed,
      and no default name reads like an id. */
  ghost predicate Sane(w: World, keys: set<string>) {
    && "" !in keys
    && (forall a, b :: a in keys && b in keys && w.idOf(a) == w.idOf(b) ==> a == b)
    && (forall k :: k in keys ==> w.trim(w.idOf(k)) == w.idOf(k))
    && (forall n: nat :: NameOk(w, keys, w.numbered(n)) && NameOk(w, keys, w.clean(w.numbered(n))))
  }

  /** A name equal to no id in play. */
  ghost predicate NameOk(w: World, keys: set<string>, name: string) {
    forall k :: k in keys ==> w.fold(name) != w.fold(w.idOf(k))
  }

  ghost predicate EntriesOk(w: World, keys: set<string>, entries: seq<Entry>) {
    && (forall e :: e in entries ==> e.publicKey in keys && e.id == w.idOf(e.publicKey) && NameOk(w, keys, e.name))
    && (forall i, j :: 0 <= i < j < |entries| ==> entries[i].publicKey != entries[j].publicKey)
  }

  /** Every pending entry has its key file, every claimed entry its configuration file. */
  ghost predicate FilesOk(entries: seq<Entry>, conf: map<string, Bytes>, key: map<string, Bytes>) {
    forall e :: e in entries ==> if e.pending then e.id in key else e.id in conf
  }

  ghost predicate Valid(w: World, keys: set<string>, d: Disk) {
    && EntriesOk(w, keys, Index(d)) && FilesOk(Index(d), d.conf, d.key)
    && (ActiveKey(w, d) != "" ==> ActiveKey(w, d) in keys)
  }

  ghost predicate Has(entries: seq<Entry>, p: string) { exists e :: e in entries && e.publicKey == p }

  /** An account's configuration: the active file when its key matches, else its saved file. */
  ghost function Config(w: World, d: Disk, p: string): Option<Bytes> {
    if p != "" && ActiveKey(w, d) == p then d.active
    else if w.idOf(p) in d.conf then Some(d.conf[w.idOf(p)])
    else None
  }

  /** What an operation may assume of its caller: a new key is new, a chosen name is not an
      id, and `Complete` is given the id of the entry. */
  ghost predicate Proper(w: World, keys: set<string>, d: Disk, op: Op) {
    match op
    case Add(name, publicKey, _) =>
      publicKey in keys && !Has(Synced(w, d), publicKey) && (w.trim(name) != "" ==> NameOk(w, keys, w.clean(name)))
    case Rename(_, name) => NameOk(w, keys, w.clean(name))
    case Complete(id, _) => Find(w, Index(d), id) >= 0 ==> Index(d)[Find(w, Index(d), id)].id == id
    case _ => true
  }

  /** The account an operation is meant to change, if any. */
  ghost function Subject(w: World, d: Disk, op: Op): string {
    match op
    case Complete(id, _) => if Find(w, Index(d), id) >= 0 then Index(d)[Find(w, Index(d), id)].publicKey else ""
    case Remove(target) =>
      var i := Find(w, Synced(w, d), target);
      if i >= 0 then Synced(w, d)[i].publicKey else ""
    case _ => ""
  }

  /** `after` keeps every account of `d` but `subject`: still listed, same configuration. */
  ghost predicate Keeps(w: World, d: Disk, after: Disk, subject: string) {
    forall p :: Has(Index(d), p) && p != subject ==> Has(Index(after), p) && Config(w, after, p) == Config(w, d, p)
  }

  ghost predicate Safe(w: World, keys: set<string>, d: Disk, after: Disk, subject: string) {
    Valid(w, keys, after) && Keeps(w, d, after, subject)
  }

  // ------------------------------------------------------- cutting write sequences

  lemma {:induction false} AllThen(d: Disk, first: seq<Write>, rest: seq<Write>)
    ensures ApplyAll(d, first + rest) == ApplyAll(ApplyAll(d, first), rest)
    decreases |rest|
  {
    if rest == [] {
      assert first + rest == first;
    } else {
      var whole := first + rest;
      assert whole[..|whole| - 1] == first + rest[..|rest| - 1] && whole[|whole| - 1] == rest[|rest| - 1];
      AllThen(d, first, rest[..|rest| - 1]);
    }
  }

  lemma CutThen(d: Disk, first: seq<Write>, rest: seq<Write>, n: nat)
    ensures Cut(d, first + rest, n) ==
            if n <= |first| then Cut(d, first, n) else Cut(ApplyAll(d, first), rest, n - |first|)
  {
    hide ApplyAll;
    var whole := first + rest;
    if n <= |first| {
      assert whole[..n] == first[..n] && first[..|first|] == first;
      if n == |whole| {
        assert whole == whole[..n];
      }
    } else if n < |whole| {
      assert whole[..n] == first + rest[..n - |first|];
      AllThen(d, first, rest[..n - |first|]);
    } else {
      AllThen(d, first, rest);
    }
  }

  lemma CutOne(d: Disk, a: Write, n: nat)
    ensures Cut(d, [a], n) == if n == 0 then d else Apply(d, a)
  {
    var writes := [a];
    assert writes[..0] == [];
    assert ApplyAll(d, []) == d;
  }

  lemma CutNext(d: Disk, a: Write, rest: seq<Write>, n: nat)
    ensures Cut(d, [a] + rest, n) == if n == 0 then d else Cut(Apply(d, a), rest, n - 1)
  {
    CutThen(d, [a], rest, n);
    CutOne(d, a, n);
    CutOne(d, a, 1);
  }

  // --------------------------------------------------------------- each write is safe

  lemma SafeThen(w: World, keys: set<string>, d: Disk, mid: Disk, after: Disk, subject: string)
    requires Safe(w, keys, d, mid, "") || Safe(w, keys, d, mid, subject)
    requires Safe(w, keys, mid, after, subject)
    requires forall p :: Has(Index(d), p) ==> p in keys
    requires "" !in keys
    ensures Safe(w, keys, d, after, subject)
  {
    hide Valid, Config, Has, Index;
  }

  lemma ListedKeys(w: World, keys: set<string>, d: Disk)
    requires Valid(w, keys, d)
    ensures forall p :: Has(Index(d), p) ==> p in keys
  {}

  /** Saving a configuration under an id no other listed account uses, or under the active
      account's id, changes nobody's configuration. */
  lemma PutConfSafe(w: World, keys: set<string>, d: Disk, id: string, data: Bytes, subject: string)
    requires Sane(w, keys) && Valid(w, keys, d)
    requires forall p :: Has(Index(d), p) && w.idOf(p) == id ==> p == subject || p == ActiveKey(w, d)
    ensures Safe(w, keys, d, Apply(d, PutConf(id, data)), subject)
  {
    ListedKeys(w, keys, d);
    hide Has, EntriesOk;
  }

  lemma PutIndexSafe(w: World, keys: set<string>, d: Disk, entries: seq<Entry>, subject: string)
    requires Valid(w, keys, d) && EntriesOk(w, keys, entries) && FilesOk(entries, d.conf, d.key)
    requires forall p :: Has(Index(d), p) && p != subject ==> Has(entries, p)
    ensures Safe(w, keys, d, Apply(d, PutIndex(entries)), subject)
  {
    hide Has, EntriesOk, FilesOk;
  }

  /** Replacing the active file by a listed account's saved configuration is safe when the
      account being left has its own saved first. */
  lemma PutActiveSafe(w: World, keys: set<string>, d: Disk, p: string)
    requires Sane(w, keys) && Valid(w, keys, d) && p in keys && p != ActiveKey(w, d)
    requires w.idOf(p) in d.conf && w.keyOf(d.conf[w.idOf(p)]) == p
    requires var a := ActiveKey(w, d); a != "" ==> w.idOf(a) in d.conf && d.conf[w.idOf(a)] == d.active.value
    ensures Safe(w, keys, d, Apply(d, PutActive(d.conf[w.idOf(p)])), "")
  {
    hide Has, EntriesOk, FilesOk;
  }

  // ------------------------------------------------------------------ each operation

  lemma FindById(w: World, keys: set<string>, entries: seq<Entry>, k: string)
    requires Sane(w, keys) && EntriesOk(w, keys, entries) && k in keys
    ensures Find(w, entries, w.idOf(k)) >= 0 <==> Has(entries, k)
  {
    FindBounds(w, entries, w.idOf(k));
    var i := Find(w, entries, w.idOf(k));
    if i >= 0 {
      assert entries[i] in entries;
    }
  }

  /** The state after the sync: the active account, if any, is listed. */
  lemma SyncSafe(w: World, keys: set<string>, d: Disk, n: nat)
    requires Sane(w, keys) && Valid(w, keys, d)
    ensures Safe(w, keys, d, Cut(d, SyncWrites(w, d), n), "")
  {
    hide Has, Config, FilesOk;
    var k := ActiveKey(w, d);
    if NeedsEntry(w, d) {
      var d1 := Apply(d, PutConf(w.idOf(k), d.active.value));
      FindById(w, keys, Index(d), k);
      ListedKeys(w, keys, d);
      PutConfSafe(w, keys, d, w.idOf(k), d.active.value, "");
      SyncedOk(w, keys, d, d1);
      PutIndexSafe(w, keys, d1, Synced(w, d), "");
      SafeThen(w, keys, d, d1, Apply(d1, PutIndex(Synced(w, d))), "");
      CutNext(d, PutConf(w.idOf(k), d.active.value), [PutIndex(Synced(w, d))], n);
      if n > 0 {
        CutOne(d1, PutIndex(Synced(w, d)), n - 1);
      }
      assert SyncWrites(w, d) == [PutConf(w.idOf(k), d.active.value)] + [PutIndex(Synced(w, d))];
    } else {
      assert Cut(d, [], n) == d;
    }
  }

  lemma SyncedOk(w: World, keys: set<string>, d: Disk, d1: Disk)
    requires Sane(w, keys) && Valid(w, keys, d) && NeedsEntry(w, d)
    requires d1 == Apply(d, PutConf(w.idOf(ActiveKey(w, d)), d.active.value))
    ensures EntriesOk(w, keys, Synced(w, d)) && FilesOk(Synced(w, d), d1.conf, d1.key)
    ensures forall p :: Has(Index(d1), p) ==> Has(Synced(w, d), p)
  {
    var k := ActiveKey(w, d);
    FindById(w, keys, Index(d), k);
    var added := Entry(w.idOf(k), w.numbered(|Index(d)| + 1), k, false);
    assert NameOk(w, keys, w.numbered(|Index(d)| + 1));
    assert Synced(w, d) == [added] + Index(d);
    assert forall e :: e in Index(d) ==> e in Synced(w, d);
    forall j | 0 <= j < |Index(d)| ensures Index(d)[j].publicKey != k {
      assert Index(d)[j] in Index(d);
    }
  }

  ghost function AfterSync(w: World, d: Disk): Disk { ApplyAll(d, SyncWrites(w, d)) }

  lemma SyncState(w: World, keys: set<string>, d: Disk)
    requires Sane(w, keys) && Valid(w, keys, d)
    ensures var d1 := AfterSync(w, d);
            && Safe(w, keys, d, d1, "") && Index(d1) == Synced(w, d)
            && d1.active == d.active && d1 == Cut(d, SyncWrites(w, d), 2)
  {
    hide Has, Config, Valid;
    SyncSafe(w, keys, d, 2);
    var writes := SyncWrites(w, d);
    if NeedsEntry(w, d) {
      CutNext(d, writes[0], [writes[1]], 2);
      CutOne(Apply(d, writes[0]), writes[1], 1);
      assert writes == [writes[0]] + [writes[1]];
    }
  }

  /** A later part that is safe from the synced state is safe from the state before. */
  lemma ThenSafe(w: World, keys: set<string>, d: Disk, rest: seq<Write>, n: nat, subject: string)
    requires Sane(w, keys) && Valid(w, keys, d)
    requires forall m: nat :: Safe(w, keys, AfterSync(w, d), Cut(AfterSync(w, d), rest, m), subject)
    ensures Safe(w, keys, d, Cut(d, SyncWrites(w, d) + rest, n), subject)
  {
    var writes := SyncWrites(w, d);
    CutThen(d, writes, rest, n);
    SyncSafe(w, keys, d, n);
    SyncState(w, keys, d);
    ListedKeys(w, keys, d);
    hide SyncWrites, Cut, Valid, Has, Config;
    if n > |writes| {
      SafeThen(w, keys, d, AfterSync(w, d), Cut(AfterSync(w, d), rest, n - |writes|), subject);
    }
  }

  lemma Untouched(w: World, keys: set<string>, d: Disk, n: nat, subject: string)
    requires Valid(w, keys, d)
    ensures Cut(d, [], n) == d && Safe(w, keys, d, Cut(d, [], n), subject)
  {}

  lemma AddSafe(w: World, keys: set<string>, d1: Disk, entry: Entry, keyFile: Bytes, n: nat)
    requires Sane(w, keys) && Valid(w, keys, d1)
    requires entry.publicKey in keys && !Has(Index(d1), entry.publicKey)
    requires entry.id == w.idOf(entry.publicKey) && entry.pending && NameOk(w, keys, entry.name)
    ensures Safe(w, keys, d1, Cut(d1, [PutKey(entry.id, keyFile), PutIndex(Index(d1) + [entry])], n), "")
  {
    var d2 := Apply(d1, PutKey(entry.id, keyFile));
    var entries := Index(d1) + [entry];
    GrownOk(w, keys, d1, entry, d2);
    hide EntriesOk, Has, FilesOk;
    assert Safe(w, keys, d1, d2, "");
    PutIndexSafe(w, keys, d2, entries, "");
    ListedKeys(w, keys, d1);
    SafeThen(w, keys, d1, d2, Apply(d2, PutIndex(entries)), "");
    assert [PutKey(entry.id, keyFile), PutIndex(entries)] == [PutKey(entry.id, keyFile)] + [PutIndex(entries)];
    CutNext(d1, PutKey(entry.id, keyFile), [PutIndex(entries)], n);
    if n > 0 {
      CutOne(d2, PutIndex(entries), n - 1);
    }
  }

  lemma GrownOk(w: World, keys: set<string>, d1: Disk, entry: Entry, d2: Disk)
    requires Valid(w, keys, d1) && entry.publicKey in keys && !Has(Index(d1), entry.publicKey)
    requires entry.id == w.idOf(entry.publicKey) && entry.pending && NameOk(w, keys, entry.name)
    requires d2.conf == d1.conf && d2.key.Keys == d1.key.Keys + {entry.id} && d2.index == d1.index
             && d2.active == d1.active
    ensures EntriesOk(w, keys, Index(d1) + [entry]) && FilesOk(Index(d1) + [entry], d2.conf, d2.key)
    ensures FilesOk(Index(d1), d2.conf, d2.key)
    ensures forall p :: Has(Index(d1), p) ==> Has(Index(d1) + [entry], p)
  {
    var entries := Index(d1) + [entry];
    assert forall e :: e in Index(d1) ==> e in entries;
    forall j | 0 <= j < |Index(d1)| ensures Index(d1)[j].publicKey != entry.publicKey {
      assert Index(d1)[j] in Index(d1);
    }
  }

  lemma UseSafe(w: World, keys: set<string>, d1: Disk, i: nat, n: nat)
    requires Sane(w, keys) && Valid(w, keys, d1) && i < |Index(d1)|
    requires var e, a := Index(d1)[i], ActiveKey(w, d1);
             a != e.publicKey && e.id in d1.conf && w.keyOf(d1.conf[e.id]) == e.publicKey
    ensures var e, a := Index(d1)[i], ActiveKey(w, d1);
            var save := if a != "" then [PutConf(w.idOf(a), d1.active.value)] else [];
            Safe(w, keys, d1, Cut(d1, save + [PutActive(d1.conf[e.id])], n), "")
  {
    var e, a := Index(d1)[i], ActiveKey(w, d1);
    assert e in Index(d1);
    ListedKeys(w, keys, d1);
    if a != "" {
      var d2 := Apply(d1, PutConf(w.idOf(a), d1.active.value));
      PutConfSafe(w, keys, d1, w.idOf(a), d1.active.value, "");
      PutActiveSafe(w, keys, d2, e.publicKey);
      SafeThen(w, keys, d1, d2, Apply(d2, PutActive(d1.conf[e.id])), "");
      CutNext(d1, PutConf(w.idOf(a), d1.active.value), [PutActive(d1.conf[e.id])], n);
      if n > 0 {
        CutOne(d2, PutActive(d1.conf[e.id]), n - 1);
      }
    } else {
      PutActiveSafe(w, keys, d1, e.publicKey);
      assert [] + [PutActive(d1.conf[e.id])] == [PutActive(d1.conf[e.id])];
      CutOne(d1, PutActive(d1.conf[e.id]), n);
    }
  }

  lemma ReplacedOk(w: World, keys: set<string>, d1: Disk, i: nat, entry: Entry)
    requires EntriesOk(w, keys, Index(d1)) && i < |Index(d1)|
    requires entry.publicKey == Index(d1)[i].publicKey && entry.id == Index(d1)[i].id && NameOk(w, keys, entry.name)
    ensures EntriesOk(w, keys, Index(d1)[i := entry])
    ensures forall p :: Has(Index(d1), p) ==> Has(Index(d1)[i := entry], p)
  {
    var entries := Index(d1)[i := entry];
    assert Index(d1)[i] in Index(d1);
    assert entries[i] in entries;
    forall e | e in Index(d1) && e.publicKey != entry.publicKey ensures e in entries {
      var j :| 0 <= j < |Index(d1)| && Index(d1)[j] == e;
      assert entries[j] == e;
    }
  }

  lemma RenameSafe(w: World, keys: set<string>, d1: Disk, i: nat, name: string, n: nat)
    requires Valid(w, keys, d1) && i < |Index(d1)| && NameOk(w, keys, name)
    ensures Safe(w, keys, d1, Cut(d1, [PutIndex(Index(d1)[i := Index(d1)[i].(name := name)])], n), "")
  {
    var entry := Index(d1)[i].(name := name);
    assert Index(d1)[i] in Index(d1);
    ReplacedOk(w, keys, d1, i, entry);
    PutIndexSafe(w, keys, d1, Index(d1)[i := entry], "");
    CutOne(d1, PutIndex(Index(d1)[i := entry]), n);
  }

  /** Deleting the files of an id no listed account uses is safe. */
  lemma DropSafe(w: World, keys: set<string>, d: Disk, k: string, drop: Write)
    requires Sane(w, keys) && Valid(w, keys, d) && k in keys && !Has(Index(d), k)
    requires drop == DropConf(w.idOf(k)) || drop == DropKey(w.idOf(k))
    ensures Safe(w, keys, d, Apply(d, drop), "")
  {
    ListedKeys(w, keys, d);
    forall e | e in Index(d) ensures e.id != w.idOf(k) {}
  }

  lemma RemovedOk(w: World, keys: set<string>, d1: Disk, i: nat)
    requires Valid(w, keys, d1) && i < |Index(d1)|
    ensures var entries, gone := Index(d1)[..i] + Index(d1)[i + 1..], Index(d1)[i].publicKey;
            && EntriesOk(w, keys, entries) && FilesOk(entries, d1.conf, d1.key) && !Has(entries, gone)
            && (forall p :: Has(Index(d1), p) && p != gone ==> Has(entries, p))
  {
    var entries, gone := Index(d1)[..i] + Index(d1)[i + 1..], Index(d1)[i].publicKey;
    assert forall e :: e in entries ==> e in Index(d1);
    forall e | e in Index(d1) && e.publicKey != gone ensures e in entries {
      var j :| 0 <= j < |Index(d1)| && Index(d1)[j] == e;
      assert entries[if j < i then j else j - 1] == e;
    }
  }

  lemma RemoveSafe(w: World, keys: set<string>, d1: Disk, i: nat, n: nat)
    requires Sane(w, keys) && Valid(w, keys, d1) && i < |Index(d1)|
    ensures var e, entries := Index(d1)[i], Index(d1)[..i] + Index(d1)[i + 1..];
            Safe(w, keys, d1, Cut(d1, [PutIndex(entries), DropConf(e.id), DropKey(e.id)], n), e.publicKey)
  {
    var e, entries := Index(d1)[i], Index(d1)[..i] + Index(d1)[i + 1..];
    assert e in Index(d1);
    RemovedOk(w, keys, d1, i);
    ListedKeys(w, keys, d1);
    hide Has, Config, EntriesOk, FilesOk;
    var d2 := Apply(d1, PutIndex(entries));
    var d3 := Apply(d2, DropConf(e.id));
    var d4 := Apply(d3, DropKey(e.id));
    PutIndexSafe(w, keys, d1, entries, e.publicKey);
    DropTwiceSafe(w, keys, d1, d2, e, entries);
    assert [PutIndex(entries), DropConf(e.id), DropKey(e.id)]
        == [PutIndex(entries)] + ([DropConf(e.id)] + [DropKey(e.id)]);
    CutNext(d1, PutIndex(entries), [DropConf(e.id)] + [DropKey(e.id)], n);
    if n > 0 {
      CutNext(d2, DropConf(e.id), [DropKey(e.id)], n - 1);
    }
    if n > 1 {
      CutOne(d3, DropKey(e.id), n - 2);
    }
  }

  lemma DropTwiceSafe(w: World, keys: set<string>, d1: Disk, d2: Disk, e: Entry, entries: seq<Entry>)
    requires Sane(w, keys) && Valid(w, keys, d1) && e in Index(d1)
    requires d2 == Apply(d1, PutIndex(entries)) && !Has(entries, e.publicKey) && Safe(w, keys, d1, d2, e.publicKey)
    ensures var d3 := Apply(d2, DropConf(e.id));
            Safe(w, keys, d1, d3, e.publicKey) && Safe(w, keys, d1, Apply(d3, DropKey(e.id)), e.publicKey)
  {
    ListedKeys(w, keys, d1);
    assert e.publicKey in keys && e.id == w.idOf(e.publicKey);
    hide Has, Config, EntriesOk, FilesOk;
    var d3 := Apply(d2, DropConf(e.id));
    DropSafe(w, keys, d2, e.publicKey, DropConf(e.id));
    SafeThen(w, keys, d1, d2, d3, e.publicKey);
    DropSafe(w, keys, d3, e.publicKey, DropKey(e.id));
    SafeThen(w, keys, d1, d3, Apply(d3, DropKey(e.id)), e.publicKey);
  }

  lemma ClaimSafe(w: World, keys: set<string>, d: Disk, i: nat, config: Bytes)
    requires Sane(w, keys) && Valid(w, keys, d) && i < |Index(d)|
    ensures var e := Index(d)[i];
            var d2 := Apply(d, PutConf(e.id, config));
            var d3 := Apply(d2, PutIndex(Index(d)[i := e.(pending := false)]));
            && Safe(w, keys, d, d2, e.publicKey) && Safe(w, keys, d, d3, e.publicKey)
            && Safe(w, keys, d, Apply(d3, DropKey(e.id)), e.publicKey)
  {
    hide EntriesOk, Has, FilesOk;
    var e := Index(d)[i];
    var claimed := e.(pending := false);
    var entries := Index(d)[i := claimed];
    var d2 := Apply(d, PutConf(e.id, config));
    EntryId(w, keys, d, i);
    ListedKeys(w, keys, d);
    PutConfSafe(w, keys, d, e.id, config, e.publicKey);
    ReplacedOk(w, keys, d, i, claimed);
    ClaimFiles(w, keys, d, i, config);
    PutIndexSafe(w, keys, d2, entries, e.publicKey);
    SafeThen(w, keys, d, d2, Apply(d2, PutIndex(entries)), e.publicKey);
  }

  lemma EntryId(w: World, keys: set<string>, d: Disk, i: nat)
    requires Valid(w, keys, d) && i < |Index(d)|
    ensures var e := Index(d)[i]; e.publicKey in keys && e.id == w.idOf(e.publicKey) && NameOk(w, keys, e.name)
  {
    assert Index(d)[i] in Index(d);
  }

  lemma CompleteSafe(w: World, keys: set<string>, d: Disk, i: nat, config: Bytes, n: nat)
    requires Sane(w, keys) && Valid(w, keys, d) && i < |Index(d)|
    ensures var e := Index(d)[i];
            var claimed := Index(d)[i := e.(pending := false)];
            Safe(w, keys, d, Cut(d, [PutConf(e.id, config), PutIndex(claimed), DropKey(e.id)], n), e.publicKey)
  {
    hide Valid, Config, Has, Cut;
    var e := Index(d)[i];
    var put, list, drop := PutConf(e.id, config), PutIndex(Index(d)[i := e.(pending := false)]), DropKey(e.id);
    ClaimSafe(w, keys, d, i, config);
    assert [put, list, drop] == [put] + ([list] + [drop]);
    CutNext(d, put, [list] + [drop], n);
    if n > 0 {
      CutNext(Apply(d, put), list, [drop], n - 1);
    }
    if n > 1 {
      CutOne(Apply(Apply(d, put), list), drop, n - 2);
    }
  }

  lemma ClaimFiles(w: World, keys: set<string>, d: Disk, i: nat, config: Bytes)
    requires Sane(w, keys) && Valid(w, keys, d) && i < |Index(d)|
    ensures var e := Index(d)[i];
            var entries := Index(d)[i := e.(pending := false)];
            && FilesOk(entries, d.conf[e.id := config], d.key)
            && FilesOk(entries, d.conf[e.id := config], d.key - {e.id})
  {
    var e := Index(d)[i];
    var entries := Index(d)[i := e.(pending := false)];
    assert e in Index(d);
    forall x | x in entries ensures x == e.(pending := false) || (x in Index(d) && x.id != e.id) {
      var j :| 0 <= j < |entries| && entries[j] == x;
      if j != i {
        assert Index(d)[j] == x && x in Index(d);
        assert x.publicKey != e.publicKey;
      }
    }
  }

  // ------------------------------------------------------------------------ the store

  datatype Outcome = Done | NotFound | NotClaimed | Unreadable | Damaged | EmptyName | IsActive | WriteFailed

  /** The files, and how many more writes succeed before the machine stops. */
  class Store {
    const world: World
    var disk: Disk
    var budget: nat

    constructor (world: World, disk: Disk, budget: nat)
      ensures this.world == world && this.disk == disk && this.budget == budget
    {
      this.world, this.disk, this.budget := world, disk, budget;
    }

    method Commit(write: Write) returns (ok: bool)
      modifies this
      ensures ok == (old(budget) > 0)
      ensures disk == if ok then Apply(old(disk), write) else old(disk)
      ensures budget == if ok then old(budget) - 1 else 0
    {
      ok := budget > 0;
      if ok {
        disk, budget := Apply(disk, write), budget - 1;
      }
    }

    method SyncActive() returns (entries: seq<Entry>, ok: bool)
      modifies this
      ensures disk == Cut(old(disk), SyncWrites(world, old(disk)), old(budget))
      ensures entries == Synced(world, old(disk))
      ensures ok == (old(budget) >= |SyncWrites(world, old(disk))|)
      ensures budget == if ok then old(budget) - |SyncWrites(world, old(disk))| else 0
    {
      entries, ok := Index(disk), true;
      var key := ActiveKey(world, disk);
      ghost var d, n := disk, budget;
      ghost var writes := SyncWrites(world, d);
      if key == "" {
        return;
      }
      var id := world.idOf(key);
      if Find(world, entries, id) >= 0 {
        return;
      }
      var data := disk.active.value;
      entries := [Entry(id, world.numbered(|entries| + 1), key, false)] + entries;
      CutNext(d, PutConf(id, data), [PutIndex(entries)], n);
      assert writes == [PutConf(id, data)] + [PutIndex(entries)];
      ok := Commit(PutConf(id, data));
      if ok {
        CutOne(disk, PutIndex(entries), n - 1);
        ok := Commit(PutIndex(entries));
      }
    }

    /** `Add`, with the generated key pair and the encoded key file as arguments. */
    method Add(name: string, publicKey: string, keyFile: Bytes) returns (r: Outcome)
      modifies this
      ensures disk == Cut(old(disk), Writes(world, old(disk), Op.Add(name, publicKey, keyFile)), old(budget))
      ensures r == Done <==> old(budget) >= |Writes(world, old(disk), Op.Add(name, publicKey, keyFile))|
    {
      ghost var d, n := disk, budget;
      ghost var rest := AddWrites(world, d, name, publicKey, keyFile);
      CutThen(d, SyncWrites(world, d), rest, n);
      var entries, ok := SyncActive();
      if !ok {
        return WriteFailed;
      }
      var shown := if world.trim(name) == "" then world.numbered(|entries| + 1) else name;
      var id := world.idOf(publicKey);
      entries := entries + [Entry(id, world.clean(shown), publicKey, true)];
      ghost var m, d1 := budget, disk;
      assert rest == [PutKey(id, keyFile)] + [PutIndex(entries)];
      CutNext(d1, PutKey(id, keyFile), [PutIndex(entries)], m);
      CutWhole(d, SyncWrites(world, d), n);
      ok := Commit(PutKey(id, keyFile));
      if ok {
        CutOne(disk, PutIndex(entries), m - 1);
        ok := Commit(PutIndex(entries));
      }
      r := if ok then Done else WriteFailed;
    }

    method Complete(id: string, config: Bytes) returns (r: Outcome)
      modifies this
      ensures disk == Cut(old(disk), Writes(world, old(disk), Op.Complete(id, config)), old(budget))
      ensures r == (if Writes(world, old(disk), Op.Complete(id, config)) == [] then NotFound
                    else if old(budget) >= 2 then Done else WriteFailed)
    {
      ghost var d, n := disk, budget;
      var entries := Index(disk);
      var i := Find(world, entries, id);
      if i < 0 || !entries[i].pending {
        return NotFound;
      }
      entries := entries[i := entries[i].(pending := false)];
      assert CompleteWrites(world, d, id, config) == [PutConf(id, config)] + ([PutIndex(entries)] + [DropKey(id)]);
      CutNext(d, PutConf(id, config), [PutIndex(entries)] + [DropKey(id)], n);
      var ok := Commit(PutConf(id, config));
      if !ok {
        return WriteFailed;
      }
      CutNext(disk, PutIndex(entries), [DropKey(id)], n - 1);
      ok := Commit(PutIndex(entries));
      if !ok {
        return WriteFailed;
      }
      CutOne(disk, DropKey(id), n - 2);
      ok := Commit(DropKey(id));
      r := Done;
    }

    /** `Use`: the configuration being left is saved under its own id before it is replaced. */
    method Use(target: string) returns (r: Outcome)
      modifies this
      ensures disk == Cut(old(disk), Writes(world, old(disk), Op.Use(target)), old(budget))
      ensures r == Done ==>
                var i := Find(world, Synced(world, old(disk)), target);
                0 <= i && ActiveKey(world, disk) == Synced(world, old(disk))[i].publicKey
    {
      ghost var d, n := disk, budget;
      ghost var rest := UseWrites(world, d, target);
      CutThen(d, SyncWrites(world, d), rest, n);
      var entries, ok := SyncActive();
      if !ok {
        return WriteFailed;
      }
      ghost var d1, m := disk, budget;
      CutWhole(d, SyncWrites(world, d), n);
      CutWhole(d, SyncWrites(world, d), 2);
      SyncKeepsActive(world, d);
      var active := ActiveKey(world, disk);
      var i := Find(world, entries, target);
      if i < 0 {
        return NotFound;
      }
      var e := entries[i];
      if e.pending {
        return NotClaimed;
      }
      if active != "" && active == e.publicKey {
        return Done;
      }
      if e.id !in disk.conf {
        return Unreadable;
      }
      var next := disk.conf[e.id];
      if world.keyOf(next) != e.publicKey {
        return Damaged;
      }
      if active != "" {
        CutNext(d1, PutConf(world.idOf(active), disk.active.value), [PutActive(next)], m);
        ok := Commit(PutConf(world.idOf(active), disk.active.value));
        if !ok {
          return WriteFailed;
        }
        CutOne(disk, PutActive(next), m - 1);
      } else {
        assert rest == [PutActive(next)];
        CutOne(disk, PutActive(next), m);
      }
      ok := Commit(PutActive(next));
      r := if ok then Done else WriteFailed;
    }

    method Rename(target: string, name: string) returns (r: Outcome)
      modifies this
      ensures disk == Cut(old(disk), Writes(world, old(disk), Op.Rename(target, name)), old(budget))
      ensures var spare := old(budget) - |SyncWrites(world, old(disk))|;
              r == (if spare < 0 then WriteFailed
                    else if Find(world, Synced(world, old(disk)), target) < 0 then NotFound
                    else if world.clean(name) == "" then EmptyName
                    else if spare > 0 then Done else WriteFailed)
    {
      ghost var d, n := disk, budget;
      ghost var rest := RenameWrites(world, d, target, name);
      CutThen(d, SyncWrites(world, d), rest, n);
      var entries, ok := SyncActive();
      if !ok {
        return WriteFailed;
      }
      CutWhole(d, SyncWrites(world, d), n);
      var i := Find(world, entries, target);
      if i < 0 {
        return NotFound;
      }
      if world.clean(name) == "" {
        return EmptyName;
      }
      entries := entries[i := entries[i].(name := world.clean(name))];
      CutOne(disk, PutIndex(entries), budget);
      ok := Commit(PutIndex(entries));
      r := if ok then Done else WriteFailed;
    }

    method Remove(target: string) returns (r: Outcome)
      modifies this
      ensures disk == Cut(old(disk), Writes(world, old(disk), Op.Remove(target)), old(budget))
      ensures var spare, entries := old(budget) - |SyncWrites(world, old(disk))|, Synced(world, old(disk));
              var i, active := Find(world, entries, target), ActiveKey(world, old(disk));
              r == (if spare < 0 then WriteFailed
                    else if i < 0 then NotFound
                    else if active != "" && entries[i].publicKey == active then IsActive
                    else if spare > 0 then Done else WriteFailed)
    {
      ghost var d, n := disk, budget;
      ghost var rest := RemoveWrites(world, d, target);
      CutThen(d, SyncWrites(world, d), rest, n);
      var entries, ok := SyncActive();
      if !ok {
        return WriteFailed;
      }
      CutWhole(d, SyncWrites(world, d), n);
      SyncKeepsActive(world, d);
      var active := ActiveKey(world, disk);
      var i := Find(world, entries, target);
      if i < 0 {
        return NotFound;
      }
      var e := entries[i];
      if active != "" && e.publicKey == active {
        return IsActive;
      }
      entries := entries[..i] + entries[i + 1..];
      ghost var d1, m := disk, budget;
      assert rest == [PutIndex(entries)] + ([DropConf(e.id)] + [DropKey(e.id)]);
      CutNext(d1, PutIndex(entries), [DropConf(e.id)] + [DropKey(e.id)], m);
      ok := Commit(PutIndex(entries));
      if !ok {
        return WriteFailed;
      }
      CutNext(disk, DropConf(e.id), [DropKey(e.id)], m - 1);
      ok := Commit(DropConf(e.id));
      if ok {
        CutOne(disk, DropKey(e.id), m - 2);
        ok := Commit(DropKey(e.id));
      }
      r := Done;
    }
  }

  lemma CutWhole(d: Disk, writes: seq<Write>, n: nat)
    ensures n >= |writes| ==> Cut(d, writes, n) == ApplyAll(d, writes)
  {}

  lemma SyncKeepsActive(w: World, d: Disk)
    ensures AfterSync(w, d).active == d.active
  {
    var writes := SyncWrites(w, d);
    if NeedsEntry(w, d) {
      CutNext(d, writes[0], [writes[1]], 2);
      CutOne(Apply(d, writes[0]), writes[1], 1);
      assert writes == [writes[0]] + [writes[1]];
    }
  }

  // ------------------------------------------------------------------ main results

  /** Every operation, cut after any number of its file writes, leaves a valid store and keeps
      the configuration of every account but the one it completes or removes. */
  lemma OperationIsSafe(w: World, keys: set<string>, d: Disk, op: Op, n: nat)
    requires Sane(w, keys) && Valid(w, keys, d) && Proper(w, keys, d, op)
    ensures Safe(w, keys, d, Cut(d, Writes(w, d, op), n), Subject(w, d, op))
  {
    hide SyncWrites, Has, Config, Cut, EntriesOk, FilesOk, Find;
    SyncState(w, keys, d);
    var d1 := AfterSync(w, d);
    match op
    case List => SyncSafe(w, keys, d, n);
    case Add(name, publicKey, keyFile) =>
      var entry := Entry(w.idOf(publicKey), AddedName(w, d, name), publicKey, true);
      assert NameOk(w, keys, w.clean(w.numbered(|Synced(w, d)| + 1)));
      forall m: nat ensures Safe(w, keys, d1, Cut(d1, AddWrites(w, d, name, publicKey, keyFile), m), "") {
        AddSafe(w, keys, d1, entry, keyFile, m);
      }
      ThenSafe(w, keys, d, AddWrites(w, d, name, publicKey, keyFile), n, "");
    case Complete(id, config) =>
      var i := Find(w, Index(d), id);
      if i < 0 || !Index(d)[i].pending {
        Untouched(w, keys, d, n, Subject(w, d, op));
      } else {
        CompleteSafe(w, keys, d, i, config, n);
      }
    case Use(target) => UseIsSafe(w, keys, d, target, n);
    case Rename(target, name) => RenameIsSafe(w, keys, d, target, name, n);
    case Remove(target) => RemoveIsSafe(w, keys, d, target, n);
  }

  lemma UseIsSafe(w: World, keys: set<string>, d: Disk, target: string, n: nat)
    requires Sane(w, keys) && Valid(w, keys, d)
    ensures Safe(w, keys, d, Cut(d, SyncWrites(w, d) + UseWrites(w, d, target), n), "")
  {
    hide SyncWrites, Has, Config, EntriesOk, FilesOk, Find, Cut;
    SyncState(w, keys, d);
    var d1 := AfterSync(w, d);
    var rest := UseWrites(w, d, target);
    var i := Find(w, Index(d1), target);
    forall m: nat ensures Safe(w, keys, d1, Cut(d1, rest, m), "") {
      if rest == [] {
        Untouched(w, keys, d1, m, "");
      } else {
        EntryId(w, keys, d1, i);
        UseSafe(w, keys, d1, i, m);
      }
    }
    ThenSafe(w, keys, d, rest, n, "");
  }

  lemma RenameIsSafe(w: World, keys: set<string>, d: Disk, target: string, name: string, n: nat)
    requires Sane(w, keys) && Valid(w, keys, d) && NameOk(w, keys, w.clean(name))
    ensures Safe(w, keys, d, Cut(d, SyncWrites(w, d) + RenameWrites(w, d, target, name), n), "")
  {
    hide SyncWrites, Has, Config, EntriesOk, FilesOk, Find, Cut;
    SyncState(w, keys, d);
    var d1 := AfterSync(w, d);
    var rest := RenameWrites(w, d, target, name);
    forall m: nat ensures Safe(w, keys, d1, Cut(d1, rest, m), "") {
      if rest == [] {
        Untouched(w, keys, d1, m, "");
      } else {
        RenameSafe(w, keys, d1, Find(w, Index(d1), target), w.clean(name), m);
      }
    }
    ThenSafe(w, keys, d, rest, n, "");
  }

  lemma RemoveIsSafe(w: World, keys: set<string>, d: Disk, target: string, n: nat)
    requires Sane(w, keys) && Valid(w, keys, d)
    ensures Safe(w, keys, d, Cut(d, SyncWrites(w, d) + RemoveWrites(w, d, target), n), Subject(w, d, Remove(target)))
  {
    hide SyncWrites, Has, Config, EntriesOk, FilesOk, Find, Cut;
    SyncState(w, keys, d);
    var d1 := AfterSync(w, d);
    var rest, subject := RemoveWrites(w, d, target), Subject(w, d, Remove(target));
    forall m: nat ensures Safe(w, keys, d1, Cut(d1, rest, m), subject) {
      if rest == [] {
        Untouched(w, keys, d1, m, subject);
      } else {
        RemoveSafe(w, keys, d1, Find(w, Index(d1), target), m);
      }
    }
    ThenSafe(w, keys, d, rest, n, subject);
  }

  /** `Complete` accepts whatever `findLocked` matches but writes the files of its argument:
      the store stays valid exactly when it was given the entry's id, or an old configuration
      file of that entry happens to exist. */
  lemma CompleteNeedsTheId(w: World, keys: set<string>, d: Disk, id: string, config: Bytes)
    requires Sane(w, keys) && Valid(w, keys, d)
    requires Find(w, Index(d), id) >= 0 && Index(d)[Find(w, Index(d), id)].pending
    ensures var e := Index(d)[Find(w, Index(d), id)];
            Valid(w, keys, ApplyAll(d, CompleteWrites(w, d, id, config))) <==> id == e.id || e.id in d.conf
  {
    hide Find, Sane, NameOk;
    var i := Find(w, Index(d), id);
    var e := Index(d)[i];
    EntryId(w, keys, d, i);
    var entries := Index(d)[i := e.(pending := false)];
    var after := ApplyAll(d, CompleteWrites(w, d, id, config));
    AllOfThree(d, PutConf(id, config), PutIndex(entries), DropKey(id));
    assert after == Disk(d.active, Some(entries), d.conf[id := config], d.key - {id});
    assert entries[i] in entries;
    ReplacedOk(w, keys, d, i, e.(pending := false));
    ClaimFiles(w, keys, d, i, config);
    if id != e.id && e.id in d.conf {
      ForeignFiles(w, keys, d, id, config);
    }
  }

  /** And the account gets the configuration it is completed with exactly when the argument is
      its id, or its old file happens to hold the same bytes. */
  lemma CompleteSetsConfigIff(w: World, keys: set<string>, d: Disk, id: string, config: Bytes)
    requires Sane(w, keys) && Valid(w, keys, d)
    requires Find(w, Index(d), id) >= 0 && Index(d)[Find(w, Index(d), id)].pending
    requires ActiveKey(w, d) != Index(d)[Find(w, Index(d), id)].publicKey
    ensures var e, after := Index(d)[Find(w, Index(d), id)], ApplyAll(d, CompleteWrites(w, d, id, config));
            Config(w, after, e.publicKey) == Some(config) <==>
            id == e.id || (e.id in d.conf && d.conf[e.id] == config)
  {
    hide Find, Sane, NameOk;
    var i := Find(w, Index(d), id);
    EntryId(w, keys, d, i);
    var entries := Index(d)[i := Index(d)[i].(pending := false)];
    AllOfThree(d, PutConf(id, config), PutIndex(entries), DropKey(id));
  }

  /** Completing the account named "Home" by its name: claimed, and without a configuration. */
  lemma CompleteByNameLosesFile()
    ensures var w := World((b: Bytes) => "", (k: string) => "id", (n: string) => n, (n: string) => n, (n: string) => n,
                           (n: nat) => "Account");
            var d := Disk(None, Some([Entry("id", "Home", "k", true)]), map[], map["id" := []]);
            var after := ApplyAll(d, CompleteWrites(w, d, "Home", []));
            && Sane(w, {"k"}) && Valid(w, {"k"}, d)
            && Index(after) == [Entry("id", "Home", "k", false)] && "id" !in after.conf && !Valid(w, {"k"}, after)
  {
    var w := World((b: Bytes) => "", (k: string) => "id", (n: string) => n, (n: string) => n, (n: string) => n,
                   (n: nat) => "Account");
    var e := Entry("id", "Home", "k", true);
    var d := Disk(None, Some([e]), map[], map["id" := []]);
    assert Find(w, [e], "Home") == 0;
    var index := [e.(pending := false)];
    AllOfThree(d, PutConf("Home", []), PutIndex(index), DropKey("Home"));
    CompleteNeedsTheId(w, {"k"}, d, "Home", []);
  }

  lemma ForeignFiles(w: World, keys: set<string>, d: Disk, id: string, config: Bytes)
    requires Sane(w, keys) && Valid(w, keys, d) && Find(w, Index(d), id) >= 0
    requires var e := Index(d)[Find(w, Index(d), id)]; e.pending && e.id != id && e.id in d.conf
    ensures var i := Find(w, Index(d), id);
            FilesOk(Index(d)[i := Index(d)[i].(pending := false)], d.conf[id := config], d.key - {id})
  {
    hide Find;
    var i := Find(w, Index(d), id);
    var entries := Index(d)[i := Index(d)[i].(pending := false)];
    forall x | x in entries ensures if x.pending then x.id in d.key - {id} else x.id in d.conf[id := config] {
      var j :| 0 <= j < |entries| && entries[j] == x;
      if j != i {
        assert Index(d)[j] == x && x in Index(d);
        ForeignId(w, keys, Index(d), id, x);
      }
    }
  }

  lemma AllOfThree(d: Disk, a: Write, b: Write, c: Write)
    ensures ApplyAll(d, [a, b, c]) == Apply(Apply(Apply(d, a), b), c)
  {
    AllThen(d, [a], [b, c]);
    AllThen(Apply(d, a), [b], [c]);
    assert [a, b, c] == [a] + [b, c] && [b, c] == [b] + [c];
    CutOne(d, a, 1);
    CutOne(Apply(d, a), b, 1);
    CutOne(Apply(Apply(d, a), b), c, 1);
  }

  /** An argument that is not the id of the entry it finds is the id of no entry. */
  lemma ForeignId(w: World, keys: set<string>, entries: seq<Entry>, id: string, x: Entry)
    requires Sane(w, keys) && EntriesOk(w, keys, entries) && x in entries
    requires Find(w, entries, id) >= 0 && entries[Find(w, entries, id)].id != id
    ensures x.id != id
  {
    FindBounds(w, entries, w.trim(id));
  }

  // Whole runs: operations cut anywhere, and the agent rewriting the active configuration.
  datatype Step = Operate(op: Op, cut: nat) | Edit(data: Bytes)

  function Next(w: World, d: Disk, step: Step): Disk {
    match step
    case Operate(op, n) => Cut(d, Writes(w, d, op), n)
    case Edit(data) => d.(active := Some(data))
  }

  function Run(w: World, d: Disk, steps: seq<Step>): Disk {
    if steps == [] then d else Next(w, Run(w, d, steps[..|steps| - 1]), steps[|steps| - 1])
  }

  /** A step the callers may take, that does not mean to change account `p`. */
  ghost predicate Spares(w: World, keys: set<string>, d: Disk, step: Step, p: string) {
    match step
    case Operate(op, _) => Proper(w, keys, d, op) && Subject(w, d, op) != p
    case Edit(data) => ActiveKey(w, d) != "" && w.keyOf(data) == ActiveKey(w, d) && ActiveKey(w, d) != p
  }

  lemma EditSafe(w: World, keys: set<string>, d: Disk, data: Bytes, p: string)
    requires Valid(w, keys, d) && Spares(w, keys, d, Edit(data), p)
    ensures Valid(w, keys, d.(active := Some(data))) && Config(w, d.(active := Some(data)), p) == Config(w, d, p)
  {}

  /** No run of operations, each cut after any file write, and edits of the active
      configuration loses or changes the configuration of an account none of them is about;
      and the store stays valid throughout. */
  lemma {:induction false} NoConfigurationIsLost(w: World, keys: set<string>, d: Disk, steps: seq<Step>, p: string)
    requires Sane(w, keys) && Valid(w, keys, d) && Has(Index(d), p)
    requires forall i :: 0 <= i < |steps| ==> Spares(w, keys, Run(w, d, steps[..i]), steps[i], p)
    ensures var after := Run(w, d, steps);
            Valid(w, keys, after) && Has(Index(after), p) && Config(w, after, p) == Config(w, d, p)
    decreases |steps|
  {
    hide Valid, Has, Config, Proper, Subject, Writes, Cut, Sane;
    if steps != [] {
      var front := steps[..|steps| - 1];
      forall i | 0 <= i < |front| ensures Spares(w, keys, Run(w, d, front[..i]), front[i], p) {
        assert front[..i] == steps[..i];
        assert Spares(w, keys, Run(w, d, steps[..i]), steps[i], p);
      }
      NoConfigurationIsLost(w, keys, d, front, p);
      var mid := Run(w, d, front);
      assert Spares(w, keys, mid, steps[|steps| - 1], p);
      match steps[|steps| - 1]
      case Operate(op, n) => OperationIsSafe(w, keys, mid, op, n);
      case Edit(data) => EditSafe(w, keys, mid, data, p);
    }
  }
}
