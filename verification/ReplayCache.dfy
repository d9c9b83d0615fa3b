/** The reliable-control replay cache of the agent: a controller may repeat a request, and
    the cache makes sure it is executed once, answering repetitions with the frames of the
    first reply.  Entries expire, are evicted at capacity, and finished read replies share a
    byte budget.  Go picks eviction victims and iterates in map order; here the choice is an
    argument, so every statement covers every order. */
module ReplayCache {
  import opened Options
  import opened Octets
  import opened Sums

  // Times are milliseconds of a monotone clock.
  const REPLAY_TTL := 120_000
  const READ_TTL := 30_000
  const MAX_ENTRIES: nat := 256
  const MAX_READ_BYTES: nat := 2097152
  const MAX_READ_REPLY: nat := 524288

  datatype Key = Key(peer: string, request: nat, sequence: nat)

  /** `frames == []` marks a request that is still running.  `ready` names the channel that
      is closed when it ends. */
  datatype Entry = Entry(fingerprint: nat, frames: seq<Bytes>, bytes: nat, read: bool, ready: nat, expiresAt: int)

  datatype Request = Request(key: Key, fingerprint: nat, read: bool, resend: bool)

  datatype Ticket = Ticket(key: Key, fingerprint: nat)

  datatype BeginResult =
    | Execute(ticket: Ticket)
    | Wait(ready: nat)
    | Reused
    | Miss
    | Full

  type Entries = map<Key, Entry>

  /** `closes` counts how often each channel has been closed. */
  datatype Cache = Cache(entries: Entries, closes: multiset<nat>, nextChannel: nat)

  function FrameBytes(frames: seq<Bytes>): nat {
    if frames == [] then 0 else FrameBytes(frames[..|frames| - 1]) + |frames[|frames| - 1]|
  }

  ghost predicate Finished(e: Entries, k: Key) { k in e && e[k].frames != [] }
  ghost predicate FinishedRead(e: Entries, k: Key) { k in e && e[k].frames != [] && e[k].read }

  // ------------------------------------------------------------------- begin

  function Unexpired(e: Entries, now: int): Entries {
    map k | k in e && now <= e[k].expiresAt :: e[k]
  }

  ghost predicate OldestFinished(e: Entries, k: Key) {
    Finished(e, k) && forall j :: Finished(e, j) ==> e[k].expiresAt <= e[j].expiresAt
  }

  function Fresh(req: Request, now: int, ready: nat): Entry {
    Entry(req.fingerprint, [], 0, req.read, ready, now + REPLAY_TTL)
  }

  function Kept(live: Entries, victim: Key): Entries {
    if |live| >= MAX_ENTRIES then live - {victim} else live
  }

  /** `beginControlReplay` up to its wait; `victim` is the entry evicted at capacity. */
  ghost predicate Begins(c: Cache, req: Request, now: int, victim: Key, after: Cache, result: BeginResult) {
    var live := Unexpired(c.entries, now);
    if req.key in live then
      after == c.(entries := live)
      && result == if live[req.key].fingerprint != req.fingerprint then Reused else Wait(live[req.key].ready)
    else if req.resend && req.read then
      after == c.(entries := live) && result == Miss
    else if |live| >= MAX_ENTRIES && forall k :: k in live ==> live[k].frames == [] then
      after == c.(entries := live) && result == Full
    else
      && (|live| >= MAX_ENTRIES ==> OldestFinished(live, victim))
      && after == Cache(Kept(live, victim)[req.key := Fresh(req, now, c.nextChannel)], c.closes, c.nextChannel + 1)
      && result == Execute(Ticket(req.key, req.fingerprint))
  }

  // --------------------------------------------------------- complete and abort

  ghost function ReadSizes(e: Entries): map<Key, nat> {
    map k | FinishedRead(e, k) && k in e :: e[k].bytes
  }

  ghost function ReadBytes(e: Entries): nat { Total(ReadSizes(e)) }

  ghost predicate OldestRead(e: Entries, keep: Key, k: Key) {
    FinishedRead(e, k) && k != keep
    && forall j :: FinishedRead(e, j) && j != keep ==> e[k].expiresAt <= e[j].expiresAt
  }

  ghost predicate TrimDone(e: Entries, keep: Key) {
    ReadBytes(e) <= MAX_READ_BYTES || forall j :: FinishedRead(e, j) ==> j == keep
  }

  /** `trimReadReplayLocked`: evicts `victims` in turn, each the oldest finished read reply,
      each while the budget is exceeded, and stops as soon as the rest fits. */
  ghost predicate Trims(e: Entries, keep: Key, victims: seq<Key>, after: Entries)
    decreases |victims|
  {
    if victims == [] then after == e && TrimDone(e, keep)
    else !TrimDone(e, keep) && OldestRead(e, keep, victims[0]) && Trims(e - {victims[0]}, keep, victims[1..], after)
  }

  /** Whether `ticket` still owns a running entry. */
  ghost predicate Owns(e: Entries, ticket: Ticket) {
    ticket.key in e && e[ticket.key].fingerprint == ticket.fingerprint && e[ticket.key].frames == []
  }

  function Done(entry: Entry, frames: seq<Bytes>, now: int): Entry {
    entry.(frames := frames, bytes := FrameBytes(frames),
           expiresAt := now + if entry.read then READ_TTL else REPLAY_TTL)
  }

  ghost predicate TooLarge(entry: Entry, frames: seq<Bytes>) {
    entry.read && FrameBytes(frames) > MAX_READ_REPLY
  }

  ghost predicate Completes(c: Cache, ticket: Ticket, frames: seq<Bytes>, now: int, victims: seq<Key>, after: Cache) {
    if frames == [] || !Owns(c.entries, ticket) then after == c && victims == []
    else
      var entry := c.entries[ticket.key];
      && after.closes == c.closes + multiset{entry.ready} && after.nextChannel == c.nextChannel
      && if TooLarge(entry, frames) then after.entries == c.entries - {ticket.key} && victims == []
         else
           var filled := c.entries[ticket.key := Done(entry, frames, now)];
           if entry.read then Trims(filled, ticket.key, victims, after.entries)
           else after.entries == filled && victims == []
  }

  ghost function Aborted(c: Cache, ticket: Ticket): Cache {
    if !Owns(c.entries, ticket) then c
    else Cache(c.entries - {ticket.key}, c.closes + multiset{c.entries[ticket.key].ready}, c.nextChannel)
  }

  // ---------------------------------------------------------------- cache invariant

  /** Holds in every reachable state whatever the tickets do: capacity, sizes, and a channel
      that is closed exactly when its entry is finished. */
  ghost predicate EntryOk(c: Cache, k: Key)
    requires k in c.entries
  {
    var entry := c.entries[k];
    && entry.ready < c.nextChannel
    && c.closes[entry.ready] == (if entry.frames == [] then 0 else 1)
    && (entry.frames == [] ==> entry.bytes == 0)
    && (entry.frames != [] ==> entry.bytes == FrameBytes(entry.frames))
    && (entry.read ==> entry.bytes <= MAX_READ_REPLY)
  }

  ghost predicate Channels(c: Cache) {
    && (forall k :: k in c.entries ==> EntryOk(c, k))
    && (forall j, k :: j in c.entries && k in c.entries && c.entries[j].ready == c.entries[k].ready ==> j == k)
    && (forall r :: c.closes[r] <= 1) && (forall r :: r >= c.nextChannel ==> c.closes[r] == 0)
  }

  ghost predicate CacheInv(c: Cache) {
    Channels(c) && |c.entries| <= MAX_ENTRIES && ReadBytes(c.entries) <= MAX_READ_BYTES
  }

  lemma {:induction false} SmallerTotal(small: map<Key, nat>, big: map<Key, nat>)
    requires forall k :: k in small ==> k in big && small[k] == big[k]
    ensures Total(small) <= Total(big)
  {
    TotalSplit(big, small.Keys);
    assert big - (big.Keys - small.Keys) == small;
  }

  /** Dropping entries shrinks the byte total and keeps the invariant. */
  lemma DropKeeps(c: Cache, e: Entries)
    requires CacheInv(c) && forall k :: k in e ==> k in c.entries && e[k] == c.entries[k]
    ensures CacheInv(c.(entries := e))
  {
    hide Total, Channels;
    SmallerTotal(ReadSizes(e), ReadSizes(c.entries));
    assert e.Keys <= c.entries.Keys;
    SubsetSize(e.Keys, c.entries.Keys);
    DropChannels(c, e);
  }

  lemma BeginKeeps(c: Cache, req: Request, now: int, victim: Key, after: Cache, result: BeginResult)
    requires CacheInv(c) && Begins(c, req, now, victim, after, result)
    ensures CacheInv(after)
  {
    hide CacheInv, OldestFinished, Fresh;
    var live := Unexpired(c.entries, now);
    DropKeeps(c, live);
    if result.Execute? {
      var kept := Kept(live, victim);
      DropKeeps(c, kept);
      KeptSmall(c, now, victim);
      InsertKeeps(c.(entries := kept), req, now);
    }
  }

  lemma KeptSmall(c: Cache, now: int, victim: Key)
    requires CacheInv(c)
    ensures var live := Unexpired(c.entries, now);
            |live| <= MAX_ENTRIES && (OldestFinished(live, victim) ==> |live - {victim}| == |live| - 1)
  {
    var live := Unexpired(c.entries, now);
    SubsetSize(live.Keys, c.entries.Keys);
    if OldestFinished(live, victim) {
      assert live.Keys == (live - {victim}).Keys + {victim};
    }
  }

  lemma InsertKeeps(c: Cache, req: Request, now: int)
    requires CacheInv(c) && |c.entries| < MAX_ENTRIES && req.key !in c.entries
    ensures CacheInv(Cache(c.entries[req.key := Fresh(req, now, c.nextChannel)], c.closes, c.nextChannel + 1))
  {
    hide FrameBytes, Total;
    var after := Cache(c.entries[req.key := Fresh(req, now, c.nextChannel)], c.closes, c.nextChannel + 1);
    assert ReadSizes(after.entries) == ReadSizes(c.entries);
    forall k | k in after.entries ensures EntryOk(after, k) {
      assert k in c.entries ==> EntryOk(c, k);
    }
  }

  /** Closing the running owner's channel: it was open, and no other entry uses it. */
  lemma CloseKeeps(c: Cache, ticket: Ticket)
    requires CacheInv(c) && Owns(c.entries, ticket)
    ensures c.closes[c.entries[ticket.key].ready] == 0
    ensures CacheInv(Aborted(c, ticket))
  {
    hide FrameBytes, Total, FinishedRead;
    assert EntryOk(c, ticket.key);
    var after := Aborted(c, ticket);
    DropKeeps(c, after.entries);
    forall k | k in after.entries ensures EntryOk(after, k) {
      assert EntryOk(c, k);
    }
  }

  lemma {:induction false} TrimShrinks(e: Entries, keep: Key, victims: seq<Key>, after: Entries)
    requires Trims(e, keep, victims, after)
    ensures forall k :: k in after ==> k in e && after[k] == e[k]
    ensures forall k :: k in e && k !in after ==> FinishedRead(e, k) && k != keep && k in victims
    ensures TrimDone(after, keep)
    decreases |victims|
  {
    hide ReadBytes;
    if victims != [] {
      var rest := e - {victims[0]};
      TrimShrinks(rest, keep, victims[1..], after);
      forall k | k in e && k !in after ensures FinishedRead(e, k) && k != keep && k in victims {
        if k != victims[0] {
          assert k in rest && FinishedRead(rest, k);
        }
      }
    }
  }

  /** A byte total over the kept reply alone is within the budget, so trimming ends within it. */
  lemma TrimFits(e: Entries, keep: Key)
    requires TrimDone(e, keep) && FinishedRead(e, keep) && e[keep].bytes <= MAX_READ_REPLY
    ensures ReadBytes(e) <= MAX_READ_BYTES
  {
    if forall j :: FinishedRead(e, j) ==> j == keep {
      var sizes := ReadSizes(e);
      assert sizes == map[keep := e[keep].bytes];
      TotalRemove(sizes, keep);
      assert sizes - {keep} == map[];
    }
  }

  lemma FillChannels(c: Cache, ticket: Ticket, frames: seq<Bytes>, now: int)
    requires Channels(c) && Owns(c.entries, ticket) && frames != [] && !TooLarge(c.entries[ticket.key], frames)
    ensures var entry := c.entries[ticket.key];
            Channels(Cache(c.entries[ticket.key := Done(entry, frames, now)], c.closes + multiset{entry.ready},
                           c.nextChannel))
  {
    hide FrameBytes;
    var entry := c.entries[ticket.key];
    var after := Cache(c.entries[ticket.key := Done(entry, frames, now)], c.closes + multiset{entry.ready},
                       c.nextChannel);
    assert EntryOk(c, ticket.key);
    forall k | k in after.entries ensures EntryOk(after, k) {
      assert EntryOk(c, k);
    }
  }

  lemma DropChannels(c: Cache, e: Entries)
    requires Channels(c) && forall k :: k in e ==> k in c.entries && e[k] == c.entries[k]
    ensures Channels(c.(entries := e))
  {
    hide FrameBytes;
    forall k | k in e ensures EntryOk(c.(entries := e), k) {
      assert EntryOk(c, k);
    }
  }

  lemma FillKeeps(c: Cache, ticket: Ticket, frames: seq<Bytes>, now: int, victims: seq<Key>, after: Cache)
    requires CacheInv(c) && Owns(c.entries, ticket) && frames != [] && !TooLarge(c.entries[ticket.key], frames)
    requires Completes(c, ticket, frames, now, victims, after)
    ensures CacheInv(after)
  {
    hide ReadBytes, FrameBytes, Trims, Channels;
    var key, entry := ticket.key, c.entries[ticket.key];
    var filled := c.entries[key := Done(entry, frames, now)];
    FillChannels(c, ticket, frames, now);
    assert filled.Keys == c.entries.Keys;
    if entry.read {
      TrimShrinks(filled, key, victims, after.entries);
      DropChannels(Cache(filled, after.closes, c.nextChannel), after.entries);
      TrimFits(after.entries, key);
      SubsetSize(after.entries.Keys, filled.Keys);
    } else {
      SameReads(c.entries, key, Done(entry, frames, now));
    }
  }

  lemma SameReads(e: Entries, key: Key, entry: Entry)
    requires key in e && !e[key].read && !entry.read
    ensures ReadBytes(e[key := entry]) == ReadBytes(e)
  {
    assert ReadSizes(e[key := entry]) == ReadSizes(e);
  }

  lemma CompleteKeeps(c: Cache, ticket: Ticket, frames: seq<Bytes>, now: int, victims: seq<Key>, after: Cache)
    requires CacheInv(c) && Completes(c, ticket, frames, now, victims, after)
    ensures CacheInv(after)
  {
    hide CacheInv, FrameBytes, Trims;
    if frames != [] && Owns(c.entries, ticket) {
      if TooLarge(c.entries[ticket.key], frames) {
        CloseKeeps(c, ticket);
        assert after == Aborted(c, ticket);
      } else {
        FillKeeps(c, ticket, frames, now, victims, after);
      }
    }
  }

  // ------------------------------------------------------------ the locked sections

  ghost function Among(e: Entries, seen: set<Key>): Entries { map k | k in e && k in seen :: e[k] }

  /** Adding one entry to the scanned part adds its bytes if it is a finished read reply. */
  lemma ScanOne(e: Entries, seen: set<Key>, k: Key)
    requires k in e && k !in seen
    ensures ReadBytes(Among(e, seen + {k})) ==
            ReadBytes(Among(e, seen)) + if e[k].read && e[k].frames != [] then e[k].bytes else 0
  {
    var before, now := ReadSizes(Among(e, seen)), ReadSizes(Among(e, seen + {k}));
    if FinishedRead(e, k) {
      assert now == before[k := e[k].bytes];
      TotalInsert(before, k, e[k].bytes);
    } else {
      assert now == before;
    }
  }

  class ControlReplay {
    var entries: Entries
    var closes: multiset<nat>
    var nextChannel: nat

    ghost function View(): Cache reads this { Cache(entries, closes, nextChannel) }

    constructor ()
      ensures View() == Cache(map[], multiset{}, 0)
    {
      entries, closes, nextChannel := map[], multiset{}, 0;
    }

    /** Closing a closed channel panics in Go, so the caller must show it is open. */
    method Close(ready: nat)
      requires closes[ready] == 0
      modifies this`closes
      ensures closes == old(closes) + multiset{ready}
    {
      closes := closes + multiset{ready};
    }

    method DropExpired(now: int)
      modifies this`entries
      ensures entries == Unexpired(old(entries), now)
    {
      ghost var before := entries;
      var todo := entries.Keys;
      while todo != {}
        invariant todo <= before.Keys
        invariant entries == map k | k in before && (k in todo || now <= before[k].expiresAt) :: before[k]
        decreases |todo|
      {
        var k :| k in todo;
        todo := todo - {k};
        if now > entries[k].expiresAt {
          entries := entries - {k};
        }
      }
    }

    method FindOldestFinished() returns (found: bool, oldest: Key)
      ensures !found ==> forall k :: k in entries ==> entries[k].frames == []
      ensures found ==> OldestFinished(entries, oldest)
    {
      found, oldest := false, Key("", 0, 0);
      var todo := entries.Keys;
      while todo != {}
        invariant todo <= entries.Keys
        invariant !found ==> forall k :: k in entries && k !in todo ==> entries[k].frames == []
        invariant found ==> Finished(entries, oldest)
        invariant found ==>
                    forall k :: Finished(entries, k) && k !in todo ==> entries[oldest].expiresAt <= entries[k].expiresAt
        decreases |todo|
      {
        var k :| k in todo;
        todo := todo - {k};
        if entries[k].frames != [] && (!found || entries[k].expiresAt < entries[oldest].expiresAt) {
          found, oldest := true, k;
        }
      }
    }

    /** Registers a request, or says why it must not be executed.  A repetition of a request
        in the cache waits on the returned channel and then asks `Replay`. */
    method BeginControlReplay(req: Request, now: int) returns (result: BeginResult, ghost victim: Key)
      modifies this
      ensures Begins(old(View()), req, now, victim, View(), result)
    {
      victim := req.key;
      DropExpired(now);
      if req.key in entries {
        result := if entries[req.key].fingerprint != req.fingerprint then Reused else Wait(entries[req.key].ready);
        return;
      }
      if req.resend && req.read {
        return Miss, victim;
      }
      if |entries| >= MAX_ENTRIES {
        var found, oldest := FindOldestFinished();
        if !found {
          return Full, victim;
        }
        victim := oldest;
        entries := entries - {oldest};
      }
      entries := entries[req.key := Fresh(req, now, nextChannel)];
      nextChannel := nextChannel + 1;
      result := Execute(Ticket(req.key, req.fingerprint));
    }

    /** A waiter whose channel has been closed: it is answered with the frames of the finished
        entry of its key, and whenever the entry it waited for is still there it is answered. */
    method Replay(key: Key, ready: nat) returns (frames: seq<Bytes>)
      requires CacheInv(View()) && closes[ready] > 0
      ensures frames != [] <==> Finished(entries, key)
      ensures Finished(entries, key) ==> frames == entries[key].frames && closes[entries[key].ready] == 1
      ensures key in entries && entries[key].ready == ready ==> frames != []
    {
      hide ReadBytes;
      assert key in entries ==> EntryOk(View(), key);
      if key !in entries || |entries[key].frames| == 0 {
        return [];
      }
      frames := entries[key].frames;
    }

    method CompleteControlReplay(ticket: Ticket, frames: seq<Bytes>, now: int) returns (ghost victims: seq<Key>)
      requires CacheInv(View())
      modifies this
      ensures Completes(old(View()), ticket, frames, now, victims, View())
      ensures CacheInv(View())
    {
      hide CacheInv, Trims, ReadBytes, FrameBytes;
      victims := [];
      if frames == [] || ticket.key !in entries || entries[ticket.key].fingerprint != ticket.fingerprint
         || entries[ticket.key].frames != [] {
        return;
      }
      CloseKeeps(View(), ticket);
      var entry := entries[ticket.key];
      var size := TotalFrameBytes(frames);
      if entry.read && size > MAX_READ_REPLY {
        entries := entries - {ticket.key};
        Close(entry.ready);
      } else {
        entries := entries[ticket.key := Done(entry, frames, now)];
        Close(entry.ready);
        if entry.read {
          victims := TrimReadReplay(ticket.key);
        }
      }
      CompleteKeeps(old(View()), ticket, frames, now, victims, View());
    }

    static method TotalFrameBytes(frames: seq<Bytes>) returns (size: nat)
      ensures size == FrameBytes(frames)
    {
      size := 0;
      for i := 0 to |frames|
        invariant size == FrameBytes(frames[..i])
      {
        size := size + |frames[i]|;
        assert frames[..i + 1][..i] == frames[..i];
      }
      assert frames[..|frames|] == frames;
    }

    /** One scan of `trimReadReplayLocked`: the byte total and the oldest evictable reply. */
    method ScanReads(keep: Key) returns (total: nat, found: bool, oldest: Key)
      ensures total == ReadBytes(entries)
      ensures !found ==> forall j :: FinishedRead(entries, j) ==> j == keep
      ensures found ==> OldestRead(entries, keep, oldest)
    {
      hide ReadBytes;
      total, found, oldest := 0, false, keep;
      var todo := entries.Keys;
      ghost var seen: set<Key> := {};
      NothingScanned(entries);
      while todo != {}
        invariant todo !! seen && todo + seen == entries.Keys
        invariant total == ReadBytes(Among(entries, seen))
        invariant !found ==> forall j :: FinishedRead(entries, j) && j !in todo ==> j == keep
        invariant found ==> FinishedRead(entries, oldest) && oldest != keep
        invariant found ==>
                    forall j :: FinishedRead(entries, j) && j !in todo && j != keep ==>
                      entries[oldest].expiresAt <= entries[j].expiresAt
        decreases |todo|
      {
        var k :| k in todo;
        ScanOne(entries, seen, k);
        todo, seen := todo - {k}, seen + {k};
        if entries[k].read && entries[k].frames != [] {
          total := total + entries[k].bytes;
          if k != keep && (!found || entries[k].expiresAt < entries[oldest].expiresAt) {
            found, oldest := true, k;
          }
        }
      }
      assert Among(entries, seen) == entries;
    }

    /** Evicts the oldest kept read replies until they fit; the number of finished read
        replies falls at every eviction. */
    method TrimReadReplay(keep: Key) returns (ghost victims: seq<Key>)
      modifies this`entries
      ensures Trims(old(entries), keep, victims, entries)
    {
      hide ReadBytes, Trims, TrimsAfter;
      ghost var before := entries;
      victims := [];
      TrimsStart(entries, keep);
      var done := false;
      while !done
        invariant TrimsAfter(before, keep, victims, entries)
        invariant done ==> TrimDone(entries, keep)
        decreases !done, |set k | k in entries && FinishedRead(entries, k)|
      {
        var total, found, oldest := ScanReads(keep);
        if total <= MAX_READ_BYTES || !found {
          done := true;
        } else {
          TrimsStep(before, keep, victims, entries, oldest);
          FewerReads(entries, oldest);
          entries := entries - {oldest};
          victims := victims + [oldest];
        }
      }
      TrimsEnd(before, keep, victims, entries);
    }

    method AbortControlReplay(ticket: Ticket)
      requires CacheInv(View())
      modifies this
      ensures View() == Aborted(old(View()), ticket)
      ensures CacheInv(View())
    {
      hide CacheInv;
      if ticket.key !in entries {
        return;
      }
      if entries[ticket.key].fingerprint != ticket.fingerprint || entries[ticket.key].frames != [] {
        return;
      }
      CloseKeeps(View(), ticket);
      var entry := entries[ticket.key];
      entries := entries - {ticket.key};
      Close(entry.ready);
    }
  }

  lemma NothingScanned(e: Entries)
    ensures ReadBytes(Among(e, {})) == 0
  {
    assert ReadSizes(Among(e, {})) == map[];
  }

  /** Whatever trims `e` trims `before` once `victims` have gone first. */
  ghost predicate TrimsAfter(before: Entries, keep: Key, victims: seq<Key>, e: Entries) {
    forall more, last :: Trims(e, keep, more, last) ==> Trims(before, keep, victims + more, last)
  }

  lemma TrimsStart(e: Entries, keep: Key)
    ensures TrimsAfter(e, keep, [], e)
  {
    assert forall more: seq<Key> :: [] + more == more;
  }

  lemma TrimsStep(before: Entries, keep: Key, victims: seq<Key>, e: Entries, oldest: Key)
    requires TrimsAfter(before, keep, victims, e) && !TrimDone(e, keep) && OldestRead(e, keep, oldest)
    ensures TrimsAfter(before, keep, victims + [oldest], e - {oldest})
  {
    hide TrimDone, OldestRead;
    forall more, last | Trims(e - {oldest}, keep, more, last)
      ensures Trims(before, keep, victims + [oldest] + more, last)
    {
      assert ([oldest] + more)[1..] == more;
      assert Trims(e, keep, [oldest] + more, last);
      assert victims + [oldest] + more == victims + ([oldest] + more);
    }
  }

  lemma TrimsEnd(before: Entries, keep: Key, victims: seq<Key>, e: Entries)
    requires TrimsAfter(before, keep, victims, e) && TrimDone(e, keep)
    ensures Trims(before, keep, victims, e)
  {
    assert Trims(e, keep, [], e) && victims + [] == victims;
  }

  lemma FewerReads(e: Entries, k: Key)
    requires FinishedRead(e, k)
    ensures |set j | j in e - {k} && FinishedRead(e - {k}, j)| < |set j | j in e && FinishedRead(e, j)|
  {
    var big, small := set j | j in e && FinishedRead(e, j), set j | j in e - {k} && FinishedRead(e - {k}, j);
    assert big == small + {k};
  }

  // -------------------------------------------------------- requests, tickets, runs

  /** What one locked section did, in order: entries gone, then an execution started. */
  datatype Event =
    | Began(expired: set<Key>, evicted: set<Key>, started: Option<Key>)
    | Ended(key: Key, frames: seq<Bytes>, kept: bool, trimmed: set<Key>)
    | GaveUp(key: Key)
    | Idle

  /** A request being executed, under the channel created for it; `deadline` is the end of
      its lifetime. */
  datatype Running = Running(ticket: Ticket, deadline: int)

  datatype System = System(c: Cache, now: int, running: map<nat, Running>, history: seq<Event>)

  datatype Label =
    | BeginStep(req: Request, at: int, victim: Key, result: BeginResult)
    | CompleteStep(id: nat, frames: seq<Bytes>, at: int, victims: seq<Key>)
    | AbortStep(id: nat, at: int)

  const EMPTY := System(Cache(map[], multiset{}, 0), 0, map[], [])

  ghost function BeginEvent(s: System, l: Label): Event
    requires l.BeginStep?
  {
    var live := Unexpired(s.c.entries, l.at);
    Began(s.c.entries.Keys - live.Keys,
          if l.result.Execute? && |live| >= MAX_ENTRIES then {l.victim} else {},
          if l.result.Execute? then Some(l.req.key) else None)
  }

  ghost function CompleteEvent(s: System, l: Label): Event
    requires l.CompleteStep? && l.id in s.running
  {
    var ticket := s.running[l.id].ticket;
    if !Owns(s.c.entries, ticket) then Idle
    else Ended(ticket.key, l.frames, !TooLarge(s.c.entries[ticket.key], l.frames), set k | k in l.victims)
  }

  ghost predicate Step(s: System, l: Label, after: System) {
    && l.at >= s.now && after.now == l.at
    && match l
       case BeginStep(req, at, victim, result) =>
         && Begins(s.c, req, at, victim, after.c, result)
         && after.running == (if !result.Execute? then s.running
                              else s.running[s.c.nextChannel := Running(result.ticket, at + REPLAY_TTL)])
         && after.history == s.history + [BeginEvent(s, l)]
       case CompleteStep(id, frames, at, victims) =>
         // A reply always has at least one frame.
         && id in s.running && frames != []
         && Completes(s.c, s.running[id].ticket, frames, at, victims, after.c)
         && after.running == s.running - {id}
         && after.history == s.history + [CompleteEvent(s, l)]
       case AbortStep(id, at) =>
         && id in s.running
         && after.c == Aborted(s.c, s.running[id].ticket)
         && after.running == s.running - {id}
         && var ticket := s.running[id].ticket;
         after.history == s.history + [if Owns(s.c.entries, ticket) then GaveUp(ticket.key) else Idle]
  }

  ghost predicate Run(states: seq<System>, labels: seq<Label>) {
    && |states| == |labels| + 1 && states[0] == EMPTY
    && forall i :: 0 <= i < |labels| ==> Step(states[i], labels[i], states[i + 1])
  }

  /** No request begins after the lifetime of one that is still being executed. */
  ghost predicate Timely(s: System, l: Label) {
    l.BeginStep? ==> forall id :: id in s.running ==> l.at <= s.running[id].deadline
  }

  ghost predicate TimelyRun(states: seq<System>, labels: seq<Label>) {
    Run(states, labels) && forall i :: 0 <= i < |labels| ==> Timely(states[i], labels[i])
  }

  lemma StepKeepsCache(s: System, l: Label, after: System)
    requires CacheInv(s.c) && Step(s, l, after)
    ensures CacheInv(after.c)
  {
    hide CacheInv, Begins, Completes, BeginEvent, CompleteEvent;
    match l
    case BeginStep(req, at, victim, result) => BeginKeeps(s.c, req, at, victim, after.c, result);
    case CompleteStep(id, frames, at, victims) =>
      CompleteKeeps(s.c, s.running[id].ticket, frames, at, victims, after.c);
    case AbortStep(id, at) =>
      if Owns(s.c.entries, s.running[id].ticket) {
        CloseKeeps(s.c, s.running[id].ticket);
      }
  }

  /** In every reachable state, whatever the tickets do: at most 256 entries, finished read
      replies within 2 MiB, and no channel closed twice. */
  lemma {:induction false} CacheIsBounded(states: seq<System>, labels: seq<Label>, i: nat)
    requires Run(states, labels) && i < |states|
    ensures CacheInv(states[i].c)
    ensures |states[i].c.entries| <= 256 && ReadBytes(states[i].c.entries) <= 2_097_152
    ensures forall r :: states[i].c.closes[r] <= 1
  {
    if i == 0 {
      assert ReadSizes(EMPTY.c.entries) == map[];
    } else {
      CacheIsBounded(states, labels, i - 1);
      hide Step, ReadBytes;
      StepKeepsCache(states[i - 1], labels[i - 1], states[i]);
    }
  }

  /** Capacity eviction and byte eviction never remove a running request: a running entry that
      a step does not itself end stays exactly as it was, unless the step begins a request after
      the entry has expired. */
  lemma RunningNeverEvicted(s: System, l: Label, after: System, k: Key)
    requires CacheInv(s.c) && Step(s, l, after)
    requires k in s.c.entries && s.c.entries[k].frames == []
    requires !l.BeginStep? ==> l.id in s.running ==> s.running[l.id].ticket.key != k
    ensures k in after.c.entries && after.c.entries[k] == s.c.entries[k]
            <==> !(l.BeginStep? && l.at > s.c.entries[k].expiresAt)
  {
    hide CacheInv, ReadBytes, FrameBytes, Trims, BeginEvent, CompleteEvent, Begins, Fresh, Unexpired;
    if l.BeginStep? {
      BeginSpares(s.c, l.req, l.at, l.victim, after.c, l.result, k);
    } else if l.CompleteStep? {
      var ticket := s.running[l.id].ticket;
      if Owns(s.c.entries, ticket) && !TooLarge(s.c.entries[ticket.key], l.frames) && s.c.entries[ticket.key].read {
        var filled := s.c.entries[ticket.key := Done(s.c.entries[ticket.key], l.frames, l.at)];
        TrimShrinks(filled, ticket.key, l.victims, after.c.entries);
      }
    }
  }

  lemma BeginSpares(c: Cache, req: Request, now: int, victim: Key, after: Cache, result: BeginResult, k: Key)
    requires CacheInv(c) && Begins(c, req, now, victim, after, result)
    requires k in c.entries && c.entries[k].frames == []
    ensures k in after.entries && after.entries[k] == c.entries[k] <==> now <= c.entries[k].expiresAt
  {
    hide ReadBytes, FrameBytes;
    assert EntryOk(c, k);
  }

  // --------------------------------------------------------------- the history

  ghost predicate Starts(ev: Event, k: Key) { ev.Began? && ev.started == Some(k) }
  ghost predicate Resolves(ev: Event, k: Key) { (ev.Ended? || ev.GaveUp?) && ev.key == k }

  /** The reply (or the running entry) of `k` went away: expiry, eviction, abort, or a reply
      too large to keep. */
  ghost predicate Releases(ev: Event, k: Key) {
    match ev
    case Began(expired, evicted, _) => k in expired || k in evicted
    case Ended(key, _, kept, trimmed) => (key == k && !kept) || k in trimmed
    case GaveUp(key) => key == k
    case Idle => false
  }

  /** Since its last start, `k` has not been released; has not been resolved; last replied. */
  ghost predicate Live(h: seq<Event>, k: Key) {
    h != [] && var ev := h[|h| - 1]; Starts(ev, k) || (!Releases(ev, k) && Live(h[..|h| - 1], k))
  }

  ghost predicate Open(h: seq<Event>, k: Key) {
    h != [] && var ev := h[|h| - 1]; Starts(ev, k) || (!Resolves(ev, k) && Open(h[..|h| - 1], k))
  }

  ghost function LastReply(h: seq<Event>, k: Key): seq<Bytes> {
    if h == [] then []
    else if h[|h| - 1].Ended? && h[|h| - 1].key == k then h[|h| - 1].frames
    else LastReply(h[..|h| - 1], k)
  }

  /** An execution starts only when the previous one is resolved and its entry released; an
      entry is dropped by expiry or eviction only when it is not being executed. */
  ghost predicate InOrder(h: seq<Event>, ev: Event) {
    && (forall k :: Starts(ev, k) ==> !Open(h, k) && (Live(h, k) ==> Releases(ev, k)))
    && (forall k :: Releases(ev, k) && !Resolves(ev, k) ==> !Open(h, k))
  }

  ghost predicate Ordered(h: seq<Event>) {
    h == [] || (Ordered(h[..|h| - 1]) && InOrder(h[..|h| - 1], h[|h| - 1]))
  }

  lemma After(h: seq<Event>, ev: Event, k: Key)
    ensures Live(h + [ev], k) == (Starts(ev, k) || (!Releases(ev, k) && Live(h, k)))
    ensures Open(h + [ev], k) == (Starts(ev, k) || (!Resolves(ev, k) && Open(h, k)))
    ensures LastReply(h + [ev], k) == if ev.Ended? && ev.key == k then ev.frames else LastReply(h, k)
  {
    assert (h + [ev])[..|h|] == h;
  }

  lemma {:induction false} OrderedAt(h: seq<Event>, n: nat)
    requires Ordered(h) && n < |h|
    ensures InOrder(h[..n], h[n])
    decreases |h|
  {
    hide InOrder;
    if n < |h| - 1 {
      OrderedAt(h[..|h| - 1], n);
      assert h[..|h| - 1][..n] == h[..n];
    }
  }

  lemma {:induction false} ReleasedSince(h: seq<Event>, k: Key, i: nat, j: nat) returns (n: nat)
    requires i < j <= |h| && Starts(h[i], k) && !Live(h[..j], k)
    ensures i < n < j && Releases(h[n], k)
    decreases j
  {
    assert h[..j][..j - 1] == h[..j - 1] && h[..j][j - 1] == h[j - 1];
    if Releases(h[j - 1], k) && i < j - 1 {
      n := j - 1;
    } else {
      n := ReleasedSince(h, k, i, j - 1);
    }
  }

  lemma {:induction false} ResolvedSince(h: seq<Event>, k: Key, i: nat, j: nat) returns (m: nat)
    requires i < j <= |h| && Starts(h[i], k) && !Open(h[..j], k)
    ensures i < m < j && Resolves(h[m], k)
    decreases j
  {
    assert h[..j][..j - 1] == h[..j - 1] && h[..j][j - 1] == h[j - 1];
    if Resolves(h[j - 1], k) && i < j - 1 {
      m := j - 1;
    } else {
      m := ResolvedSince(h, k, i, j - 1);
    }
  }

  /** Between two executions of one key, the first is resolved and then its reply released. */
  lemma Separated(h: seq<Event>, k: Key, i: nat, j: nat) returns (m: nat, n: nat)
    requires Ordered(h) && i < j < |h| && Starts(h[i], k) && Starts(h[j], k)
    ensures i < m <= n <= j && m < j && Resolves(h[m], k) && Releases(h[n], k)
  {
    OrderedAt(h, j);
    if Live(h[..j], k) {
      m := ResolvedSince(h, k, i, j);
      n := j;
    } else {
      n := ReleasedSince(h, k, i, j);
      if Resolves(h[n], k) {
        m := n;
      } else {
        OrderedAt(h, n);
        m := ResolvedSince(h, k, i, n);
      }
    }
  }

  // ------------------------------------------------- executions, when tickets are timely

  /** The ticket issued under channel `id` still owns its entry. */
  ghost predicate TicketOk(e: Entries, id: nat, r: Running) {
    Owns(e, r.ticket) && e[r.ticket.key].ready == id && e[r.ticket.key].expiresAt == r.deadline
  }

  ghost predicate Tickets(s: System) {
    && (forall id :: id in s.running ==> id < s.c.nextChannel && TicketOk(s.c.entries, id, s.running[id]))
    && (forall k :: k in s.c.entries && s.c.entries[k].frames == [] ==>
          s.c.entries[k].ready in s.running && s.running[s.c.entries[k].ready].ticket.key == k)
  }

  /** The history tells which keys are in the cache, which run, and the reply of the rest. */
  ghost predicate Recorded(e: Entries, h: seq<Event>, k: Key) {
    && (k in e <==> Live(h, k))
    && (Open(h, k) <==> k in e && e[k].frames == [])
    && (k in e && e[k].frames != [] ==> LastReply(h, k) == e[k].frames)
  }

  ghost predicate SystemInv(s: System) {
    CacheInv(s.c) && Tickets(s) && Ordered(s.history) && forall k :: Recorded(s.c.entries, s.history, k)
  }

  /** Appending an event that says what happened to each key keeps the record. */
  lemma RecordKeeps(e: Entries, h: seq<Event>, ev: Event, after: Entries)
    requires Ordered(h) && forall k :: Recorded(e, h, k)
    requires forall k :: Starts(ev, k) ==> (k in e ==> Releases(ev, k)) && k in after && after[k].frames == []
    requires forall k :: Releases(ev, k) && !Resolves(ev, k) ==> k in e && e[k].frames != []
    requires forall k :: Releases(ev, k) && !Starts(ev, k) ==> k in e && k !in after
    requires forall k :: Resolves(ev, k) ==> k in e && e[k].frames == [] && !Starts(ev, k)
    requires forall k :: ev.Ended? && ev.key == k && !Releases(ev, k) ==>
               k in after && after[k].frames == ev.frames && ev.frames != []
    requires forall k :: !Starts(ev, k) && !Releases(ev, k) && !Resolves(ev, k) ==>
               (k in after <==> k in e) && (k in e ==> after[k] == e[k])
    ensures Ordered(h + [ev]) && forall k :: Recorded(after, h + [ev], k)
  {
    hide Live, Open, LastReply;
    assert (h + [ev])[..|h|] == h;
    forall k ensures Recorded(after, h + [ev], k) {
      assert Recorded(e, h, k);
      After(h, ev, k);
    }
    forall k ensures Starts(ev, k) ==> !Open(h, k) && (Live(h, k) ==> Releases(ev, k))
             ensures Releases(ev, k) && !Resolves(ev, k) ==> !Open(h, k)
    {
      assert Recorded(e, h, k);
    }
  }

  lemma BeginRecords(s: System, l: Label, after: System)
    requires SystemInv(s) && Step(s, l, after) && l.BeginStep? && Timely(s, l)
    ensures Ordered(after.history) && forall k :: Recorded(after.c.entries, after.history, k)
  {
    hide CacheInv, Ordered, Recorded;
    var ev := BeginEvent(s, l);
    RecordKeeps(s.c.entries, s.history, ev, after.c.entries);
  }

  lemma BeginTickets(s: System, l: Label, after: System)
    requires SystemInv(s) && Step(s, l, after) && l.BeginStep? && Timely(s, l)
    ensures Tickets(after)
  {
    hide CacheInv, Ordered, Recorded, BeginEvent;
  }

  /** Completing the ticket under `id`: it owns its entry, and no other running ticket does. */
  lemma EndTickets(s: System, l: Label, after: System)
    requires SystemInv(s) && Step(s, l, after) && !l.BeginStep?
    ensures Tickets(after)
  {
    hide CacheInv, Ordered, Recorded, CompleteEvent, FrameBytes, Trims;
    var ticket := s.running[l.id].ticket;
    assert TicketOk(s.c.entries, l.id, s.running[l.id]);
    if l.CompleteStep? {
      CompleteEffect(s.c, ticket, l.frames, l.at, l.victims, after.c);
    }
    forall id | id in after.running ensures TicketOk(after.c.entries, id, after.running[id]) {
      assert TicketOk(s.c.entries, id, s.running[id]);
    }
  }

  /** What completing does to each entry. */
  lemma CompleteEffect(c: Cache, ticket: Ticket, frames: seq<Bytes>, now: int, victims: seq<Key>, after: Cache)
    requires Owns(c.entries, ticket) && frames != [] && Completes(c, ticket, frames, now, victims, after)
    ensures after.nextChannel == c.nextChannel
    ensures ticket.key in after.entries <==> !TooLarge(c.entries[ticket.key], frames)
    ensures ticket.key in after.entries ==> after.entries[ticket.key] == Done(c.entries[ticket.key], frames, now)
    ensures ticket.key !in victims
    ensures forall k :: k in after.entries && k != ticket.key ==>
              k in c.entries && after.entries[k] == c.entries[k] && k !in victims
    ensures forall k :: k in c.entries && k !in after.entries && k != ticket.key ==>
              Finished(c.entries, k) && k in victims
    ensures forall k :: k in victims ==> Finished(c.entries, k)
  {
    hide FrameBytes, Trims, ReadBytes;
    var key, entry := ticket.key, c.entries[ticket.key];
    if !TooLarge(entry, frames) && entry.read {
      var filled := c.entries[key := Done(entry, frames, now)];
      TrimShrinks(filled, key, victims, after.entries);
      TrimVictims(filled, key, victims, after.entries);
    }
  }

  lemma {:induction false} TrimVictims(e: Entries, keep: Key, victims: seq<Key>, after: Entries)
    requires Trims(e, keep, victims, after)
    ensures forall k :: k in victims ==> FinishedRead(e, k) && k != keep && k !in after
    decreases |victims|
  {
    hide ReadBytes;
    if victims != [] {
      var rest := e - {victims[0]};
      TrimVictims(rest, keep, victims[1..], after);
      TrimShrinks(rest, keep, victims[1..], after);
      forall k | k in victims ensures FinishedRead(e, k) && k != keep && k !in after {
        if k != victims[0] {
          assert k in victims[1..] && FinishedRead(rest, k);
        }
      }
    }
  }

  lemma EndRecords(s: System, l: Label, after: System)
    requires SystemInv(s) && Step(s, l, after) && !l.BeginStep?
    ensures Ordered(after.history) && forall k :: Recorded(after.c.entries, after.history, k)
  {
    hide CacheInv, Ordered, Recorded, FrameBytes, Trims, TooLarge;
    var ticket := s.running[l.id].ticket;
    assert TicketOk(s.c.entries, l.id, s.running[l.id]);
    if l.CompleteStep? {
      CompleteEffect(s.c, ticket, l.frames, l.at, l.victims, after.c);
      RecordKeeps(s.c.entries, s.history, CompleteEvent(s, l), after.c.entries);
    } else {
      RecordKeeps(s.c.entries, s.history, GaveUp(ticket.key), after.c.entries);
    }
  }

  lemma {:induction false} SystemKeeps(states: seq<System>, labels: seq<Label>, i: nat)
    requires TimelyRun(states, labels) && i < |states|
    ensures SystemInv(states[i])
  {
    hide CacheInv, Step, Tickets, Ordered, Recorded, ReadBytes;
    CacheIsBounded(states, labels, i);
    if i == 0 {
      EmptyKeeps();
    } else {
      SystemKeeps(states, labels, i - 1);
      var s, l, after := states[i - 1], labels[i - 1], states[i];
      assert Step(s, l, after) && Timely(s, l);
      if l.BeginStep? {
        BeginRecords(s, l, after);
        BeginTickets(s, l, after);
      } else {
        EndRecords(s, l, after);
        EndTickets(s, l, after);
      }
    }
  }

  lemma EmptyKeeps()
    ensures Tickets(EMPTY) && Ordered(EMPTY.history) && forall k :: Recorded(EMPTY.c.entries, EMPTY.history, k)
  {}

  /** At most once: while no request outlives its ticket's lifetime, two executions of one
      peer/request/sequence key never overlap, and between them the first one is resolved and
      then its entry goes by abort, expiry, eviction or because its reply was too large. */
  lemma ExecutedAtMostOnce(states: seq<System>, labels: seq<Label>, t: nat)
    requires TimelyRun(states, labels) && t < |states|
    ensures forall a, b ::
              a in states[t].running && b in states[t].running
              && states[t].running[a].ticket.key == states[t].running[b].ticket.key
              ==> a == b
    ensures var h := states[t].history;
            forall k, i, j :: 0 <= i < j < |h| && Starts(h[i], k) && Starts(h[j], k) ==>
              exists m, n :: i < m <= n <= j && m < j && Resolves(h[m], k) && Releases(h[n], k)
  {
    hide CacheInv, Ordered, Recorded;
    SystemKeeps(states, labels, t);
    var h := states[t].history;
    forall k, i, j | 0 <= i < j < |h| && Starts(h[i], k) && Starts(h[j], k)
      ensures exists m, n :: i < m <= n <= j && m < j && Resolves(h[m], k) && Releases(h[n], k)
    {
      var m, n := Separated(h, k, i, j);
    }
    forall a, b | a in states[t].running && b in states[t].running
                  && states[t].running[a].ticket.key == states[t].running[b].ticket.key
      ensures a == b
    {
      assert TicketOk(states[t].c.entries, a, states[t].running[a]);
      assert TicketOk(states[t].c.entries, b, states[t].running[b]);
    }
  }

  /** The finished entry a repetition is answered from, at once or after waiting, holds exactly
      the last reply of its key. */
  lemma ReplayIsLastReply(states: seq<System>, labels: seq<Label>, t: nat, key: Key)
    requires TimelyRun(states, labels) && t < |states|
    ensures var e, h := states[t].c.entries, states[t].history;
            Finished(e, key) ==> e[key].frames == LastReply(h, key) && Live(h, key)
  {
    SystemKeeps(states, labels, t);
    assert Recorded(states[t].c.entries, states[t].history, key);
  }

  lemma {:induction false} OldestAmong(e: Entries, keys: set<Key>) returns (k: Key)
    requires keys != {} && keys <= e.Keys
    ensures k in keys && forall j :: j in keys ==> e[k].expiresAt <= e[j].expiresAt
    decreases |keys|
  {
    k :| k in keys;
    if keys != {k} {
      var rest := OldestAmong(e, keys - {k});
      if e[rest].expiresAt < e[k].expiresAt {
        k := rest;
      }
    }
  }

  lemma OldestExists(e: Entries) returns (k: Key)
    requires exists j :: Finished(e, j)
    ensures OldestFinished(e, k)
  {
    var j :| Finished(e, j);
    var keys := set i | i in e && Finished(e, i);
    assert j in keys;
    k := OldestAmong(e, keys);
  }

  /** Room for one more entry: some are free, or a finished one can be evicted. */
  ghost predicate Room(live: Entries) { |live| < MAX_ENTRIES || exists k :: Finished(live, k) }

  ghost predicate CanStart(s: System, req: Request, at: int) {
    exists victim, result, after :: Step(s, BeginStep(req, at, victim, result), after) && result.Execute?
  }

  /** The lifetime condition is exact: while `id` runs, a repetition of its key can start a
      second, overlapping execution if and only if it arrives after the deadline, is not a
      request for fragments of a read, and the cache has room or a finished entry to evict. */
  lemma LifetimeIsExact(states: seq<System>, labels: seq<Label>, t: nat, id: nat, req: Request, at: int)
    requires TimelyRun(states, labels) && t < |states| && id in states[t].running
    requires req.key == states[t].running[id].ticket.key && at >= states[t].now
    ensures CanStart(states[t], req, at) <==>
            && at > states[t].running[id].deadline && !(req.resend && req.read)
            && Room(Unexpired(states[t].c.entries, at))
  {
    hide CacheInv, Ordered, Recorded, BeginEvent;
    SystemKeeps(states, labels, t);
    var s := states[t];
    assert TicketOk(s.c.entries, id, s.running[id]);
    var live := Unexpired(s.c.entries, at);
    if at > s.running[id].deadline && !(req.resend && req.read) && Room(live) {
      var victim := req.key;
      if |live| >= MAX_ENTRIES {
        victim := OldestExists(live);
      }
      assert |live| >= MAX_ENTRIES ==> OldestFinished(live, victim);
      StartsNow(s, req, at, victim);
    }
  }

  ghost function StartLabel(req: Request, at: int, victim: Key): Label {
    BeginStep(req, at, victim, Execute(Ticket(req.key, req.fingerprint)))
  }

  /** The system after a begin that starts an execution. */
  ghost function Started(s: System, req: Request, at: int, victim: Key): System {
    var l := StartLabel(req, at, victim);
    System(Cache(Kept(Unexpired(s.c.entries, at), victim)[req.key := Fresh(req, at, s.c.nextChannel)], s.c.closes,
                 s.c.nextChannel + 1),
           at, s.running[s.c.nextChannel := Running(l.result.ticket, at + REPLAY_TTL)], s.history + [BeginEvent(s, l)])
  }

  lemma StartsNow(s: System, req: Request, at: int, victim: Key)
    ensures var live := Unexpired(s.c.entries, at);
            at >= s.now && !(req.resend && req.read) && req.key !in live
            && (|live| >= MAX_ENTRIES ==> OldestFinished(live, victim))
            ==> Step(s, StartLabel(req, at, victim), Started(s, req, at, victim)) && CanStart(s, req, at)
  {
    hide BeginEvent, Unexpired;
  }

  /** Two requests with the same key are being executed. */
  ghost predicate Overlap(s: System) {
    exists a, b ::
      a in s.running && b in s.running && a != b && s.running[a].ticket.key == s.running[b].ticket.key
  }

  const SAMPLE := Request(Key("peer", 1, 1), 7, false, false)

  lemma SampleStarts(s: System, at: int)
    requires at >= s.now && Unexpired(s.c.entries, at) == map[]
    ensures Step(s, StartLabel(SAMPLE, at, SAMPLE.key), Started(s, SAMPLE, at, SAMPLE.key))
  {
    StartsNow(s, SAMPLE, at, SAMPLE.key);
  }

  /** One request, and its repetition after the lifetime: both are being executed. */
  lemma LateRepetitionOverlaps()
    ensures exists states, labels :: Run(states, labels) && |labels| == 2 && Overlap(states[2])
  {
    hide Step, BeginEvent;
    var key, late := SAMPLE.key, REPLAY_TTL + 1;
    var s := Started(EMPTY, SAMPLE, 0, key);
    var t := Started(s, SAMPLE, late, key);
    SampleStarts(EMPTY, 0);
    SampleStarts(s, late);
    assert 0 in t.running && 1 in t.running;
    assert Run([EMPTY, s, t], [StartLabel(SAMPLE, 0, key), StartLabel(SAMPLE, late, key)]) && Overlap([EMPTY, s, t][2]);
  }

  // ------------------------------------------------------------------------ handlers

  /** The goroutines that execute requests, by the channel of their execution.  The reply is
      completed with an error after five seconds even if the handler has not returned, so a
      handler can outlive its ticket. */
  datatype Hosted = Hosted(s: System, handlers: map<nat, Key>)

  datatype Move = Locked(l: Label) | Returns(id: nat)

  predicate Starting(m: Move) { m.Locked? && m.l.BeginStep? && m.l.result.Execute? }

  ghost predicate HostStep(h: Hosted, m: Move, after: Hosted) {
    match m
    case Locked(l) =>
      && Step(h.s, l, after.s)
      && after.handlers == if Starting(m) then h.handlers[h.s.c.nextChannel := l.req.key] else h.handlers
    case Returns(id) => id in h.handlers && after == h.(handlers := h.handlers - {id})
  }

  ghost predicate HostRun(hs: seq<Hosted>, ms: seq<Move>) {
    && |hs| == |ms| + 1 && hs[0] == Hosted(EMPTY, map[])
    && forall i :: 0 <= i < |ms| ==> HostStep(hs[i], ms[i], hs[i + 1])
  }

  /** Two handlers of one key are running. */
  ghost predicate Clash(h: Hosted) {
    exists a, b :: a in h.handlers && b in h.handlers && a != b && h.handlers[a] == h.handlers[b]
  }

  /** An execution starts while an earlier handler of its key is still running. */
  ghost predicate Restarts(h: Hosted, m: Move) {
    Starting(m) && exists id :: id in h.handlers && h.handlers[id] == m.l.req.key
  }

  /** A request arrives whose handler from before is still running, whose entry is gone or
      expired, that does not ask for fragments of a read, and for which there is room. */
  ghost predicate Arrives(h: Hosted, m: Move) {
    && m.Locked? && m.l.BeginStep?
    && var req, at, entries := m.l.req, m.l.at, h.s.c.entries;
    && (exists id :: id in h.handlers && h.handlers[id] == req.key)
    && (req.key !in entries || at > entries[req.key].expiresAt)
    && !(req.resend && req.read) && Room(Unexpired(entries, at))
  }

  /** Such a request, and no other, starts a second handler. */
  lemma RestartsIff(h: Hosted, m: Move, after: Hosted)
    requires HostStep(h, m, after)
    ensures Restarts(h, m) <==> Arrives(h, m)
  {
    hide BeginEvent, CompleteEvent, Trims, ReadBytes, FrameBytes, Fresh;
  }

  ghost predicate OldHandlers(h: Hosted) { forall id :: id in h.handlers ==> id < h.s.c.nextChannel }

  /** Channels are never reused, and a handler joins only by a start. */
  lemma HostStepKeeps(h: Hosted, m: Move, after: Hosted)
    requires OldHandlers(h) && HostStep(h, m, after)
    ensures OldHandlers(after)
    ensures Clash(after) ==> Clash(h) || Restarts(h, m)
    ensures Restarts(h, m) ==> Clash(after)
  {
    hide BeginEvent, CompleteEvent, Trims, ReadBytes, FrameBytes, Unexpired;
    var next := h.s.c.nextChannel;
    if Restarts(h, m) {
      var id :| id in h.handlers && h.handlers[id] == m.l.req.key;
      assert after.handlers[id] == after.handlers[next] && id != next;
    }
    if Clash(after) && !Restarts(h, m) {
      var a, b :| a in after.handlers && b in after.handlers && a != b && after.handlers[a] == after.handlers[b];
      assert a in h.handlers && b in h.handlers && h.handlers[a] == h.handlers[b];
    }
  }

  lemma {:induction false} HandlersOld(hs: seq<Hosted>, ms: seq<Move>, t: nat)
    requires HostRun(hs, ms) && t < |hs|
    ensures OldHandlers(hs[t])
    decreases t
  {
    hide HostStep;
    if t > 0 {
      HandlersOld(hs, ms, t - 1);
      HostStepKeeps(hs[t - 1], ms[t - 1], hs[t]);
    }
  }

  lemma {:induction false} NoClashYet(hs: seq<Hosted>, ms: seq<Move>, t: nat)
    requires HostRun(hs, ms) && t < |hs| && forall i :: 0 <= i < t ==> !Restarts(hs[i], ms[i])
    ensures !Clash(hs[t])
    decreases t
  {
    hide HostStep, Restarts;
    if t > 0 {
      NoClashYet(hs, ms, t - 1);
      HandlersOld(hs, ms, t - 1);
      HostStepKeeps(hs[t - 1], ms[t - 1], hs[t]);
    }
  }

  /** Over every run, handlers of one key never overlap if and only if no request arrives while an
      earlier handler of its key runs and the entry is gone or expired, unless it asks for
      fragments of a read or the cache is full of running requests. */
  lemma HandlersApartIff(hs: seq<Hosted>, ms: seq<Move>)
    requires HostRun(hs, ms)
    ensures (forall t :: 0 <= t < |hs| ==> !Clash(hs[t])) <==> (forall t :: 0 <= t < |ms| ==> !Arrives(hs[t], ms[t]))
  {
    hide HostStep, Restarts, Clash, Arrives;
    forall t | 0 <= t < |ms|
      ensures Restarts(hs[t], ms[t]) <==> Arrives(hs[t], ms[t])
      ensures Restarts(hs[t], ms[t]) ==> Clash(hs[t + 1])
    {
      HandlersOld(hs, ms, t);
      HostStepKeeps(hs[t], ms[t], hs[t + 1]);
      RestartsIff(hs[t], ms[t], hs[t + 1]);
    }
    if forall t :: 0 <= t < |ms| ==> !Arrives(hs[t], ms[t]) {
      forall t | 0 <= t < |hs| ensures !Clash(hs[t]) {
        NoClashYet(hs, ms, t);
      }
    } else {
      var t :| 0 <= t < |ms| && Arrives(hs[t], ms[t]);
      assert Clash(hs[t + 1]);
    }
  }

  /** The state after the sample request was answered with an error at five seconds. */
  ghost function SampleAnswered(s: System): System {
    System(Cache(map[SAMPLE.key := Done(Fresh(SAMPLE, 0, 0), [[]], 5000)], multiset{0}, 1), 5000, map[],
           s.history + [Ended(SAMPLE.key, [[]], true, {})])
  }

  lemma SampleAnswers()
    ensures var s := Started(EMPTY, SAMPLE, 0, SAMPLE.key); Step(s, CompleteStep(0, [[]], 5000, []), SampleAnswered(s))
  {
    hide BeginEvent, ReadBytes;
    var s := Started(EMPTY, SAMPLE, 0, SAMPLE.key);
    assert Unexpired(EMPTY.c.entries, 0) == map[];
    assert s.c.entries == map[SAMPLE.key := Fresh(SAMPLE, 0, 0)];
    assert s.running - {0} == map[];
    var none: seq<Key> := [];
    assert (set k | k in none) == {};
    assert CompleteEvent(s, CompleteStep(0, [[]], 5000, none)) == Ended(SAMPLE.key, [[]], true, {});
  }

  /** A request whose handler does not return: completed with an error after five seconds, its
      reply expires, and the repetition starts a second handler beside the first. */
  lemma SlowHandlerOverlaps()
    ensures exists hs: seq<Hosted>, ms :: HostRun(hs, ms) && |ms| == 3 && |hs[3].s.running| == 1 && Clash(hs[3])
  {
    hide Step, BeginEvent;
    var key, late := SAMPLE.key, 5000 + REPLAY_TTL + 1;
    var s := Started(EMPTY, SAMPLE, 0, key);
    var t := SampleAnswered(s);
    var u := Started(t, SAMPLE, late, key);
    SampleStarts(EMPTY, 0);
    SampleAnswers();
    SampleStarts(t, late);
    var hs := [Hosted(EMPTY, map[]), Hosted(s, map[0 := key]), Hosted(t, map[0 := key]),
               Hosted(u, map[0 := key, 1 := key])];
    var ms := [Locked(StartLabel(SAMPLE, 0, key)), Locked(CompleteStep(0, [[]], 5000, [])),
               Locked(StartLabel(SAMPLE, late, key))];
    assert 0 in hs[3].handlers && 1 in hs[3].handlers;
    assert HostRun(hs, ms) && Clash(hs[3]);
  }
}
