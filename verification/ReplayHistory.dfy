/** What the replay cache says about the requests and replies that led to it: which execution a
    repetition waits for, how long a reply is kept, and which entries make room.  Everything is
    stated over the labels of a run. */
module ReplayHistory {
  import opened Options
  import opened Octets
  import opened ReplayCache

  // -------------------------------------------------------------------- fingerprints

  predicate StartsKey(l: Label, k: Key) { l.BeginStep? && l.result.Execute? && l.req.key == k }

  /** Label `j` started the last execution of the key before `t`. */
  ghost predicate LastStart(labels: seq<Label>, t: nat, j: nat, k: Key)
    requires t <= |labels|
  {
    j < t && StartsKey(labels[j], k) && forall i :: j < i < t ==> !StartsKey(labels[i], k)
  }

  /** The entry of a key is that of its last execution. */
  ghost predicate Origin(states: seq<System>, labels: seq<Label>, t: nat, j: nat, k: Key)
    requires t <= |labels| < |states|
  {
    && LastStart(labels, t, j, k)
    && var entries := states[t].c.entries;
    && k in entries && entries[k].fingerprint == labels[j].req.fingerprint && entries[k].read == labels[j].req.read
    && entries[k].ready == states[j].c.nextChannel
  }

  lemma OriginStep(s: System, l: Label, after: System, k: Key)
    requires Step(s, l, after) && k in after.c.entries
    ensures var entry := after.c.entries[k];
            if StartsKey(l, k) then
              entry.fingerprint == l.req.fingerprint && entry.read == l.req.read && entry.ready == s.c.nextChannel
            else
              && k in s.c.entries && entry.fingerprint == s.c.entries[k].fingerprint
              && entry.read == s.c.entries[k].read && entry.ready == s.c.entries[k].ready
  {
    hide BeginEvent, CompleteEvent, Trims, ReadBytes, FrameBytes;
    if l.CompleteStep? {
      var ticket := s.running[l.id].ticket;
      if Owns(s.c.entries, ticket) {
        CompleteEffect(s.c, ticket, l.frames, l.at, l.victims, after.c);
      }
    }
  }

  lemma {:induction false} EntryOrigin(states: seq<System>, labels: seq<Label>, t: nat, k: Key) returns (j: nat)
    requires Run(states, labels) && t <= |labels| && k in states[t].c.entries
    ensures Origin(states, labels, t, j, k)
    decreases t
  {
    hide Step;
    assert Step(states[t - 1], labels[t - 1], states[t]);
    OriginStep(states[t - 1], labels[t - 1], states[t], k);
    if StartsKey(labels[t - 1], k) {
      j := t - 1;
    } else {
      j := EntryOrigin(states, labels, t - 1, k);
    }
  }

  lemma WaitsOnEntry(s: System, l: Label, after: System)
    requires Step(s, l, after) && l.BeginStep?
    ensures (l.result.Wait? || l.result.Reused?) ==> l.req.key in s.c.entries
    ensures l.result.Wait? ==>
              s.c.entries[l.req.key].fingerprint == l.req.fingerprint && l.result.ready == s.c.entries[l.req.key].ready
    ensures l.result.Reused? ==> s.c.entries[l.req.key].fingerprint != l.req.fingerprint
    ensures l.result.Miss? ==> l.req.read && l.req.resend && l.req.key !in Unexpired(s.c.entries, l.at)
    ensures l.result.Full? ==>
              var live := Unexpired(s.c.entries, l.at);
              |live| >= 256 && forall k :: k in live ==> live[k].frames == []
    ensures l.result.Execute? ==> l.result.ticket == Ticket(l.req.key, l.req.fingerprint)
  {
    hide BeginEvent, Fresh;
  }

  ghost predicate SameAction(states: seq<System>, labels: seq<Label>, t: nat, req: Request, ready: nat)
    requires t <= |labels| < |states|
  {
    exists j: nat :: LastStart(labels, t, j, req.key) && labels[j].req.fingerprint == req.fingerprint
        && states[j].c.nextChannel == ready
  }

  ghost predicate OtherAction(labels: seq<Label>, t: nat, req: Request)
    requires t <= |labels|
  {
    exists j: nat :: LastStart(labels, t, j, req.key) && labels[j].req.fingerprint != req.fingerprint
  }

  /** Over every run, a repetition is made to wait only on the last execution of its key and only
      if that carried the same fingerprint, and is refused as reused only if it carried another. */
  lemma RepetitionIsMatched(states: seq<System>, labels: seq<Label>, t: nat)
    requires Run(states, labels) && t < |labels| && labels[t].BeginStep?
    ensures var req, result := labels[t].req, labels[t].result;
            && (result.Wait? ==> SameAction(states, labels, t, req, result.ready))
            && (result.Reused? ==> OtherAction(labels, t, req))
  {
    hide Step;
    var req, result := labels[t].req, labels[t].result;
    assert Step(states[t], labels[t], states[t + 1]);
    WaitsOnEntry(states[t], labels[t], states[t + 1]);
    if result.Wait? || result.Reused? {
      var j := EntryOrigin(states, labels, t, req.key);
    }
  }

  // ----------------------------------------------------------------------- lifetimes

  function Joined(frames: seq<Bytes>): Bytes {
    if frames == [] then [] else Joined(frames[..|frames| - 1]) + frames[|frames| - 1]
  }

  lemma {:induction false} FrameBytesMeans(frames: seq<Bytes>)
    ensures FrameBytes(frames) == |Joined(frames)|
  {
    if frames != [] {
      FrameBytesMeans(frames[..|frames| - 1]);
    }
  }

  /** The ticket of a completion still owns its entry. */
  ghost predicate Resolving(s: System, l: Label, k: Key) {
    l.CompleteStep? && l.id in s.running && s.running[l.id].ticket.key == k && Owns(s.c.entries, s.running[l.id].ticket)
  }

  function Lifetime(read: bool): int { if read then 30_000 else 120_000 }

  /** A reply is kept for its lifetime, unless it is a read of more than 512 KiB. */
  lemma ReplyStored(s: System, l: Label, after: System, k: Key)
    requires Step(s, l, after) && Resolving(s, l, k)
    ensures var read := s.c.entries[k].read;
            if read && |Joined(l.frames)| > 524_288 then k !in after.c.entries
            else
              && Finished(after.c.entries, k) && after.c.entries[k].frames == l.frames
              && after.c.entries[k].expiresAt == l.at + Lifetime(read)
              && after.c.entries[k].fingerprint == s.c.entries[k].fingerprint
              && after.c.entries[k].ready == s.c.entries[k].ready
  {
    hide BeginEvent, CompleteEvent, Trims, ReadBytes, FrameBytes, Joined;
    FrameBytesMeans(l.frames);
    CompleteEffect(s.c, s.running[l.id].ticket, l.frames, l.at, l.victims, after.c);
  }

  /** The step makes room at the cost of the key: at capacity, or within the budget of reads. */
  ghost predicate Evicts(s: System, l: Label, k: Key) {
    || (l.BeginStep? && l.result.Execute? && |Unexpired(s.c.entries, l.at)| >= 256 && l.victim == k)
    || (l.CompleteStep? && k in l.victims)
  }

  lemma FinishedStays(s: System, l: Label, after: System, k: Key)
    requires Step(s, l, after) && Finished(s.c.entries, k) && l.at <= s.c.entries[k].expiresAt && !Evicts(s, l, k)
    ensures k in after.c.entries && after.c.entries[k] == s.c.entries[k]
  {
    hide BeginEvent, CompleteEvent, Trims, ReadBytes, FrameBytes;
    if l.CompleteStep? {
      var ticket := s.running[l.id].ticket;
      if Owns(s.c.entries, ticket) {
        CompleteEffect(s.c, ticket, l.frames, l.at, l.victims, after.c);
      }
    }
  }

  lemma {:induction false} TimesGrow(states: seq<System>, labels: seq<Label>, i: nat, t: nat)
    requires Run(states, labels) && i <= t < |labels|
    ensures labels[i].at <= labels[t].at
    decreases t
  {
    if i < t {
      TimesGrow(states, labels, i, t - 1);
      assert Step(states[t - 1], labels[t - 1], states[t]) && Step(states[t], labels[t], states[t + 1]);
    }
  }

  lemma {:induction false} EntryLasts(states: seq<System>, labels: seq<Label>, j: nat, t: nat, k: Key)
    requires Run(states, labels) && j <= t < |labels| && Finished(states[j].c.entries, k)
    requires labels[t].at <= states[j].c.entries[k].expiresAt
    requires forall i :: j <= i < t ==> !Evicts(states[i], labels[i], k)
    ensures k in states[t].c.entries && states[t].c.entries[k] == states[j].c.entries[k]
    decreases t
  {
    hide Step, Evicts;
    if j < t {
      TimesGrow(states, labels, t - 1, t);
      EntryLasts(states, labels, j, t - 1, k);
      assert Step(states[t - 1], labels[t - 1], states[t]);
      FinishedStays(states[t - 1], labels[t - 1], states[t], k);
    }
  }

  lemma LiveIsAnswered(s: System, l: Label, after: System)
    requires Step(s, l, after) && l.BeginStep? && l.req.key in s.c.entries && l.at <= s.c.entries[l.req.key].expiresAt
    ensures var entry := s.c.entries[l.req.key];
            l.result == if l.req.fingerprint == entry.fingerprint then Wait(entry.ready) else Reused
  {
    hide BeginEvent, Fresh;
  }

  /** Over every run, a reply that was stored answers every repetition with its fingerprint for 120
      seconds, for 30 if it is a read, unless it has been evicted. */
  lemma AnsweredForLifetime(states: seq<System>, labels: seq<Label>, j: nat, t: nat, k: Key)
    requires Run(states, labels) && j < t < |labels| && Resolving(states[j], labels[j], k)
    requires !(states[j].c.entries[k].read && |Joined(labels[j].frames)| > 524_288)
    requires labels[t].BeginStep? && labels[t].req.key == k
    requires labels[t].at <= labels[j].at + Lifetime(states[j].c.entries[k].read)
    requires forall i :: j < i < t ==> !Evicts(states[i], labels[i], k)
    ensures var entries, was := states[t].c.entries, states[j].c.entries[k];
            && k in entries && entries[k].frames == labels[j].frames
            && labels[t].result == if labels[t].req.fingerprint == was.fingerprint then Wait(was.ready) else Reused
  {
    hide Evicts, Joined, Lifetime, Step;
    assert Step(states[j], labels[j], states[j + 1]) && Step(states[t], labels[t], states[t + 1]);
    ReplyStored(states[j], labels[j], states[j + 1], k);
    EntryLasts(states, labels, j + 1, t, k);
    LiveIsAnswered(states[t], labels[t], states[t + 1]);
  }

  // ------------------------------------------------------------------------ evictions

  /** At capacity one entry goes, a finished one that would have expired first. */
  lemma CapacityEvictsOldest(s: System, l: Label, after: System, k: Key)
    requires Step(s, l, after) && l.BeginStep?
    requires k in Unexpired(s.c.entries, l.at) && k !in after.c.entries
    ensures var live := Unexpired(s.c.entries, l.at);
            && l.result.Execute? && |live| >= 256 && Finished(live, k) && k == l.victim
            && forall j :: Finished(live, j) ==> live[k].expiresAt <= live[j].expiresAt
  {
    hide BeginEvent, Fresh, Unexpired;
  }

  /** Trimming takes the replies that would expire first. */
  lemma {:induction false} TrimIsOldestFirst(e: Entries, keep: Key, victims: seq<Key>, after: Entries)
    requires Trims(e, keep, victims, after)
    ensures forall v, j :: v in victims && FinishedRead(after, j) && j != keep ==>
              v in e && e[v].expiresAt <= after[j].expiresAt
    decreases |victims|
  {
    hide ReadBytes, TrimDone;
    if victims != [] {
      var v, rest := victims[0], victims[1..];
      TrimIsOldestFirst(e - {v}, keep, rest, after);
      TrimShrinks(e - {v}, keep, rest, after);
      assert victims == [v] + rest;
    }
  }

  /** And no more than it has to: with the last of them back the budget would be exceeded. */
  lemma {:induction false} TrimIsMinimal(e: Entries, keep: Key, victims: seq<Key>, after: Entries)
    requires Trims(e, keep, victims, after) && victims != []
    ensures var v := victims[|victims| - 1]; v in e && v !in after && ReadBytes(after[v := e[v]]) > 2_097_152
    decreases |victims|
  {
    hide ReadBytes;
    var v, rest := victims[0], victims[1..];
    if rest == [] {
      assert after[v := e[v]] == e;
    } else {
      TrimIsMinimal(e - {v}, keep, rest, after);
    }
  }
}
