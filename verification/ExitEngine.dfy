/** The exit-node client engine: a reconcile loop that installs and removes host routes, moves
    0.0.0.0/0 between WireGuard peers and falls back to normal routing.  `Rig` is what the
    engine has installed together with the host it acts on; every host command appends the
    host it leaves to `seen`, so that a claim about `seen` is a claim about every prefix of
    the commands. */
module ExitEngine {
  import opened Options
  import opened Routes
  import Nat

  type Peer = nat
  const SERVER: Peer := 0

  /** The host: its routing table, the peer that owns 0.0.0.0/0, and its NAT rules. */
  datatype Host = Host(table: Table, owner: Option<Peer>, firewall: Nat.Host)

  /** `overwrites`: the route command overwrites an existing route (Linux); elsewhere it fails. */
  datatype Rig = Rig(overwrites: bool, routes: seq<Route>, gw: Option<Gateway>, allowedSet: bool, serverHad: bool,
                     clientNat: Option<Nat.State>, host: Host, seen: seq<Host>)

  /** How the outside world answers during one tick.  `client` is the NAT plan for hosts behind a
      Linux router, if there is a backend and an own address; `adds` rules can be added. */
  datatype Answers = Answers(gateway: Option<Gateway>, plan: ClientPlan, critical: set<nat>, serverListed: bool,
                             ipcWorks: bool, refused: Route -> bool, refusedAgain: Route -> bool,
                             client: Option<Nat.Plan>, adds: nat)

  const LOW6 := BLOCK_IPV6[0].dst
  const HIGH6 := BLOCK_IPV6[1].dst

  predicate Special(d: Dst) { d == LOW || d == HIGH || d == LOW6 || d == HIGH6 }

  function KindOf(d: Dst): Kind {
    if d == LOW || d == HIGH then Tunnel else if d == LOW6 || d == HIGH6 then Reject else Bypass
  }

  // ------------------------------------------------------------------- host commands

  ghost function Exec(g: Rig, h: Host): Rig { g.(host := h, seen := g.seen + [h]) }

  /** A delete names the gateway it believes the route has, and removes no other route. */
  function Without(h: Host, r: Route, gw: Option<Gateway>): Host {
    if r.dst in h.table && h.table[r.dst] == TargetOf(r, gw) then h.(table := h.table - {r.dst}) else h
  }

  function With(h: Host, r: Route, gw: Option<Gateway>): Host { h.(table := h.table[r.dst := TargetOf(r, gw)]) }

  datatype Outcome = Done | Exists | Failed

  function Issue(overwrites: bool, table: Table, r: Route, refused: bool): Outcome {
    if refused then Failed else if !overwrites && r.dst in table then Exists else Done
  }

  // -------------------------------------------------------------------- route removal

  datatype Match = Bypasses | Others | Exactly(route: Route) | All

  predicate Hits(m: Match, r: Route) {
    match m
    case Bypasses => r.kind == Bypass
    case Others => r.kind != Bypass
    case Exactly(x) => r == x
    case All => true
  }

  function Doomed(routes: seq<Route>, m: Match): seq<Route> {
    if routes == [] then []
    else
      var last := routes[|routes| - 1];
      (if Hits(m, last) then [last] else []) + Doomed(routes[..|routes| - 1], m)
  }

  function Kept(routes: seq<Route>, m: Match): seq<Route> {
    if routes == [] then []
    else
      var last := routes[|routes| - 1];
      Kept(routes[..|routes| - 1], m) + if Hits(m, last) then [] else [last]
  }

  ghost function DropAll(g: Rig, rs: seq<Route>): Rig
    decreases |rs|
  {
    if rs == [] then g else DropAll(Exec(g, Without(g.host, rs[0], g.gw)), rs[1..])
  }

  ghost function Deleted(g: Rig, m: Match): Rig {
    DropAll(g, Doomed(g.routes, m)).(routes := Kept(g.routes, m))
  }

  ghost function DeletedEach(g: Rig, del: seq<Route>): Rig
    decreases |del|
  {
    if del == [] then g else DeletedEach(Deleted(g, Exactly(del[0])), del[1..])
  }

  // --------------------------------------------------------------------- activation

  predicate Critical(critical: set<nat>, r: Route) { r.kind == Bypass && r.dst.V4? && r.dst.prefix.addr in critical }

  /** Whether the failure of this route ends the activation. */
  predicate Fatal(critical: set<nat>, r: Route) { r.kind == Tunnel || Critical(critical, r) }

  ghost function Recorded(g: Rig, r: Route): Rig {
    Exec(g, With(g.host, r, g.gw)).(routes := g.routes + [r])
  }

  ghost function Cleared(g: Rig, d: Dst): Rig { Exec(g, g.host.(table := g.host.table - {d})) }

  /** One planned route: the new rig, and whether the activation goes on. */
  ghost function AddOne(g: Rig, r: Route, t: Answers): (Rig, bool) {
    match Issue(g.overwrites, g.host.table, r, t.refused(r))
    case Done => (Recorded(g, r), true)
    case Failed => (g, !Fatal(t.critical, r))
    case Exists =>
      if r.kind == Bypass then (g, true)
      else
        var h := Cleared(g, r.dst);
        if t.refusedAgain(r) then (h, !Fatal(t.critical, r)) else (Recorded(h, r), true)
  }

  ghost function AddAll(g: Rig, add: seq<Route>, t: Answers): (Rig, bool)
    decreases |add|
  {
    if add == [] then (g, true)
    else
      var step := AddOne(g, add[0], t);
      if step.1 then AddAll(step.0, add[1..], t) else step
  }

  /** The gateway to use: the one found, else the one recorded. */
  function GatewayFor(g: Rig, t: Answers): Option<Gateway> { if t.gateway.Some? then t.gateway else g.gw }

  /** Bypass routes of an old gateway gone, the server's ownership noted on a first activation. */
  ghost function Repinned(g: Rig, gw: Option<Gateway>, serverListed: bool): Rig {
    if g.routes == [] then
      if serverListed then g.(serverHad := g.host.owner == Some(SERVER)) else g
    else if gw != g.gw then Deleted(g, Bypasses) else g
  }

  ghost function Trimmed(g: Rig, desired: seq<Route>, gw: Option<Gateway>): Rig {
    DeletedEach(g, Stale(g.routes, desired)).(gw := gw)
  }

  ghost function Owning(g: Rig, exit: Peer): Rig {
    if g.host.owner == Some(exit) then g else Exec(g, g.host.(owner := Some(exit))).(allowedSet := true)
  }

  /** NAT for hosts behind this one; the client mode leaves the forwarding flag alone. */
  function ClientEnabled(h: Nat.Host, p: Nat.Plan, adds: nat): (Nat.Host, Option<Nat.State>) {
    Nat.Enabled(h, p.(mode := Nat.ClientMode), Nat.Flag(false, false), adds)
  }

  /** Best effort: a failure rolls back and is not the activation's. */
  ghost function Masquerade(g: Rig, t: Answers): Rig {
    if g.clientNat.Some? || t.client.None? then g
    else
      var (firewall, result) := ClientEnabled(g.host.firewall, t.client.value, t.adds);
      Exec(g, g.host.(firewall := firewall)).(clientNat := result)
  }

  ghost function AddedPlan(g: Rig, add: seq<Route>, t: Answers): (Rig, bool) {
    var added := AddAll(g, add, t);
    if added.1 then (Masquerade(added.0, t), true) else added
  }

  /** Everything after the bypass routes of an old gateway have gone. */
  ghost function Finished(pinned: Rig, exit: Peer, desired: seq<Route>, gw: Option<Gateway>, t: Answers): (Rig, bool) {
    var trimmed := Trimmed(pinned, desired, gw);
    if trimmed.host.owner != Some(exit) && !t.ipcWorks then (trimmed, false)
    else AddedPlan(Owning(trimmed, exit), Missing(pinned.routes, desired), t)
  }

  ghost function Installing(g: Rig, exit: Peer, desired: seq<Route>, t: Answers): (Rig, bool) {
    var gw := GatewayFor(g, t);
    Finished(Repinned(g, gw, t.serverListed), exit, desired, gw, t)
  }

  ghost function Activated(g: Rig, exit: Peer, t: Answers): (Rig, bool)
    requires PlanOk(t.plan)
  {
    if GatewayFor(g, t).None? then (g, false) else Installing(g, exit, Planned(t.plan), t)
  }

  // -------------------------------------------------------------------- deactivation

  ghost function Stripped(g: Rig): Rig {
    if g.host.owner.Some? && g.host.owner != Some(SERVER) then Exec(g, g.host.(owner := None)) else g
  }

  ghost function HandedBack(g: Rig): Rig {
    (if g.serverHad then Exec(g, g.host.(owner := Some(SERVER))) else g).(allowedSet := false, serverHad := false)
  }

  ghost function Unmasked(g: Rig): Rig {
    if g.clientNat.None? then g
    else Exec(g, g.host.(firewall := Nat.Disabled(g.host.firewall, g.clientNat.value))).(clientNat := None)
  }

  predicate Idle(g: Rig) { g.routes == [] && g.clientNat.None? && !g.allowedSet }

  ghost function Deactivated(g: Rig): Rig {
    if Idle(g) then g
    else Unmasked(Deleted(HandedBack(Stripped(Deleted(g, Others))), All))
  }

  // ---------------------------------------------------------------- the engine's state

  const SECOND: nat := 1_000_000_000
  const STALE_AFTER: nat := 200 * SECOND
  const BACKOFF: nat := 30 * SECOND

  datatype Phase = Off | Pending | Active | Standby

  datatype PathHealth = PathHealth(listed: bool, direct: bool, lastHandshake: Option<nat>, offered: Option<bool>,
                                   granted: bool)

  /** A live direct path to a peer that does not refuse. */
  predicate PathLive(h: PathHealth, now: nat) {
    && h.listed && h.direct && h.offered != Some(false)
    && h.lastHandshake.Some? && now - h.lastHandshake.value <= STALE_AFTER
  }

  function NextPhase(h: PathHealth, now: nat): (p: Phase)
    ensures p == Active <==> PathLive(h, now) && h.granted
    ensures p == Pending <==> PathLive(h, now) && !h.granted
    ensures p != Off
  {
    if !h.listed then Standby
    else if h.offered == Some(false) then Standby
    else if !h.direct then Standby
    else if h.lastHandshake.None? || now - h.lastHandshake.value > STALE_AFTER then Standby
    else if !h.granted then Pending
    else Active
  }

  /** A peer as the coordinator and the WireGuard device show it. */
  datatype Sighting = Sighting(key: Peer, direct: bool, lastHandshake: Option<nat>)

  datatype Tick = Tick(now: nat, peers: map<nat, Sighting>, answers: Answers)

  /** `clock` and `health` are those of the latest tick. */
  datatype State = State(use: Option<nat>, useKey: Option<Peer>, granted: bool, offered: map<Peer, bool>, retryAt: nat,
                         phase: Phase, rig: Rig, clock: nat, health: PathHealth)

  function Lookup<K, V>(m: map<K, V>, k: K): Option<V> { if k in m then Some(m[k]) else None }

  /** A new key, or the loss of the direct path, voids the grant. */
  function StillGranted(granted: bool, useKey: Option<Peer>, peer: Option<Sighting>): bool {
    granted && (peer.Some? ==> useKey == Some(peer.value.key) && peer.value.direct)
  }

  function KeyNow(useKey: Option<Peer>, peer: Option<Sighting>): Option<Peer> {
    if peer.Some? then Some(peer.value.key) else useKey
  }

  function HealthOf(peer: Option<Sighting>, offered: map<Peer, bool>, granted: bool): PathHealth {
    if peer.None? then PathHealth(false, false, None, None, granted)
    else
      var direct := peer.value.direct;
      PathHealth(true, direct, if direct then peer.value.lastHandshake else None, Lookup(offered, peer.value.key),
                 granted)
  }

  ghost function Observed(s: State, t: Tick): State
    requires s.use.Some?
  {
    var peer := Lookup(t.peers, s.use.value);
    var granted := StillGranted(s.granted, s.useKey, peer);
    s.(useKey := KeyNow(s.useKey, peer), granted := granted, clock := t.now,
       health := HealthOf(peer, s.offered, granted))
  }

  ghost function Fallback(s: State, next: Phase): State {
    s.(rig := if s.rig.routes != [] || s.rig.allowedSet then Deactivated(s.rig) else s.rig, phase := next)
  }

  ghost function Engage(s: State, t: Tick): State
    requires PlanOk(t.answers.plan) && s.useKey.Some?
  {
    if t.now < s.retryAt then s
    else
      var step := Activated(s.rig, s.useKey.value, t.answers);
      if step.1 then s.(rig := step.0, phase := Active)
      else s.(rig := Deactivated(step.0), retryAt := t.now + BACKOFF, phase := Standby)
  }

  ghost function Reconciled(s: State, t: Tick): State
    requires PlanOk(t.answers.plan)
  {
    if s.use.None? then
      s.(rig := if s.rig.routes != [] then Deactivated(s.rig) else s.rig, clock := t.now)
    else
      var o := Observed(s, t);
      var next := NextPhase(o.health, t.now);
      if next != Active then Fallback(o, next) else Engage(o, t)
  }

  ghost function Chosen(s: State, ip: nat, key: Peer): State {
    var left := if s.use.Some? && s.use != Some(ip) then s.(rig := Deactivated(s.rig)) else s;
    if s.use == Some(ip) then left
    else left.(use := Some(ip), useKey := Some(key), granted := false, offered := s.offered - {key}, retryAt := 0,
               phase := Off)
  }

  ghost function Unchosen(s: State): State {
    s.(rig := Deactivated(s.rig), use := None, useKey := None, granted := false, phase := Off)
  }

  /** Bit 0 of the status flags: the peer offers; bit 1: it grants our request. */
  function Told(s: State, peer: Peer, data: seq<nat>): State {
    if peer == SERVER || |data| < 2 then s
    else
      var offers, grants := data[1] % 2 == 1, data[1] / 2 % 2 == 1;
      s.(offered := s.offered[peer := offers],
         granted := if s.useKey == Some(peer) && s.use.Some? then grants || (s.granted && offers) else s.granted)
  }

  // ------------------------------------------------------------------ what is installed

  /** The destination tells the kind, and a bypass route is a host route. */
  predicate WellShaped(r: Route) {
    r.kind == KindOf(r.dst) && (r.kind == Bypass ==> r.dst.V4? && r.dst.prefix.bits == 32)
  }

  ghost predicate Shaped(routes: seq<Route>) { forall r :: r in routes ==> WellShaped(r) }

  ghost function DstsOf(routes: seq<Route>): set<Dst> { set r | r in routes :: r.dst }

  /** Every recorded route is in the table with the recorded gateway; elsewhere the table is
      `base`. */
  ghost predicate Wears(table: Table, routes: seq<Route>, gw: Option<Gateway>, base: Table) {
    && (forall r :: r in routes ==> r.dst in table && table[r.dst] == TargetOf(r, gw))
    && (forall d :: d !in DstsOf(routes) ==> Lookup(table, d) == Lookup(base, d))
  }

  ghost predicate Apart(routes: seq<Route>, base: Table) { forall r :: r in routes ==> r.dst !in base }

  ghost predicate NoSpecial(base: Table) { forall d :: d in base ==> !Special(d) }

  ghost predicate Sound(g: Rig, base: Table) {
    && Shaped(g.routes) && Wears(g.host.table, g.routes, g.gw, base) && Apart(g.routes, base)
    && NoSpecial(base)
  }

  // -------------------------------------------------------------- removal keeps it sound

  lemma {:induction false} DoomedMeans(routes: seq<Route>, m: Match)
    ensures forall r :: r in Doomed(routes, m) <==> r in routes && Hits(m, r)
    decreases |routes|
  {
    if routes != [] {
      var front, last := routes[..|routes| - 1], routes[|routes| - 1];
      assert routes == front + [last];
      DoomedMeans(front, m);
    }
  }

  lemma {:induction false} KeptMeans(routes: seq<Route>, m: Match)
    ensures forall r :: r in Kept(routes, m) <==> r in routes && !Hits(m, r)
    decreases |routes|
  {
    if routes != [] {
      var front, last := routes[..|routes| - 1], routes[|routes| - 1];
      assert routes == front + [last];
      KeptMeans(front, m);
    }
  }

  ghost predicate Aimed(table: Table, rs: seq<Route>, gw: Option<Gateway>) {
    forall r :: r in rs ==> r.dst in table ==> table[r.dst] == TargetOf(r, gw)
  }

  ghost predicate Extends(seen: seq<Host>, more: seq<Host>) {
    |seen| <= |more| && forall i :: 0 <= i < |seen| ==> more[i] == seen[i]
  }

  /** Only the table and the trace differ, and the trace has grown. */
  ghost predicate OnlyTable(g: Rig, after: Rig) {
    after == g.(host := g.host.(table := after.host.table), seen := after.seen) && Extends(g.seen, after.seen)
  }

  lemma {:induction false} DropAllEffect(g: Rig, rs: seq<Route>)
    requires Aimed(g.host.table, rs, g.gw)
    ensures OnlyTable(g, DropAll(g, rs))
    ensures var after := DropAll(g, rs).host.table;
            forall d :: Lookup(after, d) == if d in DstsOf(rs) then None else Lookup(g.host.table, d)
    decreases |rs|
  {
    if rs != [] {
      var next := Exec(g, Without(g.host, rs[0], g.gw));
      assert rs == [rs[0]] + rs[1..];
      assert rs[0] in rs;
      DropAllEffect(next, rs[1..]);
      assert DstsOf(rs) == {rs[0].dst} + DstsOf(rs[1..]);
    }
  }

  lemma DeletedWears(g: Rig, m: Match, base: Table)
    requires Shaped(g.routes) && Wears(g.host.table, g.routes, g.gw, base)
    ensures var after := Deleted(g, m);
            && Wears(after.host.table, after.routes, g.gw, base - DstsOf(Doomed(g.routes, m)))
            && OnlyTable(g.(routes := after.routes), after)
            && DstsOf(g.routes) == DstsOf(Doomed(g.routes, m)) + DstsOf(after.routes)
            && forall r :: r in after.routes <==> r in g.routes && !Hits(m, r)
  {
    hide Hits, Doomed, Kept, DropAll;
    DoomedMeans(g.routes, m);
    KeptMeans(g.routes, m);
    var gone, kept := Doomed(g.routes, m), Kept(g.routes, m);
    DropAllEffect(g, gone);
    Divide(g.routes, gone, kept);
    var table, rest := DropAll(g, gone).host.table, base - DstsOf(gone);
    forall d | d !in DstsOf(kept) ensures Lookup(table, d) == Lookup(rest, d) {
      if d !in DstsOf(gone) {
        assert Lookup(g.host.table, d) == Lookup(base, d);
      }
    }
    forall r | r in kept ensures r.dst in table && table[r.dst] == TargetOf(r, g.gw) {
      assert r.dst in DstsOf(kept);
      assert Lookup(table, r.dst) == Lookup(g.host.table, r.dst);
    }
  }

  lemma DeletedKeeps(g: Rig, m: Match, base: Table)
    requires Sound(g, base)
    ensures var after := Deleted(g, m);
            && Sound(after, base) && OnlyTable(g.(routes := after.routes), after)
            && forall r :: r in after.routes <==> r in g.routes && !Hits(m, r)
  {
    hide Hits, Special, KindOf, Deleted, Wears, Doomed;
    DeletedWears(g, m, base);
    assert base - DstsOf(Doomed(g.routes, m)) == base by {
      DoomedMeans(g.routes, m);
      assert forall d :: d in DstsOf(Doomed(g.routes, m)) ==> d !in base;
    }
  }

  /** Routes of one shape with the same destination are the same route. */
  lemma Divide(routes: seq<Route>, gone: seq<Route>, kept: seq<Route>)
    requires Shaped(routes)
    requires forall r :: r in routes <==> r in gone || r in kept
    requires forall r :: !(r in gone && r in kept)
    ensures DstsOf(routes) == DstsOf(gone) + DstsOf(kept) && DstsOf(gone) !! DstsOf(kept)
  {}

  lemma {:induction false} DeletedEachKeeps(g: Rig, del: seq<Route>, base: Table)
    requires Sound(g, base)
    ensures var after := DeletedEach(g, del);
            && Sound(after, base) && OnlyTable(g.(routes := after.routes), after)
            && forall r :: r in after.routes <==> r in g.routes && r !in del
    decreases |del|
  {
    hide Sound, Deleted;
    if del != [] {
      DeletedKeeps(g, Exactly(del[0]), base);
      DeletedEachKeeps(Deleted(g, Exactly(del[0])), del[1..], base);
      assert del == [del[0]] + del[1..];
    }
  }

  // ------------------------------------------------------------ installing keeps it sound

  ghost predicate Addable(g: Rig, r: Route, base: Table) {
    WellShaped(r) && r !in g.routes && (g.overwrites ==> r.dst !in base)
  }

  /** A shaped route that is not recorded finds its key taken only by someone else's host route. */
  lemma KeyFree(g: Rig, r: Route, base: Table)
    requires Sound(g, base) && Addable(g, r, base)
    ensures r.dst !in DstsOf(g.routes)
    ensures r.dst in g.host.table <==> r.dst in base
    ensures r.kind != Bypass ==> r.dst !in base
  {
    assert Lookup(g.host.table, r.dst) == Lookup(base, r.dst);
  }

  lemma RecordedKeeps(g: Rig, r: Route, base: Table)
    requires Sound(g, base) && Addable(g, r, base) && r.dst !in base
    ensures Sound(Recorded(g, r), base)
  {
    hide KindOf, Special, TargetOf;
    KeyFree(g, r, base);
    var after := Recorded(g, r);
    assert DstsOf(after.routes) == DstsOf(g.routes) + {r.dst};
    forall d | d !in DstsOf(after.routes) ensures Lookup(after.host.table, d) == Lookup(base, d) {
      assert Lookup(g.host.table, d) == Lookup(base, d);
    }
    forall q | q in g.routes ensures after.host.table[q.dst] == TargetOf(q, g.gw) {
      assert q.dst in DstsOf(g.routes);
    }
  }

  /** Either nothing happens, and then the route was not needed or the activation ends; or the
      route is installed and recorded. */
  lemma AddOneIs(g: Rig, r: Route, t: Answers, base: Table)
    requires Sound(g, base) && Addable(g, r, base)
    ensures var step := AddOne(g, r, t);
            || (step == (g, false))
            || (step == (g, true) && !Fatal(t.critical, r) && t.refused(r))
            || (step == (g, true) && r.kind == Bypass && r.dst in base)
            || (step == (Recorded(g, r), true) && r.dst !in base)
  {
    KeyFree(g, r, base);
  }

  ghost predicate AllAddable(g: Rig, add: seq<Route>, base: Table) {
    && (forall r :: r in add ==> Addable(g, r, base))
    && forall i, j :: 0 <= i < j < |add| ==> add[i] != add[j]
  }

  ghost predicate Grows(g: Rig, after: Rig) {
    && after == g.(routes := after.routes, host := g.host.(table := after.host.table), seen := after.seen)
    && Extends(g.seen, after.seen)
    && (forall r :: r in g.routes ==> r in after.routes)
    && forall d :: d in g.host.table ==> d in after.host.table
  }

  /** What a completed installation has achieved for one planned route. */
  ghost predicate Served(g: Rig, r: Route, critical: set<nat>) {
    && (r.kind == Tunnel ==> r in g.routes)
    && (Critical(critical, r) ==> r.dst in g.host.table)
  }

  /** A planned route is recorded, unless it was refused or someone else has the host route. */
  ghost predicate Accounted(g: Rig, r: Route, t: Answers, base: Table) {
    r in g.routes || t.refused(r) || (r.kind == Bypass && r.dst in base)
  }

  lemma AddOneKeeps(g: Rig, r: Route, t: Answers, base: Table)
    requires Sound(g, base) && Addable(g, r, base)
    ensures var step := AddOne(g, r, t);
            && Sound(step.0, base) && Grows(g, step.0)
            && (forall q :: q in step.0.routes ==> q in g.routes || q == r)
            && (step.1 ==> Served(step.0, r, t.critical) && Accounted(step.0, r, t, base))
  {
    hide AddOne;
    AddOneIs(g, r, t, base);
    if AddOne(g, r, t).0 != g {
      RecordedKeeps(g, r, base);
    }
    if r.dst in base {
      KeyFree(g, r, base);
    }
  }

  lemma HeadAddable(g: Rig, add: seq<Route>, base: Table)
    requires AllAddable(g, add, base) && add != []
    ensures Addable(g, add[0], base) && (forall r :: r in add <==> r == add[0] || r in add[1..])
  {
    assert add == [add[0]] + add[1..];
    assert add[0] in add;
  }

  lemma TailAddable(g: Rig, after: Rig, add: seq<Route>, base: Table)
    requires AllAddable(g, add, base) && add != [] && after.overwrites == g.overwrites
    requires forall r :: r in after.routes ==> r in g.routes || r == add[0]
    ensures AllAddable(after, add[1..], base)
  {
    hide KindOf;
    assert forall r :: r in add[1..] ==> r in add && r != add[0];
  }

  lemma {:induction false} AddAllKeeps(g: Rig, add: seq<Route>, t: Answers, base: Table)
    requires Sound(g, base) && AllAddable(g, add, base)
    ensures var step := AddAll(g, add, t);
            && Sound(step.0, base) && Grows(g, step.0)
            && (forall q :: q in step.0.routes ==> q in g.routes || q in add)
            && (step.1 ==> forall r :: r in add ==> Served(step.0, r, t.critical) && Accounted(step.0, r, t, base))
    decreases |add|
  {
    hide AddOne, Sound, AllAddable;
    if add != [] {
      HeadAddable(g, add, base);
      AddOneKeeps(g, add[0], t, base);
      var step := AddOne(g, add[0], t);
      if step.1 {
        TailAddable(g, step.0, add, base);
        AddAllKeeps(step.0, add[1..], t, base);
      }
    }
  }

  // ------------------------------------------------------------------ a whole activation

  /** A plan: host routes first, then both halves and the IPv6 blocks, no route twice. */
  ghost predicate PlanFits(desired: seq<Route>, hosts: nat) {
    && Shaped(desired) && hosts <= |desired|
    && (forall i :: 0 <= i < |desired| ==> (desired[i].kind == Bypass <==> i < hosts))
    && (forall i, j :: 0 <= i < j < |desired| ==> desired[i] != desired[j])
    && Route(LOW, Tunnel) in desired && Route(HIGH, Tunnel) in desired
  }

  lemma PlannedFits(p: ClientPlan)
    requires PlanOk(p)
    ensures PlanFits(Planned(p), |PlannedBypass(p)|)
  {
    hide PlannedBypass;
    PlanKeys(p);
    var hosts, n, routes := HostRoutes(PlannedBypass(p)), |PlannedBypass(p)|, Planned(p);
    assert forall i :: 0 <= i < n ==> routes[i] == hosts[i];
    assert routes[n] == SPLIT[0] && routes[n + 1] == SPLIT[1];
    assert forall i :: n + 2 <= i < |routes| ==> routes[i] == BLOCK_IPV6[i - n - 2];
  }

  lemma {:induction false} MissingDistinct(current: seq<Route>, desired: seq<Route>)
    requires forall i, j :: 0 <= i < j < |desired| ==> desired[i] != desired[j]
    ensures var m := Missing(current, desired); forall i, j :: 0 <= i < j < |m| ==> m[i] != m[j]
    decreases |desired|
  {
    if desired != [] {
      var front, last := desired[..|desired| - 1], desired[|desired| - 1];
      MissingDistinct(current, front);
      MissingMeans(current, front);
      assert forall i :: 0 <= i < |Missing(current, front)| ==> Missing(current, front)[i] in front;
    }
  }

  /** Nothing of the engine's is on the host, and 0.0.0.0/0 is with its first owner. */
  ghost predicate Clean(g: Rig, first: Option<Peer>) { Idle(g) && g.host.owner == first }

  /** 0.0.0.0/0 has been moved, and the engine knows where it has to go back to. */
  ghost predicate Engaged(g: Rig, first: Option<Peer>) {
    g.allowedSet && Noted(g, first) && (g.host.owner == Some(SERVER) ==> first == Some(SERVER))
  }

  ghost predicate Noted(g: Rig, first: Option<Peer>) { g.serverHad <==> first == Some(SERVER) }

  ghost predicate Tidy(g: Rig, base: Table, first: Option<Peer>) {
    && Sound(g, base) && (first == None || first == Some(SERVER)) && (g.serverHad ==> first == Some(SERVER))
    && (Clean(g, first) || Engaged(g, first))
  }

  /** Where a tick may find the rig: untouched, or with routes in place. */
  ghost predicate Settled(g: Rig, base: Table, first: Option<Peer>) {
    Tidy(g, base, first) && (g.routes == [] ==> Clean(g, first))
  }

  ghost predicate Fits(g: Rig, desired: seq<Route>, base: Table) {
    g.overwrites ==> forall r :: r in desired ==> r.dst !in base
  }

  lemma RepinnedKeeps(g: Rig, gw: Option<Gateway>, serverListed: bool, base: Table, first: Option<Peer>)
    requires Settled(g, base, first)
    requires g.host.owner == Some(SERVER) ==> serverListed
    ensures var pinned := Repinned(g, gw, serverListed);
            && Tidy(pinned, base, first) && Noted(pinned, first) && pinned.overwrites == g.overwrites
            && (pinned.gw == gw || forall r :: r in pinned.routes ==> r.kind != Bypass)
  {
    hide Deleted, Sound;
    assert Sound(g, base) ==> Sound(g.(serverHad := g.host.owner == Some(SERVER)), base) by { SoundRest(g, base); }
    if g.routes != [] && gw != g.gw {
      DeletedKeeps(g, Bypasses, base);
    }
  }

  lemma SoundRest(g: Rig, base: Table)
    requires Sound(g, base)
    ensures forall had, set_, owner, seen ::
              Sound(g.(serverHad := had, allowedSet := set_, host := g.host.(owner := owner), seen := seen), base)
  {}

  lemma RegatedKeeps(g: Rig, gw: Option<Gateway>, base: Table)
    requires Sound(g, base) && (g.gw == gw || forall r :: r in g.routes ==> r.kind != Bypass)
    ensures Sound(g.(gw := gw), base)
  {
    assert forall r :: r in g.routes ==> TargetOf(r, g.gw) == TargetOf(r, gw);
  }

  lemma NoRoutes(routes: seq<Route>)
    ensures (forall r :: r !in routes) ==> routes == []
  {
    if routes != [] {
      assert routes[0] in routes;
    }
  }

  lemma TrimmedKeeps(g: Rig, desired: seq<Route>, gw: Option<Gateway>, base: Table, first: Option<Peer>)
    requires Tidy(g, base, first) && Noted(g, first)
    requires g.gw == gw || forall r :: r in g.routes ==> r.kind != Bypass
    ensures var trimmed := Trimmed(g, desired, gw);
            && Tidy(trimmed, base, first) && Noted(trimmed, first) && trimmed.overwrites == g.overwrites
            && trimmed.gw == gw && (forall r :: r in trimmed.routes <==> r in g.routes && r in desired)
  {
    hide Sound, DeletedEach, Stale;
    DeletedEachKeeps(g, Stale(g.routes, desired), base);
    StaleMeans(g.routes, desired);
    RegatedKeeps(DeletedEach(g, Stale(g.routes, desired)), gw, base);
    if Idle(g) {
      NoRoutes(DeletedEach(g, Stale(g.routes, desired)).routes);
    }
  }

  lemma OwningKeeps(g: Rig, exit: Peer, base: Table, first: Option<Peer>)
    requires Tidy(g, base, first) && Noted(g, first) && exit != SERVER
    ensures var o := Owning(g, exit); Sound(o, base) && Engaged(o, first) && o.host.owner == Some(exit)
    ensures var o := Owning(g, exit); o.routes == g.routes && o.overwrites == g.overwrites && o.gw == g.gw
  {
    hide Sound;
    SoundRest(g, base);
  }

  /** The routes that are added can be added, whatever was trimmed. */
  lemma MissingAddable(current: seq<Route>, desired: seq<Route>, hosts: nat, g: Rig, base: Table)
    requires PlanFits(desired, hosts) && Fits(g, desired, base)
    requires forall r :: r in g.routes ==> r in current
    ensures AllAddable(g, Missing(current, desired), base)
  {
    hide Missing, KindOf;
    MissingMeans(current, desired);
    MissingDistinct(current, desired);
  }

  lemma MasqueradeKeeps(g: Rig, t: Answers, base: Table, first: Option<Peer>)
    requires Sound(g, base) && Engaged(g, first)
    ensures var m := Masquerade(g, t);
            && Sound(m, base) && Engaged(m, first) && m.routes == g.routes && m.host.owner == g.host.owner
            && m.host.table == g.host.table && m.gw == g.gw
  {}

  ghost predicate Tunnelled(g: Rig, exit: Peer) {
    Route(LOW, Tunnel) in g.routes && Route(HIGH, Tunnel) in g.routes && g.host.owner == Some(exit)
  }

  lemma InstallingKeeps(g: Rig, exit: Peer, desired: seq<Route>, hosts: nat, t: Answers, base: Table,
                        first: Option<Peer>)
    requires Settled(g, base, first) && PlanFits(desired, hosts) && Fits(g, desired, base) && exit != SERVER
    requires g.host.owner == Some(SERVER) ==> t.serverListed
    ensures var step := Installing(g, exit, desired, t);
            && Tidy(step.0, base, first)
            && (step.1 ==> Engaged(step.0, first) && Tunnelled(step.0, exit) && Follows(step.0, desired, t, base)
                           && step.0.gw == GatewayFor(g, t))
  {
    hide Sound, PlanFits, Repinned, Trimmed, Owning, Masquerade, AddAll, Missing, AllAddable;
    var gw := GatewayFor(g, t);
    RepinnedKeeps(g, gw, t.serverListed, base, first);
    var pinned := Repinned(g, gw, t.serverListed);
    TrimmedKeeps(pinned, desired, gw, base, first);
    var trimmed := Trimmed(pinned, desired, gw);
    if trimmed.host.owner == Some(exit) || t.ipcWorks {
      OwningKeeps(trimmed, exit, base, first);
      var owning, add := Owning(trimmed, exit), Missing(pinned.routes, desired);
      MissingAddable(pinned.routes, desired, hosts, owning, base);
      AddAllKeeps(owning, add, t, base);
      var added := AddAll(owning, add, t);
      EngagedRest(owning, added.0, first);
      if added.1 {
        MasqueradeKeeps(added.0, t, base, first);
        HalvesServed(owning, added.0, pinned.routes, desired, hosts, t.critical);
        PlanFollowed(owning, added.0, pinned.routes, desired, t, base);
      }
    }
  }

  /** The record is the plan, but for routes that are accounted for otherwise. */
  ghost predicate Follows(g: Rig, desired: seq<Route>, t: Answers, base: Table) {
    (forall r :: r in g.routes ==> r in desired) && forall r :: r in desired ==> Accounted(g, r, t, base)
  }

  lemma PlanFollowed(g: Rig, after: Rig, current: seq<Route>, desired: seq<Route>, t: Answers, base: Table)
    requires Grows(g, after) && forall r :: r in g.routes <==> r in current && r in desired
    requires forall r :: r in after.routes ==> r in g.routes || r in Missing(current, desired)
    requires forall r :: r in Missing(current, desired) ==> Accounted(after, r, t, base)
    ensures Follows(after, desired, t, base) && Follows(Masquerade(after, t), desired, t, base)
  {
    hide Missing;
    MissingMeans(current, desired);
  }

  lemma EngagedRest(g: Rig, after: Rig, first: Option<Peer>)
    requires Engaged(g, first) && Grows(g, after)
    ensures Engaged(after, first)
  {}

  lemma HalvesServed(g: Rig, after: Rig, current: seq<Route>, desired: seq<Route>, hosts: nat, critical: set<nat>)
    requires PlanFits(desired, hosts) && Grows(g, after)
    requires forall r :: r in current && r in desired ==> r in g.routes
    requires forall r :: r in Missing(current, desired) ==> Served(after, r, critical)
    ensures Route(LOW, Tunnel) in after.routes && Route(HIGH, Tunnel) in after.routes
  {
    hide Missing;
    MissingMeans(current, desired);
  }

  // ---------------------------------------------------------------- a whole deactivation

  lemma HandedBackKeeps(g: Rig, base: Table, first: Option<Peer>)
    requires Tidy(g, base, first) && Engaged(g, first)
    ensures var back := HandedBack(Stripped(g));
            && Sound(back, base) && back.host.owner == first && !back.allowedSet && !back.serverHad
            && back.routes == g.routes && back.clientNat == g.clientNat
  {
    hide Sound;
    SoundRest(g, base);
    SoundRest(Stripped(g), base);
  }

  lemma UnmaskedKeeps(g: Rig, base: Table)
    requires Sound(g, base)
    ensures var u := Unmasked(g);
            && Sound(u, base) && u.clientNat.None? && u.routes == g.routes && u.host.owner == g.host.owner
            && u.allowedSet == g.allowedSet && u.serverHad == g.serverHad
  {}

  /** Deactivation gives back the host as it was. */
  lemma DeactivatedRestores(g: Rig, base: Table, first: Option<Peer>)
    requires Tidy(g, base, first)
    ensures var after := Deactivated(g);
            Settled(after, base, first) && Clean(after, first) && after.host.table == base && after.host.owner == first
  {
    hide Sound, Deleted, HandedBack, Stripped, Unmasked;
    if Idle(g) {
      BareTable(g, base);
    } else {
      DeletedKeeps(g, Others, base);
      var split := Deleted(g, Others);
      HandedBackKeeps(split, base, first);
      var back := HandedBack(Stripped(split));
      DeletedKeeps(back, All, base);
      var bare := Deleted(back, All);
      NoRoutes(bare.routes);
      UnmaskedKeeps(bare, base);
      BareTable(Unmasked(bare), base);
    }
  }

  lemma BareTable(g: Rig, base: Table)
    requires Sound(g, base) && g.routes == []
    ensures g.host.table == base
  {
    BareWears(g.host.table, g.gw, base);
  }

  // --------------------------------------------------------- the order of the commands

  /** Traffic enters the tunnel only while every pin has a host route and 0.0.0.0/0 is with
      `owner`. */
  ghost predicate Guarded(h: Host, pins: set<Dst>, owner: Option<Peer>) { NoSplit(h.table) || Pinning(h, pins, owner) }

  ghost predicate NoSplit(table: Table) { LOW !in table && HIGH !in table }

  ghost predicate Pinning(h: Host, pins: set<Dst>, owner: Option<Peer>) { pins <= h.table.Keys && h.owner == owner }

  ghost predicate AllGuarded(seen: seq<Host>, from: nat, pins: set<Dst>, owner: Option<Peer>) {
    forall i :: from <= i < |seen| ==> Guarded(seen[i], pins, owner)
  }

  /** The routes alone: traffic enters the tunnel only while every pin has a host route. */
  ghost predicate Covered(h: Host, pins: set<Dst>) { NoSplit(h.table) || pins <= h.table.Keys }

  ghost predicate AllCovered(seen: seq<Host>, from: nat, pins: set<Dst>) {
    forall i :: from <= i < |seen| ==> Covered(seen[i], pins)
  }

  ghost predicate NoneSpecial(pins: set<Dst>) { forall d :: d in pins ==> !Special(d) }

  ghost predicate Avoids(rs: seq<Route>, pins: set<Dst>) { forall r :: r in rs ==> r.dst !in pins }

  lemma {:induction false} DropAllGuarded(g: Rig, rs: seq<Route>, pins: set<Dst>, owner: Option<Peer>)
    requires Guarded(g.host, pins, owner) && (NoSplit(g.host.table) || Avoids(rs, pins))
    ensures var after := DropAll(g, rs);
            && Extends(g.seen, after.seen) && AllGuarded(after.seen, |g.seen|, pins, owner)
            && Guarded(after.host, pins, owner) && (NoSplit(g.host.table) ==> NoSplit(after.host.table))
            && (Pinning(g.host, pins, owner) && Avoids(rs, pins) ==> Pinning(after.host, pins, owner))
    decreases |rs|
  {
    if rs != [] {
      var next := Exec(g, Without(g.host, rs[0], g.gw));
      assert rs == [rs[0]] + rs[1..];
      assert rs[0] in rs;
      DropAllGuarded(next, rs[1..], pins, owner);
    }
  }

  /** With only bypass routes left, nothing of the host's routing enters the tunnel. */
  lemma NoSplitLeft(g: Rig, base: Table)
    requires Sound(g, base) && forall r :: r in g.routes ==> r.kind == Bypass
    ensures NoSplit(g.host.table)
  {
    assert LOW !in DstsOf(g.routes) && HIGH !in DstsOf(g.routes);
    assert Lookup(g.host.table, LOW) == Lookup(base, LOW);
    assert Lookup(g.host.table, HIGH) == Lookup(base, HIGH);
    assert Special(LOW) && Special(HIGH);
  }

  lemma BackQuiet(g: Rig, pins: set<Dst>, owner: Option<Peer>)
    requires NoSplit(g.host.table)
    ensures var back := HandedBack(Stripped(g));
            NoSplit(back.host.table) && Extends(g.seen, back.seen) && AllGuarded(back.seen, |g.seen|, pins, owner)
  {}

  lemma QuietTail(g: Rig, pins: set<Dst>, owner: Option<Peer>)
    requires NoSplit(g.host.table)
    ensures var after := Unmasked(Deleted(HandedBack(Stripped(g)), All));
            Extends(g.seen, after.seen) && AllGuarded(after.seen, |g.seen|, pins, owner)
  {
    hide DropAll, Doomed, Kept, HandedBack, Stripped;
    BackQuiet(g, pins, owner);
    var back := HandedBack(Stripped(g));
    DropAllGuarded(back, Doomed(back.routes, All), pins, owner);
  }

  lemma DeactivatedOrdered(g: Rig, base: Table, pins: set<Dst>, owner: Option<Peer>)
    requires Sound(g, base) && Guarded(g.host, pins, owner) && NoneSpecial(pins)
    ensures Extends(g.seen, Deactivated(g).seen) && AllGuarded(Deactivated(g).seen, |g.seen|, pins, owner)
  {
    hide DropAll, Doomed, Kept, HandedBack, Stripped, Unmasked;
    if !Idle(g) {
      DeletedKeeps(g, Others, base);
      DoomedMeans(g.routes, Others);
      DropAllGuarded(g, Doomed(g.routes, Others), pins, owner);
      var split := Deleted(g, Others);
      NoSplitLeft(split, base);
      QuietTail(split, pins, owner);
    }
  }

  /** While host routes are added nothing enters the tunnel. */
  lemma {:induction false} AddHostsQuiet(g: Rig, add: seq<Route>, t: Answers, base: Table)
    requires Sound(g, base) && AllAddable(g, add, base) && NoSplit(g.host.table)
    requires forall r :: r in add ==> r.kind == Bypass
    ensures var after := AddAll(g, add, t).0;
            NoSplit(after.host.table) && forall i :: |g.seen| <= i < |after.seen| ==> NoSplit(after.seen[i].table)
    decreases |add|
  {
    hide AddOne, Sound, AllAddable;
    if add != [] {
      HeadAddable(g, add, base);
      AddOneKeeps(g, add[0], t, base);
      AddOneIs(g, add[0], t, base);
      var step := AddOne(g, add[0], t);
      if step.1 {
        TailAddable(g, step.0, add, base);
        AddHostsQuiet(step.0, add[1..], t, base);
        AddAllKeeps(step.0, add[1..], t, base);
      }
    }
  }

  /** Once every pin is in place, adding more keeps it there. */
  lemma {:induction false} AddRestPinned(g: Rig, add: seq<Route>, t: Answers, base: Table, pins: set<Dst>,
                                         owner: Option<Peer>)
    requires Sound(g, base) && AllAddable(g, add, base) && Pinning(g.host, pins, owner)
    ensures var after := AddAll(g, add, t).0;
            && Pinning(after.host, pins, owner)
            && forall i :: |g.seen| <= i < |after.seen| ==> Pinning(after.seen[i], pins, owner)
    decreases |add|
  {
    hide AddOne, Sound, AllAddable;
    if add != [] {
      HeadAddable(g, add, base);
      AddOneKeeps(g, add[0], t, base);
      AddOneIs(g, add[0], t, base);
      var step := AddOne(g, add[0], t);
      if step.1 {
        TailAddable(g, step.0, add, base);
        AddRestPinned(step.0, add[1..], t, base, pins, owner);
        AddAllKeeps(step.0, add[1..], t, base);
      }
    }
  }

  lemma {:induction false} AddAllSplit(g: Rig, a: seq<Route>, b: seq<Route>, t: Answers)
    ensures var first := AddAll(g, a, t);
            AddAll(g, a + b, t) == if first.1 then AddAll(first.0, b, t) else first
    decreases |a|
  {
    if a == [] {
      assert a + b == b;
    } else {
      assert (a + b)[1..] == a[1..] + b;
      AddAllSplit(AddOne(g, a[0], t).0, a[1..], b, t);
    }
  }

  ghost function PinsOf(desired: seq<Route>, critical: set<nat>): set<Dst> {
    set r | r in desired && Critical(critical, r) :: r.dst
  }

  lemma AddPlanGuarded(g: Rig, desired: seq<Route>, hosts: nat, t: Answers, base: Table, exit: Peer)
    requires Sound(g, base) && g.routes == [] && g.host.owner == Some(exit)
    requires PlanFits(desired, hosts) && AllAddable(g, desired, base)
    ensures var after, pins := AddAll(g, desired, t).0, PinsOf(desired, t.critical);
            && AllGuarded(after.seen, |g.seen|, pins, Some(exit)) && Guarded(after.host, pins, Some(exit))
            && (AddAll(g, desired, t).1 ==> Pinning(after.host, pins, Some(exit)))
  {
    hide Sound, AddAll, KindOf, Special;
    var a, b, pins := desired[..hosts], desired[hosts..], PinsOf(desired, t.critical);
    assert a + b == desired;
    AddAllSplit(g, a, b, t);
    NoSplitLeft(g, base);
    AddAllKeeps(g, a, t, base);
    AddHostsQuiet(g, a, t, base);
    var first := AddAll(g, a, t);
    if first.1 {
      PinsServed(desired, hosts, first.0, t.critical);
      RestAddable(g, first.0, desired, hosts, base);
      AddRestPinned(first.0, b, t, base, pins, Some(exit));
      AddAllKeeps(first.0, b, t, base);
    }
  }

  lemma PinsServed(desired: seq<Route>, hosts: nat, g: Rig, critical: set<nat>)
    requires PlanFits(desired, hosts)
    requires forall r :: r in desired[..hosts] ==> Served(g, r, critical)
    ensures PinsOf(desired, critical) <= g.host.table.Keys
  {
    hide KindOf;
    forall r | r in desired && Critical(critical, r) ensures r in desired[..hosts] {
      var i :| 0 <= i < |desired| && desired[i] == r;
      assert desired[..hosts][i] == r;
    }
  }

  lemma RestAddable(g: Rig, after: Rig, desired: seq<Route>, hosts: nat, base: Table)
    requires PlanFits(desired, hosts) && AllAddable(g, desired, base) && after.overwrites == g.overwrites
    requires forall r :: r in after.routes ==> r in g.routes || r in desired[..hosts]
    ensures AllAddable(after, desired[hosts..], base)
  {
    hide KindOf;
    assert forall r :: r in desired[hosts..] ==> r in desired && r.kind != Bypass;
    assert forall r :: r in desired[..hosts] ==> r in desired && r.kind == Bypass;
  }

  lemma {:induction false} MissingFromNothing(desired: seq<Route>)
    ensures Missing([], desired) == desired
    decreases |desired|
  {
    if desired != [] {
      var front := desired[..|desired| - 1];
      assert desired == front + [desired[|desired| - 1]];
      MissingFromNothing(front);
    }
  }

  /** The plan's pins are host routes. */
  lemma PinsNotSpecial(desired: seq<Route>, critical: set<nat>)
    requires Shaped(desired)
    ensures NoneSpecial(PinsOf(desired, critical))
  {}

  /** A first activation has nothing to remove. */
  lemma FirstTrimmed(g: Rig, desired: seq<Route>, gw: Option<Gateway>, serverListed: bool, base: Table)
    requires Sound(g, base) && g.routes == []
    ensures var pinned := Repinned(g, gw, serverListed);
            var trimmed := Trimmed(pinned, desired, gw);
            && pinned.routes == [] && Sound(trimmed, base) && trimmed.routes == [] && trimmed.overwrites == g.overwrites
            && trimmed.host == g.host && trimmed.seen == g.seen && NoSplit(g.host.table)
  {
    hide Sound;
    NoSplitLeft(g, base);
    SoundRest(g, base);
    RegatedKeeps(Repinned(g, gw, serverListed), gw, base);
  }

  lemma AddedPlanOrdered(g: Rig, exit: Peer, desired: seq<Route>, hosts: nat, t: Answers, base: Table)
    requires Sound(g, base) && g.routes == [] && g.host.owner == Some(exit)
    requires PlanFits(desired, hosts) && Fits(g, desired, base)
    ensures var after, pins := AddedPlan(g, desired, t).0, PinsOf(desired, t.critical);
            && Extends(g.seen, after.seen) && AllGuarded(after.seen, |g.seen|, pins, Some(exit))
            && Sound(after, base) && Guarded(after.host, pins, Some(exit))
  {
    hide Sound, AddAll, PlanFits, AllAddable;
    MissingFromNothing(desired);
    MissingAddable([], desired, hosts, g, base);
    AddAllKeeps(g, desired, t, base);
    AddPlanGuarded(g, desired, hosts, t, base, exit);
    MasqueradeSound(AddAll(g, desired, t).0, t, base);
  }

  lemma FirstInstallingOrdered(g: Rig, exit: Peer, desired: seq<Route>, hosts: nat, t: Answers, base: Table)
    requires Sound(g, base) && g.routes == [] && PlanFits(desired, hosts) && Fits(g, desired, base)
    ensures var after, pins := Installing(g, exit, desired, t).0, PinsOf(desired, t.critical);
            && Extends(g.seen, after.seen) && AllGuarded(after.seen, |g.seen|, pins, Some(exit))
            && Sound(after, base) && Guarded(after.host, pins, Some(exit))
  {
    hide Sound, AddedPlan, PlanFits, Repinned, Trimmed, Missing, NoSplit;
    var gw := GatewayFor(g, t);
    FirstTrimmed(g, desired, gw, t.serverListed, base);
    var trimmed := Trimmed(Repinned(g, gw, t.serverListed), desired, gw);
    if trimmed.host.owner == Some(exit) || t.ipcWorks {
      var owning := Owning(trimmed, exit);
      SoundRest(trimmed, base);
      MissingFromNothing(desired);
      AddedPlanOrdered(owning, exit, desired, hosts, t, base);
    }
  }

  lemma MasqueradeSound(g: Rig, t: Answers, base: Table)
    requires Sound(g, base)
    ensures Sound(Masquerade(g, t), base)
  {}

  /** At every point of a first activation, and of the deactivation that follows when it fails,
      nothing is routed into the tunnel unless every planned critical endpoint has a host route
      and the exit peer owns 0.0.0.0/0. */
  lemma FirstActivationIsOrdered(g: Rig, exit: Peer, t: Answers, base: Table)
    requires PlanOk(t.plan) && Sound(g, base) && g.routes == [] && Fits(g, Planned(t.plan), base)
    ensures var step, pins := Activated(g, exit, t), PinsOf(Planned(t.plan), t.critical);
            && AllGuarded(step.0.seen, |g.seen|, pins, Some(exit))
            && AllGuarded(Deactivated(step.0).seen, |g.seen|, pins, Some(exit))
    ensures var pins := PinsOf(Planned(t.plan), t.critical);
            forall a :: a in PlannedBypass(t.plan) && a in t.critical ==> HostOf(a) in pins
  {
    hide Sound, Planned, PlannedBypass, Installing, Deactivated, Special, KindOf;
    PlannedFits(t.plan);
    PlanKeys(t.plan);
    var desired := Planned(t.plan);
    var step, pins := Activated(g, exit, t), PinsOf(desired, t.critical);
    PinsNotSpecial(desired, t.critical);
    forall a | a in PlannedBypass(t.plan) && a in t.critical ensures V4(Cidr.Prefix(a, 32)) in pins {
      assert Critical(t.critical, Route(V4(Cidr.Prefix(a, 32)), Bypass));
    }
    NoSplitLeft(g, base);
    if GatewayFor(g, t).Some? {
      FirstInstallingOrdered(g, exit, desired, |PlannedBypass(t.plan)|, t, base);
    }
    DeactivatedOrdered(step.0, base, pins, Some(exit));
  }

  /** Which critical endpoints that claim is about: of the candidates that can be pinned, those
      with fewer lower candidates than the limit. */
  lemma CriticalPinnedIff(t: Answers, a: nat)
    requires PlanOk(t.plan) && a in Pinned(t.plan, |t.plan.bypass|) && a in t.critical
    ensures HostOf(a) in PinsOf(Planned(t.plan), t.critical) <==> |Below(t.plan, a)| < Limit(t.plan)
  {
    hide Planned, PlannedBypass, Pinned, Below;
    PlannedIff(t.plan, a);
    PlanKeys(t.plan);
    if a in PlannedBypass(t.plan) {
      assert Critical(t.critical, Route(HostOf(a), Bypass));
    }
    forall r | r in Planned(t.plan) && r.kind == Bypass ensures r.dst.V4?
           && r.dst.prefix.addr in PlannedBypass(t.plan) {
      var i :| 0 <= i < |Planned(t.plan)| && Planned(t.plan)[i] == r;
      assert PlannedShape(t.plan, Planned(t.plan)[i]);
    }
  }

  ghost function BypassDsts(routes: seq<Route>): set<Dst> { set r | r in routes && r.kind == Bypass :: r.dst }

  /** At every point of a deactivation, while anything is routed into the tunnel every bypass
      route is still there and 0.0.0.0/0 has not changed hands. */
  lemma DeactivationIsOrdered(g: Rig, base: Table)
    requires Sound(g, base)
    ensures AllGuarded(Deactivated(g).seen, |g.seen|, BypassDsts(g.routes), g.host.owner)
  {
    DeactivatedOrdered(g, base, BypassDsts(g.routes), g.host.owner);
  }

  // ---------------------------------------------------------------- re-activation

  /** The bypass routes that are recorded and still planned. */
  ghost function StillPlanned(routes: seq<Route>, desired: seq<Route>): set<Dst> {
    set r | r in routes && r in desired && r.kind == Bypass :: r.dst
  }

  lemma {:induction false} DeletedEachPinned(g: Rig, del: seq<Route>, pins: set<Dst>, owner: Option<Peer>)
    requires Pinning(g.host, pins, owner) && Avoids(del, pins)
    ensures var after := DeletedEach(g, del);
            && Extends(g.seen, after.seen) && AllGuarded(after.seen, |g.seen|, pins, owner)
            && Pinning(after.host, pins, owner)
    decreases |del|
  {
    hide DropAll, Doomed, Kept;
    if del != [] {
      assert del == [del[0]] + del[1..];
      DoomedMeans(g.routes, Exactly(del[0]));
      DropAllGuarded(g, Doomed(g.routes, Exactly(del[0])), pins, owner);
      DeletedEachPinned(Deleted(g, Exactly(del[0])), del[1..], pins, owner);
    }
  }

  lemma CoverJoins(a: seq<Host>, b: seq<Host>, from: nat, pins: set<Dst>, owner: Option<Peer>)
    requires AllCovered(a, from, pins) && Extends(a, b) && AllGuarded(b, |a|, pins, owner)
    ensures AllCovered(b, from, pins)
  {}

  lemma AddedPlanPinned(g: Rig, add: seq<Route>, t: Answers, base: Table, pins: set<Dst>)
    requires Sound(g, base) && AllAddable(g, add, base) && pins <= g.host.table.Keys
    ensures var after := AddedPlan(g, add, t).0;
            && Sound(after, base) && Extends(g.seen, after.seen)
            && AllGuarded(after.seen, |g.seen|, pins, g.host.owner) && pins <= after.host.table.Keys
  {
    hide Sound, AddAll, AllAddable;
    AddAllKeeps(g, add, t, base);
    AddRestPinned(g, add, t, base, pins, g.host.owner);
    MasqueradeSound(AddAll(g, add, t).0, t, base);
  }

  lemma TrimmedPinned(g: Rig, desired: seq<Route>, gw: Option<Gateway>, base: Table, pins: set<Dst>)
    requires Sound(g, base) && (g.gw == gw || forall r :: r in g.routes ==> r.kind != Bypass)
    requires pins <= g.host.table.Keys && Avoids(Stale(g.routes, desired), pins)
    ensures var trimmed := Trimmed(g, desired, gw);
            && Sound(trimmed, base) && Extends(g.seen, trimmed.seen) && trimmed.overwrites == g.overwrites
            && AllGuarded(trimmed.seen, |g.seen|, pins, g.host.owner) && pins <= trimmed.host.table.Keys
            && (forall r :: r in trimmed.routes ==> r in g.routes)
  {
    hide Sound, DeletedEach, Stale;
    var del := Stale(g.routes, desired);
    DeletedEachKeeps(g, del, base);
    RegatedKeeps(DeletedEach(g, del), gw, base);
    DeletedEachPinned(g, del, pins, g.host.owner);
  }

  /** What is in the table and not about to be removed stays there to the end. */
  lemma FinishedPinned(g: Rig, exit: Peer, desired: seq<Route>, hosts: nat, gw: Option<Gateway>, t: Answers,
                       base: Table, pins: set<Dst>)
    requires Sound(g, base) && (g.gw == gw || forall r :: r in g.routes ==> r.kind != Bypass)
    requires PlanFits(desired, hosts) && Fits(g, desired, base)
    requires pins <= g.host.table.Keys && Avoids(Stale(g.routes, desired), pins)
    ensures var after := Finished(g, exit, desired, gw, t).0;
            && Sound(after, base) && Extends(g.seen, after.seen)
            && AllCovered(after.seen, |g.seen|, pins) && pins <= after.host.table.Keys
  {
    hide Sound, AddedPlan, PlanFits, Trimmed, Stale, Missing, AllAddable, AllGuarded, AllCovered, NoSplit;
    TrimmedPinned(g, desired, gw, base, pins);
    var trimmed := Trimmed(g, desired, gw);
    NothingSeen(g.seen, pins);
    CoverJoins(g.seen, trimmed.seen, |g.seen|, pins, g.host.owner);
    if trimmed.host.owner == Some(exit) || t.ipcWorks {
      SoundRest(trimmed, base);
      var owning, add := Owning(trimmed, exit), Missing(g.routes, desired);
      MissingAddable(g.routes, desired, hosts, owning, base);
      AddedPlanPinned(owning, add, t, base, pins);
      OwningCovered(trimmed, exit, |g.seen|, pins);
      CoverJoins(owning.seen, AddedPlan(owning, add, t).0.seen, |g.seen|, pins, owning.host.owner);
    }
  }

  lemma NothingSeen(seen: seq<Host>, pins: set<Dst>)
    ensures AllCovered(seen, |seen|, pins)
  {}

  lemma OwningCovered(g: Rig, exit: Peer, from: nat, pins: set<Dst>)
    requires pins <= g.host.table.Keys && AllCovered(g.seen, from, pins)
    ensures AllCovered(Owning(g, exit).seen, from, pins)
  {}

  lemma StaleAvoids(routes: seq<Route>, desired: seq<Route>)
    requires Shaped(routes) && Shaped(desired)
    ensures Avoids(Stale(routes, desired), StillPlanned(routes, desired))
  {
    hide Stale;
    StaleMeans(routes, desired);
  }

  lemma {:induction false} DropAllLast(g: Rig, rs: seq<Route>)
    requires rs != []
    ensures var after := DropAll(g, rs); |after.seen| > |g.seen| && after.seen[|after.seen| - 1] == after.host
    decreases |rs|
  {
    var next := Exec(g, Without(g.host, rs[0], g.gw));
    if rs[1..] != [] {
      DropAllLast(next, rs[1..]);
    }
  }

  /** A gateway move takes every bypass route away while the split routes stay, and the host is
      seen like that. */
  lemma GatewayMoveUnpins(g: Rig, gw: Option<Gateway>, serverListed: bool, base: Table)
    requires Sound(g, base) && gw != g.gw && Route(LOW, Tunnel) in g.routes && BypassDsts(g.routes) != {}
    ensures var moved := Repinned(g, gw, serverListed);
            && LOW in moved.host.table && BypassDsts(g.routes) !! moved.host.table.Keys
            && |moved.seen| > |g.seen| && moved.seen[|moved.seen| - 1] == moved.host
            && Extends(g.seen, moved.seen)
            && Sound(moved, base) && moved.overwrites == g.overwrites
            && forall r :: r in moved.routes ==> r.kind != Bypass
  {
    hide DropAll, Doomed, Kept;
    DeletedKeeps(g, Bypasses, base);
    DoomedMeans(g.routes, Bypasses);
    var d :| d in BypassDsts(g.routes);
    DropAllLast(g, Doomed(g.routes, Bypasses));
    var moved := Deleted(g, Bypasses);
    assert Route(LOW, Tunnel) in moved.routes;
    forall r | r in g.routes && r.kind == Bypass ensures r.dst !in moved.host.table {
      assert forall q :: q in moved.routes && q.dst == r.dst ==> q == r;
      assert Lookup(moved.host.table, r.dst) == Lookup(base, r.dst);
    }
  }

  /** A re-activation keeps the order, through the deactivation that follows if it fails, if and
      only if the gateway has not moved or no bypass route is both recorded and still planned. */
  lemma ReactivationIsOrderedIff(g: Rig, exit: Peer, t: Answers, base: Table)
    requires PlanOk(t.plan) && Sound(g, base) && Fits(g, Planned(t.plan), base) && Route(LOW, Tunnel) in g.routes
    ensures var after, pins := Activated(g, exit, t).0, StillPlanned(g.routes, Planned(t.plan));
            var steady := GatewayFor(g, t) == g.gw || pins == {};
            && (AllCovered(after.seen, |g.seen|, pins) <==> steady)
            && (AllCovered(Deactivated(after).seen, |g.seen|, pins) <==> steady)
  {
    hide Sound, Planned, PlannedBypass, Installing, Deactivated, AllCovered, StillPlanned, AllGuarded, NoneSpecial;
    var after, pins := Activated(g, exit, t).0, StillPlanned(g.routes, Planned(t.plan));
    StillPlannedIs(g, Planned(t.plan), base);
    if GatewayFor(g, t) == g.gw {
      SteadyCovered(g, exit, t, base);
      DeactivatedOrdered(after, base, pins, after.host.owner);
      CoverJoins(after.seen, Deactivated(after).seen, |g.seen|, pins, after.host.owner);
    } else if pins == {} {
      NoPins(after.seen, |g.seen|);
      NoPins(Deactivated(after).seen, |g.seen|);
    } else {
      MovedUncovered(g, exit, t, base);
    }
  }

  lemma NoPins(seen: seq<Host>, from: nat)
    ensures AllCovered(seen, from, {})
  {}

  lemma StillPlannedIs(g: Rig, desired: seq<Route>, base: Table)
    requires Sound(g, base)
    ensures var pins := StillPlanned(g.routes, desired);
            pins <= BypassDsts(g.routes) && pins <= g.host.table.Keys && NoneSpecial(pins)
  {}

  lemma SteadyCovered(g: Rig, exit: Peer, t: Answers, base: Table)
    requires PlanOk(t.plan) && Sound(g, base) && Fits(g, Planned(t.plan), base) && g.routes != []
    requires GatewayFor(g, t) == g.gw
    ensures var after, pins := Activated(g, exit, t).0, StillPlanned(g.routes, Planned(t.plan));
            Sound(after, base) && AllCovered(after.seen, |g.seen|, pins) && pins <= after.host.table.Keys
  {
    hide Planned, PlannedBypass, Finished, AllCovered, StillPlanned, Wears, Apart, NoSpecial, KindOf, Avoids, Stale;
    StillPlannedIs(g, Planned(t.plan), base);
    StaleAvoids(g.routes, Planned(t.plan)) by { PlannedFits(t.plan); }
    NothingSeen(g.seen, StillPlanned(g.routes, Planned(t.plan)));
    if g.gw.Some? {
      PlannedFits(t.plan);
      FinishedPinned(g, exit, Planned(t.plan), |PlannedBypass(t.plan)|, g.gw, t, base,
                     StillPlanned(g.routes, Planned(t.plan)));
    }
  }

  lemma MovedUncovered(g: Rig, exit: Peer, t: Answers, base: Table)
    requires PlanOk(t.plan) && Sound(g, base) && Fits(g, Planned(t.plan), base) && Route(LOW, Tunnel) in g.routes
    requires GatewayFor(g, t) != g.gw && StillPlanned(g.routes, Planned(t.plan)) != {}
    ensures var after, pins := Activated(g, exit, t).0, StillPlanned(g.routes, Planned(t.plan));
            !AllCovered(after.seen, |g.seen|, pins) && !AllCovered(Deactivated(after).seen, |g.seen|, pins)
  {
    hide Planned, PlannedBypass, Finished, Deactivated, Sound, StillPlanned, Repinned, BypassDsts, AllGuarded, Fits;
    var gw, desired := GatewayFor(g, t), Planned(t.plan);
    StillPlannedIs(g, desired, base);
    GatewayMoveUnpins(g, gw, t.serverListed, base);
    var moved, after := Repinned(g, gw, t.serverListed), Activated(g, exit, t).0;
    PlannedFits(t.plan);
    FitsSame(g, moved, desired, base);
    FinishedPinned(moved, exit, desired, |PlannedBypass(t.plan)|, gw, t, base, {});
    DeactivatedOrdered(after, base, {}, after.host.owner);
    assert !Covered(moved.seen[|moved.seen| - 1], StillPlanned(g.routes, desired));
  }

  lemma FitsSame(g: Rig, after: Rig, desired: seq<Route>, base: Table)
    requires Fits(g, desired, base) && after.overwrites == g.overwrites
    ensures Fits(after, desired, base)
  {}

  // ------------------------------------------------------------------ the client's NAT

  /** Off, with the firewall as it was; or on, with every rule once, and disabling gives that
      firewall back. */
  ghost predicate NatSound(g: Rig, rules: Nat.Host) {
    match g.clientNat
    case None => g.host.firewall == rules
    case Some(st) =>
      Nat.ExactlyOnce(g.host.firewall, Nat.Rules(st.plan)) && Nat.Disabled(g.host.firewall, st) == rules
  }

  function ClientRules(p: Nat.Plan): seq<Nat.Rule> { Nat.Rules(p.(mode := Nat.ClientMode)) }

  ghost predicate NatFits(t: Answers, rules: Nat.Host) {
    t.client.Some? ==> Nat.Free(rules, ClientRules(t.client.value))
  }

  ghost predicate SameNat(g: Rig, after: Rig) {
    after.host.firewall == g.host.firewall && after.clientNat == g.clientNat
  }

  lemma {:induction false} DropAllNat(g: Rig, rs: seq<Route>)
    ensures SameNat(g, DropAll(g, rs))
    decreases |rs|
  {
    if rs != [] {
      DropAllNat(Exec(g, Without(g.host, rs[0], g.gw)), rs[1..]);
    }
  }

  lemma {:induction false} DeletedEachNat(g: Rig, del: seq<Route>)
    ensures SameNat(g, DeletedEach(g, del))
    decreases |del|
  {
    hide DropAll, Doomed, Kept;
    if del != [] {
      DropAllNat(g, Doomed(g.routes, Exactly(del[0])));
      DeletedEachNat(Deleted(g, Exactly(del[0])), del[1..]);
    }
  }

  lemma {:induction false} AddAllNat(g: Rig, add: seq<Route>, t: Answers)
    ensures SameNat(g, AddAll(g, add, t).0)
    decreases |add|
  {
    hide Fatal, TargetOf;
    if add != [] {
      AddAllNat(AddOne(g, add[0], t).0, add[1..], t);
    }
  }

  /** Before the NAT step: an activation that fails ends there. */
  ghost function BeforeNat(g: Rig, exit: Peer, t: Answers): Rig
    requires PlanOk(t.plan)
  {
    var gw, desired := GatewayFor(g, t), Planned(t.plan);
    var pinned := Repinned(g, gw, t.serverListed);
    var trimmed := Trimmed(pinned, desired, gw);
    if gw.None? then g
    else if trimmed.host.owner != Some(exit) && !t.ipcWorks then trimmed
    else AddAll(Owning(trimmed, exit), Missing(pinned.routes, desired), t).0
  }

  lemma ActivatedNat(g: Rig, exit: Peer, t: Answers)
    requires PlanOk(t.plan)
    ensures SameNat(g, BeforeNat(g, exit, t))
    ensures var step, before := Activated(g, exit, t), BeforeNat(g, exit, t);
            step.0 == if step.1 then Masquerade(before, t) else before
  {
    hide Planned, Stale, Missing, AddAll, DeletedEach, DropAll, Doomed, Kept, Masquerade;
    var gw, desired := GatewayFor(g, t), Planned(t.plan);
    DropAllNat(g, Doomed(g.routes, Bypasses));
    var pinned := Repinned(g, gw, t.serverListed);
    DeletedEachNat(pinned, Stale(pinned.routes, desired));
    AddAllNat(Owning(Trimmed(pinned, desired, gw), exit), Missing(pinned.routes, desired), t);
  }

  lemma ActivatedKeepsNat(g: Rig, exit: Peer, t: Answers, rules: Nat.Host)
    requires PlanOk(t.plan) && NatSound(g, rules) && NatFits(t, rules)
    ensures NatSound(Activated(g, exit, t).0, rules)
  {
    hide Activated, BeforeNat, Nat.Enabled, Nat.Disabled, Nat.Rules;
    ActivatedNat(g, exit, t);
    if g.clientNat.None? && t.client.Some? {
      Nat.EnableIsAllOrNothing(rules, t.client.value.(mode := Nat.ClientMode), Nat.Flag(false, false), t.adds);
      EnabledPlan(rules, t.client.value, t.adds);
    }
  }

  lemma EnabledPlan(h: Nat.Host, p: Nat.Plan, adds: nat)
    ensures var result := ClientEnabled(h, p, adds).1; result.Some? ==> result.value.plan == p.(mode := Nat.ClientMode)
  {
    hide Nat.Applied, Nat.Withdrawn;
  }

  lemma DeactivatedNat(g: Rig)
    ensures var after := Deactivated(g);
            && after.clientNat.None?
            && after.host.firewall == if g.clientNat.None? then g.host.firewall
                else Nat.Disabled(g.host.firewall, g.clientNat.value)
  {
    hide DropAll, Doomed, Kept, Nat.Disabled;
    var split := Deleted(g, Others);
    DropAllNat(g, Doomed(g.routes, Others));
    var back := HandedBack(Stripped(split));
    DropAllNat(back, Doomed(back.routes, All));
  }

  lemma DeactivatedKeepsNat(g: Rig, rules: Nat.Host)
    requires NatSound(g, rules)
    ensures NatSound(Deactivated(g), rules)
  {
    hide Deactivated, Nat.Disabled, Nat.ExactlyOnce;
    DeactivatedNat(g);
  }

  // ------------------------------------------------------------------------------ runs

  /** `base` is the routing table as it is without the engine's routes, `rules` the firewall as
      it is without the engine's rules. */
  datatype World = World(s: State, base: Table, rules: Nat.Host)

  datatype Event =
    | Choose(ip: nat, key: Peer)
    | Clear
    | Status(peer: Peer, data: seq<nat>)
    | Reconcile(tick: Tick)
    | Elsewhere(dst: Dst, hop: Option<Target>)
    | Repunch(peer: Peer)
    | Retake

  function Put(table: Table, d: Dst, hop: Option<Target>): Table {
    if hop.Some? then table[d := hop.value] else table - {d}
  }

  function Repunched(h: Host, peer: Peer): Host { if h.owner == Some(peer) then h.(owner := None) else h }

  ghost function OnHost(s: State, h: Host): State { s.(rig := s.rig.(host := h)) }

  /** What may happen: the clock does not run back; a discovered peer is not the server, which is
      in the device's dump when it owns 0.0.0.0/0; where the route command overwrites, no planned
      key is taken; no rule of the client NAT is on the host before; other software leaves the
      split keys and the engine's routes alone; a re-punch resets a peer other than the server;
      and a rewrite of the server's allowed IPs takes 0.0.0.0/0 back if the server had it. */
  ghost predicate Legal(w: World, e: Event) {
    match e
    case Reconcile(t) =>
      && w.s.clock <= t.now && PlanOk(t.answers.plan) && (forall ip :: ip in t.peers ==> t.peers[ip].key != SERVER)
      && (w.s.rig.host.owner == Some(SERVER) ==> t.answers.serverListed)
      && Fits(w.s.rig, Planned(t.answers.plan), w.base) && NatFits(t.answers, w.rules)
    case Elsewhere(d, _) => !Special(d) && d !in DstsOf(w.s.rig.routes)
    case Repunch(peer) => peer != SERVER
    case Retake => w.s.rig.serverHad || w.s.rig.host.owner == Some(SERVER)
    case _ => true
  }

  ghost function Next(w: World, e: Event): World
    requires Legal(w, e)
  {
    match e
    case Choose(ip, key) => w.(s := Chosen(w.s, ip, key))
    case Clear => w.(s := Unchosen(w.s))
    case Status(peer, data) => w.(s := Told(w.s, peer, data))
    case Reconcile(t) => w.(s := Reconciled(w.s, t))
    case Elsewhere(d, hop) =>
      w.(s := OnHost(w.s, w.s.rig.host.(table := Put(w.s.rig.host.table, d, hop))), base := Put(w.base, d, hop))
    case Repunch(peer) => w.(s := OnHost(w.s, Repunched(w.s.rig.host, peer)))
    case Retake => w.(s := OnHost(w.s, w.s.rig.host.(owner := Some(SERVER))))
  }

  /** A run: a sequence of worlds, each the next of the one before. */
  ghost predicate Run(ws: seq<World>, es: seq<Event>) {
    && |ws| == |es| + 1
    && forall i :: 0 <= i < |es| ==> Legal(ws[i], es[i]) && ws[i + 1] == Next(ws[i], es[i])
  }

  ghost predicate ActiveMeans(s: State, first: Option<Peer>) {
    && Engaged(s.rig, first) && Route(LOW, Tunnel) in s.rig.routes && Route(HIGH, Tunnel) in s.rig.routes
    && s.use.Some? && s.useKey.Some? && s.useKey.value != SERVER
    && (s.rig.host.owner == None || s.rig.host.owner == s.useKey || s.rig.host.owner == Some(SERVER))
    && s.retryAt <= s.clock && PathLive(s.health, s.clock) && s.health.granted
  }

  ghost predicate Steady(s: State, base: Table, first: Option<Peer>) {
    Settled(s.rig, base, first) && if s.phase == Active then ActiveMeans(s, first) else Clean(s.rig, first)
  }

  ghost predicate Inv(w: World, first: Option<Peer>) { Steady(w.s, w.base, first) }

  lemma ActivatedKeeps(g: Rig, exit: Peer, t: Answers, base: Table, first: Option<Peer>)
    requires PlanOk(t.plan) && Settled(g, base, first) && Fits(g, Planned(t.plan), base) && exit != SERVER
    requires g.host.owner == Some(SERVER) ==> t.serverListed
    ensures var step := Activated(g, exit, t);
            && Tidy(step.0, base, first)
            && (step.1 ==>
                  && Engaged(step.0, first) && Tunnelled(step.0, exit)
                  && Follows(step.0, Planned(t.plan), t, base) && step.0.gw == GatewayFor(g, t))
  {
    hide Sound, Planned, PlannedBypass, Installing, Follows;
    PlannedFits(t.plan);
    if GatewayFor(g, t).Some? {
      InstallingKeeps(g, exit, Planned(t.plan), |PlannedBypass(t.plan)|, t, base, first);
    }
  }

  lemma EngageKeeps(s: State, t: Tick, base: Table, first: Option<Peer>)
    requires Settled(s.rig, base, first) && s.useKey.Some? && s.useKey.value != SERVER && s.use.Some?
    requires s.clock == t.now && PathLive(s.health, t.now) && s.health.granted
    requires PlanOk(t.answers.plan) && Fits(s.rig, Planned(t.answers.plan), base)
    requires s.rig.host.owner == Some(SERVER) ==> t.answers.serverListed
    requires if s.phase == Active then s.retryAt <= s.clock else Clean(s.rig, first)
    ensures Steady(Engage(s, t), base, first)
    ensures Engage(s, t).phase == Active ==> Engage(s, t).rig.host.owner == Engage(s, t).useKey
  {
    hide Sound, Planned, Activated, Deactivated, PathLive;
    if t.now >= s.retryAt {
      ActivatedKeeps(s.rig, s.useKey.value, t.answers, base, first);
      var step := Activated(s.rig, s.useKey.value, t.answers);
      if step.1 {
        assert step.0.routes != [] by { NoRoutes(step.0.routes); }
      } else {
        DeactivatedRestores(step.0, base, first);
      }
    }
  }

  lemma TickKeeps(w: World, t: Tick, first: Option<Peer>)
    requires Inv(w, first) && Legal(w, Reconcile(t))
    ensures var after := Next(w, Reconcile(t));
            Inv(after, first) && (after.s.phase == Active ==> after.s.rig.host.owner == after.s.useKey)
  {
    hide Sound, Planned, Deactivated, Engage, PathLive, Fits;
    var s := w.s;
    DeactivatedRestores(s.rig, w.base, first);
    if s.use.Some? {
      var o := Observed(s, t);
      if NextPhase(o.health, t.now) == Active {
        assert o.health.listed by { LiveIsListed(o.health, t.now); }
        EngageKeeps(o, t, w.base, first);
      }
    }
  }

  lemma LiveIsListed(h: PathHealth, now: nat)
    requires PathLive(h, now)
    ensures h.listed
  {}

  lemma PutKeeps(g: Rig, d: Dst, hop: Option<Target>, base: Table)
    requires Sound(g, base) && !Special(d) && d !in DstsOf(g.routes)
    ensures Sound(g.(host := g.host.(table := Put(g.host.table, d, hop))), Put(base, d, hop))
  {
    hide Special, KindOf, TargetOf;
    var table := Put(g.host.table, d, hop);
    forall e | e !in DstsOf(g.routes) ensures Lookup(table, e) == Lookup(Put(base, d, hop), e) {
      assert Lookup(g.host.table, e) == Lookup(base, e);
    }
    forall r | r in g.routes
      ensures r.dst in table && table[r.dst] == TargetOf(r, g.gw) && r.dst !in Put(base, d, hop)
    {
      assert r.dst in DstsOf(g.routes);
    }
  }

  lemma StepKeeps(w: World, e: Event, first: Option<Peer>)
    requires Inv(w, first) && Legal(w, e)
    ensures Inv(Next(w, e), first)
  {
    hide Sound, Planned, Deactivated, Reconciled, PathLive, Fits, Special;
    match e
    case Reconcile(t) => TickKeeps(w, t, first);
    case Choose(_, _) => DeactivatedRestores(w.s.rig, w.base, first);
    case Clear => DeactivatedRestores(w.s.rig, w.base, first);
    case Elsewhere(d, hop) => PutKeeps(w.s.rig, d, hop, w.base);
    case Repunch(_) => SoundRest(w.s.rig, w.base);
    case Retake => SoundRest(w.s.rig, w.base);
    case Status(_, _) =>
  }

  lemma {:induction false} RunKeeps(ws: seq<World>, es: seq<Event>, first: Option<Peer>, k: nat)
    requires Run(ws, es) && Inv(ws[0], first) && k <= |es|
    ensures Inv(ws[k], first)
    decreases k
  {
    hide Inv, Next, Legal;
    if k > 0 {
      RunKeeps(ws, es, first, k - 1);
      StepKeeps(ws[k - 1], es[k - 1], first);
    }
  }

  /** A start: nothing of the engine's on the host, 0.0.0.0/0 with the server or nobody, and no
      route on the split keys. */
  ghost predicate Start(w: World) {
    && Idle(w.s.rig) && !w.s.rig.serverHad && w.s.phase != Active && w.rules == w.s.rig.host.firewall
    && w.base == w.s.rig.host.table && NoSpecial(w.base)
    && (w.s.rig.host.owner == None || w.s.rig.host.owner == Some(SERVER))
  }

  lemma StepKeepsNat(w: World, e: Event)
    requires Legal(w, e) && NatSound(w.s.rig, w.rules)
    ensures NatSound(Next(w, e).s.rig, w.rules) && Next(w, e).rules == w.rules
  {
    hide Planned, Activated, Deactivated, Fits, NatFits, Nat.Disabled, Nat.ExactlyOnce, PathLive, PlanOk;
    DeactivatedKeepsNat(w.s.rig, w.rules);
    if e.Reconcile? && w.s.use.Some? {
      var o := Observed(w.s, e.tick);
      if NextPhase(o.health, e.tick.now) == Active {
        LiveIsListed(o.health, e.tick.now);
        ActivatedKeepsNat(w.s.rig, o.useKey.value, e.tick.answers, w.rules);
        DeactivatedKeepsNat(Activated(w.s.rig, o.useKey.value, e.tick.answers).0, w.rules);
      }
    }
  }

  lemma {:induction false} RunKeepsNat(ws: seq<World>, es: seq<Event>, k: nat)
    requires Run(ws, es) && Start(ws[0]) && k <= |es|
    ensures NatSound(ws[k].s.rig, ws[0].rules) && ws[k].rules == ws[0].rules
    decreases k
  {
    hide Next, Legal;
    if k > 0 {
      RunKeepsNat(ws, es, k - 1);
      assert Legal(ws[k - 1], es[k - 1]) && ws[k] == Next(ws[k - 1], es[k - 1]);
      StepKeepsNat(ws[k - 1], es[k - 1]);
    }
  }

  /** The table that the other software's changes alone would have made. */
  function Outside(table: Table, es: seq<Event>): Table {
    if es == [] then table
    else
      var before, e := Outside(table, es[..|es| - 1]), es[|es| - 1];
      if e.Elsewhere? then Put(before, e.dst, e.hop) else before
  }

  lemma {:induction false} BaseIsOutside(ws: seq<World>, es: seq<Event>, k: nat)
    requires Run(ws, es) && k <= |es|
    ensures ws[k].base == Outside(ws[0].base, es[..k])
    decreases k
  {
    hide Reconciled, Chosen, Unchosen, Told, Legal;
    if k > 0 {
      BaseIsOutside(ws, es, k - 1);
      assert es[..k][..k - 1] == es[..k - 1];
    }
  }

  /** Fail open, over every run.  In the active phase both halves are recorded, every recorded
      route is in the table with the recorded gateway, the chosen exit owns 0.0.0.0/0 after every
      tick, until the next one nobody else does but a server that had it first, the path was live
      and granted at the last tick, and the client NAT is off or has each of its rules once over
      the first firewall.  In any other phase the routing table is what other software alone has
      made of it, 0.0.0.0/0 is back with its first owner, and the firewall is the first one. */
  lemma EngineFailsOpen(ws: seq<World>, es: seq<Event>, k: nat)
    requires Run(ws, es) && Start(ws[0]) && k <= |es|
    ensures var s, start := ws[k].s, ws[0].s.rig.host;
            if s.phase == Active then
              && Route(LOW, Tunnel) in s.rig.routes && Route(HIGH, Tunnel) in s.rig.routes
              && (forall r :: r in s.rig.routes ==> Lookup(s.rig.host.table, r.dst) == Some(TargetOf(r, s.rig.gw)))
              && s.useKey.Some?
              && (s.rig.host.owner == s.useKey || s.rig.host.owner == None
                  || s.rig.host.owner == start.owner == Some(SERVER))
              && (k > 0 && es[k - 1].Reconcile? ==> s.rig.host.owner == s.useKey)
              && PathLive(s.health, s.clock) && s.health.granted && NatSound(s.rig, start.firewall)
            else
              Idle(s.rig) && s.rig.host == Host(Outside(start.table, es[..k]), start.owner, start.firewall)
  {
    hide Next, Legal, PathLive, Special, KindOf;
    var first := ws[0].s.rig.host.owner;
    StartIsInv(ws[0]);
    RunKeeps(ws, es, first, k);
    BaseIsOutside(ws, es, k);
    RunKeepsNat(ws, es, k);
    if ws[k].s.phase != Active {
      BareTable(ws[k].s.rig, ws[k].base);
    } else if k > 0 && es[k - 1].Reconcile? {
      RunKeeps(ws, es, first, k - 1);
      assert Legal(ws[k - 1], es[k - 1]) && ws[k] == Next(ws[k - 1], es[k - 1]);
      TickKeeps(ws[k - 1], es[k - 1].tick, first);
    }
  }

  ghost function RecordedHosts(routes: seq<Route>): set<nat> {
    set r | r in routes && r.kind == Bypass && r.dst.V4? :: r.dst.prefix.addr
  }

  lemma ActiveOverlay(g: Rig, base: Table)
    requires Sound(g, base) && Route(LOW, Tunnel) in g.routes && Route(HIGH, Tunnel) in g.routes
    ensures Overlaid(base, g.host.table, RecordedHosts(g.routes), g.gw)
  {
    var table := g.host.table;
    forall d ensures d in base ==> d in table && table[d] == base[d]
             ensures d in table && d !in base ==> d in DstsOf(g.routes)
    {
      assert d !in DstsOf(g.routes) ==> Lookup(table, d) == Lookup(base, d);
    }
    forall a | a in RecordedHosts(g.routes) ensures HostOf(a) in table && table[HostOf(a)] == Via(g.gw) {
      assert Route(HostOf(a), Bypass) in g.routes;
    }
  }

  /** Over every run, in the active phase, longest-prefix match on the host's table sends each
      recorded bypass address to the recorded gateway, leaves every address whose best outside
      route has length 2 or more on that route, and sends every other into the tunnel. */
  lemma ActiveTrafficFollowsRecord(ws: seq<World>, es: seq<Event>, k: nat, a: nat)
    requires Run(ws, es) && Start(ws[0]) && k <= |es| && ws[k].s.phase == Active && a < Cidr.ADDRESSES
    ensures var g := ws[k].s.rig;
            Carries(Outside(ws[0].s.rig.host.table, es[..k]), g.host.table, RecordedHosts(g.routes), g.gw, a)
  {
    hide Sound, Next, Legal, PathLive, Special, KindOf, Carries, Overlaid;
    var first, g := ws[0].s.rig.host.owner, ws[k].s.rig;
    StartIsInv(ws[0]);
    RunKeeps(ws, es, first, k);
    BaseIsOutside(ws, es, k);
    ActiveOverlay(g, ws[k].base);
    OverlayCarries(ws[k].base, g.host.table, RecordedHosts(g.routes), g.gw, a);
  }

  /** Over every run.  A tick that finds the engine at rest routes nothing into the tunnel before
      every planned critical endpoint has a host route and the exit owns 0.0.0.0/0.  A choice, a
      clear or a lost path that ends the active phase removes no bypass route, and moves no
      ownership, while anything is still routed into the tunnel.  A tick that re-activates keeps
      every bypass route that is still planned, for as long as anything is routed into the
      tunnel, if and only if the gateway has not moved or there is no such route. */
  lemma RunIsOrdered(ws: seq<World>, es: seq<Event>, k: nat)
    requires Run(ws, es) && Start(ws[0]) && k < |es|
    ensures var s, after, e := ws[k].s, ws[k + 1].s, es[k];
            && (s.phase != Active && e.Reconcile? && after.useKey.Some? ==> RestOrdered(s, after, e.tick))
            && (s.phase == Active && after.phase != Active && !(e.Reconcile? && Reactivates(after, e.tick)) ==>
                  AllGuarded(after.rig.seen, |s.rig.seen|, BypassDsts(s.rig.routes), s.rig.host.owner))
            && (s.phase == Active && e.Reconcile? && Reactivates(after, e.tick) ==>
                  ReactivationOrdered(s, after, e.tick))
  {
    hide Next, Legal, Inv, RestOrdered, Reactivates, ReactivationOrdered, AllGuarded, BypassDsts, Special, KindOf;
    var first := ws[0].s.rig.host.owner;
    StartIsInv(ws[0]);
    RunKeeps(ws, es, first, k);
    assert Legal(ws[k], es[k]) && ws[k + 1] == Next(ws[k], es[k]);
    if ws[k].s.phase == Active {
      ActiveEndOrdered(ws[k], es[k], first);
      if es[k].Reconcile? {
        ActiveTickOrdered(ws[k], es[k].tick, first);
      }
    } else if es[k].Reconcile? {
      RestTickOrdered(ws[k], es[k].tick, first);
    }
  }

  /** The tick found a live and granted path, and so activated or tried to. */
  ghost predicate Reactivates(after: State, t: Tick) { NextPhase(after.health, t.now) == Active }

  ghost predicate RestOrdered(s: State, after: State, t: Tick)
    requires after.useKey.Some?
  {
    PlanOk(t.answers.plan)
    && AllGuarded(after.rig.seen, |s.rig.seen|, PinsOf(Planned(t.answers.plan), t.answers.critical), after.useKey)
  }

  ghost predicate ReactivationOrdered(s: State, after: State, t: Tick) {
    PlanOk(t.answers.plan)
    && var pins := StillPlanned(s.rig.routes, Planned(t.answers.plan));
    (AllCovered(after.rig.seen, |s.rig.seen|, pins) <==> GatewayFor(s.rig, t.answers) == s.rig.gw || pins == {})
  }

  lemma StartIsInv(w: World)
    requires Start(w)
    ensures Inv(w, w.s.rig.host.owner)
  {
    assert forall d :: Lookup(w.s.rig.host.table, d) == Lookup(w.base, d);
  }

  lemma RestTickOrdered(w: World, t: Tick, first: Option<Peer>)
    requires Inv(w, first) && Legal(w, Reconcile(t)) && w.s.phase != Active
    ensures var after := Next(w, Reconcile(t)).s; after.useKey.Some? ==> RestOrdered(w.s, after, t)
  {
    hide Planned, PlannedBypass, Activated, Sound, PinsOf;
    var s := w.s;
    if s.use.Some? && Observed(s, t).useKey.Some? {
      FirstActivationIsOrdered(s.rig, Observed(s, t).useKey.value, t.answers, w.base);
    }
  }

  lemma ActiveEndOrdered(w: World, e: Event, first: Option<Peer>)
    requires Inv(w, first) && Legal(w, e) && w.s.phase == Active
    ensures var after := Next(w, e).s;
            after.phase != Active && !(e.Reconcile? && Reactivates(after, e.tick)) ==>
              AllGuarded(after.rig.seen, |w.s.rig.seen|, BypassDsts(w.s.rig.routes), w.s.rig.host.owner)
  {
    hide Planned, Deactivated, Sound, BypassDsts, Activated;
    DeactivationIsOrdered(w.s.rig, w.base);
  }

  lemma ActiveTickOrdered(w: World, t: Tick, first: Option<Peer>)
    requires Inv(w, first) && Legal(w, Reconcile(t)) && w.s.phase == Active
    ensures var after := Next(w, Reconcile(t)).s; Reactivates(after, t) ==> ReactivationOrdered(w.s, after, t)
  {
    hide Planned, Deactivated, Sound, Activated, StillPlanned, AllCovered, PathLive;
    var o := Observed(w.s, t);
    if NextPhase(o.health, t.now) == Active {
      LiveIsListed(o.health, t.now);
      ReactivationIsOrderedIff(w.s.rig, o.useKey.value, t.answers, w.base);
    }
  }

  // ------------------------------------------------------------ when a tick activates

  lemma {:induction false} AddAllSucceedsIff(g: Rig, add: seq<Route>, t: Answers, base: Table)
    requires Sound(g, base) && AllAddable(g, add, base)
    ensures AddAll(g, add, t).1 <==> forall r :: r in add && Fatal(t.critical, r) ==> !t.refused(r)
    decreases |add|
  {
    hide Sound, AllAddable, Fatal;
    if add != [] {
      HeadAddable(g, add, base);
      KeyFree(g, add[0], base);
      AddOneKeeps(g, add[0], t, base);
      var step := AddOne(g, add[0], t);
      if step.1 {
        TailAddable(g, step.0, add, base);
        AddAllSucceedsIff(step.0, add[1..], t, base);
      }
    }
  }

  /** What a first activation needs of the outside world. */
  ghost predicate Obliging(g: Rig, t: Answers)
    requires PlanOk(t.plan)
  {
    && (t.gateway.Some? || g.gw.Some?) && t.ipcWorks
    && !t.refused(Route(LOW, Tunnel)) && !t.refused(Route(HIGH, Tunnel))
    && forall a :: a in PlannedBypass(t.plan) && a in t.critical ==> !t.refused(Route(HostOf(a), Bypass))
  }

  /** The split routes and the planned critical host routes are what an activation depends on. */
  lemma FatalRoutes(t: Answers)
    requires PlanOk(t.plan)
    ensures (forall r :: r in Planned(t.plan) && Fatal(t.critical, r) ==> !t.refused(r)) <==>
            && !t.refused(Route(LOW, Tunnel)) && !t.refused(Route(HIGH, Tunnel))
            && forall a :: a in PlannedBypass(t.plan) && a in t.critical ==> !t.refused(Route(HostOf(a), Bypass))
  {
    hide Planned, PlannedBypass;
    PlanKeys(t.plan);
    forall r | r in Planned(t.plan) ensures PlannedShape(t.plan, r) {
      var i :| 0 <= i < |Planned(t.plan)| && Planned(t.plan)[i] == r;
    }
    assert Fatal(t.critical, Route(LOW, Tunnel)) && Fatal(t.critical, Route(HIGH, Tunnel));
    forall a | a in PlannedBypass(t.plan) && a in t.critical ensures Fatal(t.critical, Route(HostOf(a), Bypass)) {
      assert Critical(t.critical, Route(HostOf(a), Bypass));
    }
  }

  lemma FirstActivationSucceedsIff(g: Rig, exit: Peer, t: Answers, base: Table)
    requires PlanOk(t.plan) && Sound(g, base) && g.routes == [] && Fits(g, Planned(t.plan), base)
             && g.host.owner != Some(exit)
    ensures Activated(g, exit, t).1 <==> Obliging(g, t)
  {
    hide Sound, Planned, PlannedBypass, Repinned, Trimmed, AddAll, Missing, PlanFits, AllAddable, Fatal;
    var desired, gw := Planned(t.plan), GatewayFor(g, t);
    PlannedFits(t.plan);
    FirstTrimmed(g, desired, gw, t.serverListed, base);
    MissingFromNothing(desired);
    var owning := Owning(Trimmed(Repinned(g, gw, t.serverListed), desired, gw), exit);
    SoundRest(Trimmed(Repinned(g, gw, t.serverListed), desired, gw), base);
    MissingAddable([], desired, |PlannedBypass(t.plan)|, owning, base);
    AddAllSucceedsIff(owning, desired, t, base);
    FatalRoutes(t);
  }

  /** Over every run, a tick that finds the engine at rest activates if and only if an exit is
      chosen, its path is live and granted, the back-off is over, a gateway is known, the device
      takes the allowed IP, and no split or critical route is refused. */
  lemma RestingTickActivatesIff(ws: seq<World>, es: seq<Event>, k: nat)
    requires Run(ws, es) && Start(ws[0]) && k < |es| && es[k].Reconcile? && ws[k].s.phase != Active
    requires PlanOk(es[k].tick.answers.plan)
    ensures var s, t := ws[k].s, es[k].tick;
            ws[k + 1].s.phase == Active <==>
              && s.use.Some? && PathLive(Observed(s, t).health, t.now) && Observed(s, t).health.granted
              && t.now >= s.retryAt && Obliging(s.rig, t.answers)
  {
    hide Next, Legal, Inv, PathLive, Obliging, PlanOk, Observed;
    StartIsInv(ws[0]);
    RunKeeps(ws, es, ws[0].s.rig.host.owner, k);
    assert Legal(ws[k], es[k]) && ws[k + 1] == Next(ws[k], es[k]);
    ActivatesIff(ws[k], es[k].tick, ws[0].s.rig.host.owner);
  }

  lemma ActivatesIff(w: World, t: Tick, first: Option<Peer>)
    requires Inv(w, first) && Legal(w, Reconcile(t)) && w.s.phase != Active
    ensures Next(w, Reconcile(t)).s.phase == Active <==>
              && w.s.use.Some? && PathLive(Observed(w.s, t).health, t.now) && Observed(w.s, t).health.granted
              && t.now >= w.s.retryAt && Obliging(w.s.rig, t.answers)
  {
    hide Planned, Activated, Deactivated, Sound, Obliging, PathLive;
    if w.s.use.Some? {
      var o := Observed(w.s, t);
      if NextPhase(o.health, t.now) == Active {
        LiveIsListed(o.health, t.now);
        FirstActivationSucceedsIff(w.s.rig, o.useKey.value, t.answers, w.base);
      }
    }
  }

  // ------------------------------------------------------------ when a key is taken

  lemma RecordedWears(g: Rig, r: Route, base: Table)
    requires Shaped(g.routes) && Wears(g.host.table, g.routes, g.gw, base) && WellShaped(r)
    ensures var after := Recorded(g, r); Shaped(after.routes) && Wears(after.host.table, after.routes, g.gw, base)
  {
    hide KindOf, TargetOf;
    var after := Recorded(g, r);
    assert DstsOf(after.routes) == DstsOf(g.routes) + {r.dst};
    forall d | d !in DstsOf(after.routes) ensures Lookup(after.host.table, d) == Lookup(base, d) {
      assert Lookup(g.host.table, d) == Lookup(base, d);
    }
    assert forall q :: q in g.routes && q.dst == r.dst ==> q == r;
  }

  /** What becomes of one planned route over the table `base`: refused; left to whoever has the
      host route; installed, over an old route if need be; or, after the old route was deleted
      to make room, refused again. */
  datatype Fate = Refused | LeftAlone | Installs | Loses

  function FateOf(overwrites: bool, base: Table, r: Route, t: Answers): Fate {
    if t.refused(r) then Refused
    else if overwrites || r.dst !in base then Installs
    else if r.kind == Bypass then LeftAlone
    else if t.refusedAgain(r) then Loses
    else Installs
  }

  predicate Ends(f: Fate, critical: set<nat>, r: Route) { (f.Refused? || f.Loses?) && Fatal(critical, r) }

  /** No planned route ends the activation. */
  ghost predicate NoneEnds(overwrites: bool, base: Table, add: seq<Route>, t: Answers) {
    forall r :: r in add ==> !Ends(FateOf(overwrites, base, r, t), t.critical, r)
  }

  /** The routes an activation gets to: up to the first failure that ends it. */
  ghost function Reached(overwrites: bool, base: Table, add: seq<Route>, t: Answers): seq<Route>
    decreases |add|
  {
    if add == [] then []
    else if Ends(FateOf(overwrites, base, add[0], t), t.critical, add[0]) then [add[0]]
    else [add[0]] + Reached(overwrites, base, add[1..], t)
  }

  ghost predicate Meets(overwrites: bool, base: Table, add: seq<Route>, t: Answers, r: Route, f: Fate) {
    r in Reached(overwrites, base, add, t) && FateOf(overwrites, base, r, t) == f
  }

  ghost function Losses(overwrites: bool, base: Table, add: seq<Route>, t: Answers): set<Dst> {
    set r | r in Reached(overwrites, base, add, t) && Meets(overwrites, base, add, t, r, Loses) :: r.dst
  }

  /** The keys whose old routes do not survive: those installed on, and those deleted in vain. */
  ghost function Spent(overwrites: bool, base: Table, add: seq<Route>, t: Answers): set<Dst> {
    Losses(overwrites, base, add, t)
    + set r | r in Reached(overwrites, base, add, t) && Meets(overwrites, base, add, t, r, Installs) :: r.dst
  }

  lemma ClearedWears(g: Rig, d: Dst, base: Table)
    requires Wears(g.host.table, g.routes, g.gw, base) && d !in DstsOf(g.routes)
    ensures var after := Cleared(g, d); Wears(after.host.table, after.routes, after.gw, base - {d})
  {
    hide TargetOf;
    forall e | e !in DstsOf(g.routes) ensures Lookup(g.host.table - {d}, e) == Lookup(base - {d}, e) {
      assert Lookup(g.host.table, e) == Lookup(base, e);
    }
    assert forall r :: r in g.routes ==> r.dst in DstsOf(g.routes);
  }

  /** Below a recorded route the table underneath does not matter. */
  lemma CoveredWears(table: Table, routes: seq<Route>, gw: Option<Gateway>, base: Table, d: Dst)
    requires Wears(table, routes, gw, base - {d}) && d in DstsOf(routes)
    ensures Wears(table, routes, gw, base)
  {
    hide TargetOf;
    forall e | e !in DstsOf(routes) ensures Lookup(table, e) == Lookup(base, e) {
      assert Lookup(table, e) == Lookup(base - {d}, e);
    }
  }

  ghost predicate Worn(g: Rig, base: Table) { Shaped(g.routes) && Wears(g.host.table, g.routes, g.gw, base) }

  lemma AddOneWears(g: Rig, r: Route, t: Answers, base: Table, lost: set<Dst>)
    requires Worn(g, base - lost) && WellShaped(r) && r.dst !in DstsOf(g.routes) && r.dst !in lost
    ensures var step, fate := AddOne(g, r, t), FateOf(g.overwrites, base, r, t);
            && step.1 == !Ends(fate, t.critical, r)
            && Worn(step.0, base - if fate.Loses? then lost + {r.dst} else lost)
            && step.0.routes == (if fate.Installs? then g.routes + [r] else g.routes)
            && step.0.overwrites == g.overwrites && step.0.gw == g.gw
  {
    hide Wears, WellShaped, TargetOf, Fatal;
    assert r.dst in g.host.table <==> r.dst in base by { FreeKey(g, r.dst, base - lost); }
    RecordedWears(g, r, base - lost);
    ClearedWears(g, r.dst, base - lost);
    assert base - lost - {r.dst} == base - (lost + {r.dst});
    var cleared := Cleared(g, r.dst);
    RecordedWears(cleared, r, base - lost - {r.dst});
    var over := Recorded(cleared, r);
    assert r in over.routes;
    CoveredWears(over.host.table, over.routes, over.gw, base - lost, r.dst);
  }

  lemma FreeKey(g: Rig, d: Dst, base: Table)
    requires Wears(g.host.table, g.routes, g.gw, base) && d !in DstsOf(g.routes)
    ensures d in g.host.table <==> d in base
  {
    assert Lookup(g.host.table, d) == Lookup(base, d);
  }

  /** No planned key is recorded or lost yet, and none is planned twice. */
  ghost predicate Unspent(g: Rig, add: seq<Route>, lost: set<Dst>) {
    && Shaped(add) && (forall r :: r in add ==> r.dst !in DstsOf(g.routes) && r.dst !in lost)
    && forall i, j :: 0 <= i < j < |add| ==> add[i].dst != add[j].dst
  }

  lemma UnspentRest(g: Rig, add: seq<Route>, lost: set<Dst>, after: Rig)
    requires Unspent(g, add, lost) && add != [] && (after.routes == g.routes || after.routes == g.routes + [add[0]])
    ensures WellShaped(add[0]) && add[0].dst !in DstsOf(g.routes) && add[0].dst !in lost
    ensures Unspent(after, add[1..], lost) && Unspent(after, add[1..], lost + {add[0].dst})
  {
    hide WellShaped;
    assert add[0] in add;
    forall r | r in add[1..] ensures r in add && r.dst != add[0].dst {
      var i :| 0 <= i < |add[1..]| && add[1..][i] == r;
      assert add[i + 1] == r;
    }
    assert DstsOf(after.routes) <= DstsOf(g.routes) + {add[0].dst};
  }

  lemma {:induction false} AddAllWears(g: Rig, add: seq<Route>, t: Answers, base: Table, lost: set<Dst>)
    requires Worn(g, base - lost) && Unspent(g, add, lost)
    ensures var after := AddAll(g, add, t).0;
            && Worn(after, base - (lost + Losses(g.overwrites, base, add, t))) && after.gw == g.gw
            && (forall r :: r in after.routes <==> r in g.routes || Meets(g.overwrites, base, add, t, r, Installs))
            && (AddAll(g, add, t).1 <==> NoneEnds(g.overwrites, base, add, t))
    decreases |add|
  {
    hide Worn, Unspent, WellShaped, AddOne, FateOf, Fatal;
    var o := g.overwrites;
    if add == [] {
      assert lost + Losses(o, base, add, t) == lost;
    } else {
      var r, fate := add[0], FateOf(o, base, add[0], t);
      assert add == [r] + add[1..];
      UnspentRest(g, add, lost, g);
      AddOneWears(g, r, t, base, lost);
      var step := AddOne(g, r, t);
      var gone := if fate.Loses? then lost + {r.dst} else lost;
      if step.1 {
        UnspentRest(g, add, lost, step.0);
        AddAllWears(step.0, add[1..], t, base, gone);
        assert lost + Losses(o, base, add, t) == gone + Losses(o, base, add[1..], t);
      } else {
        assert lost + Losses(o, base, add, t) == gone;
      }
    }
  }

  /** Deactivating a rig that covers part of `base` leaves `base` without the covered keys. */
  lemma DeactivatedUncovers(g: Rig, base: Table)
    requires Shaped(g.routes) && Wears(g.host.table, g.routes, g.gw, base)
    ensures Deactivated(g).host.table == base - DstsOf(g.routes)
  {
    hide KindOf, Deleted, Wears, Doomed;
    if Idle(g) {
      BareWears(g.host.table, g.gw, base);
    } else {
      DeletedWears(g, Others, base);
      var split := Deleted(g, Others);
      var back := HandedBack(Stripped(split));
      var rest := base - DstsOf(Doomed(g.routes, Others));
      DeletedWears(back, All, rest);
      var bare := Deleted(back, All);
      NoRoutes(bare.routes);
      BareWears(bare.host.table, bare.gw, rest - DstsOf(Doomed(back.routes, All)));
    }
  }

  lemma BareWears(table: Table, gw: Option<Gateway>, base: Table)
    requires Wears(table, [], gw, base)
    ensures table == base
  {
    assert forall d :: Lookup(table, d) == Lookup(base, d) ==> (d in table <==> d in base);
    assert table.Keys == base.Keys;
    assert forall d :: Lookup(table, d) == Lookup(base, d);
  }

  /** A gateway is known, and the exit owns 0.0.0.0/0 or the device takes it. */
  predicate Proceeds(g: Rig, exit: Peer, t: Answers) {
    GatewayFor(g, t).Some? && (g.host.owner == Some(exit) || t.ipcWorks)
  }

  lemma NothingTrimmed(g: Rig, desired: seq<Route>, gw: Option<Gateway>)
    requires g.routes == []
    ensures Trimmed(g, desired, gw) == g.(gw := gw)
  {}

  /** What a first activation records, failed or not, and over what. */
  lemma FirstActivationRecords(g: Rig, exit: Peer, t: Answers)
    requires PlanOk(t.plan) && Idle(g)
    ensures var after, base, desired := Activated(g, exit, t).0, g.host.table, Planned(t.plan);
            if !Proceeds(g, exit, t) then Worn(after, base) && after.routes == [] && !Activated(g, exit, t).1
            else
              && (Activated(g, exit, t).1 <==> NoneEnds(g.overwrites, base, desired, t))
              && Worn(after, base - Losses(g.overwrites, base, desired, t)) && after.gw == GatewayFor(g, t)
              && forall r :: r in after.routes <==> Meets(g.overwrites, base, desired, t, r, Installs)
  {
    hide Planned, PlannedBypass, AddAll, WellShaped, Wears, Missing, Trimmed, Losses, Meets, NoneEnds;
    var desired, gw, base := Planned(t.plan), GatewayFor(g, t), g.host.table;
    PlannedFits(t.plan);
    PlanKeys(t.plan);
    MissingFromNothing(desired);
    EmptyWears(base, gw);
    EmptyWears(base, g.gw);
    var pinned := Repinned(g, gw, t.serverListed);
    NothingTrimmed(pinned, desired, gw);
    assert base - {} == base && {} + Losses(g.overwrites, base, desired, t) == Losses(g.overwrites, base, desired, t);
    AddAllWears(Owning(pinned.(gw := gw), exit), desired, t, base, {});
  }

  /** On every host, a first activation, failed or not, followed by a deactivation leaves the
      table without the keys spent; so it restores the table if and only if it does not get to
      the routes or none of those keys was taken before. */
  lemma UndoneIffKeysFree(g: Rig, exit: Peer, t: Answers)
    requires PlanOk(t.plan) && Idle(g)
    ensures var after, base := Deactivated(Activated(g, exit, t).0).host.table, g.host.table;
            var spent := Spent(g.overwrites, base, Planned(t.plan), t);
            && after == (if Proceeds(g, exit, t) then base - spent else base)
            && (after == base <==> (Proceeds(g, exit, t) ==> spent !! base.Keys))
  {
    hide Planned, Activated, Deactivated, WellShaped, Wears, Proceeds, Meets;
    FirstActivationRecords(g, exit, t);
    var base, after := g.host.table, Activated(g, exit, t).0;
    var spent := Spent(g.overwrites, base, Planned(t.plan), t);
    if Proceeds(g, exit, t) {
      var lost := Losses(g.overwrites, base, Planned(t.plan), t);
      DeactivatedUncovers(after, base - lost);
      assert lost + DstsOf(after.routes) == spent by { MeetsReached(g.overwrites, base, Planned(t.plan), t); }
      assert base - lost - DstsOf(after.routes) == base - (lost + DstsOf(after.routes));
    } else {
      DeactivatedUncovers(after, base);
      assert base - DstsOf(after.routes) == base;
    }
    assert base - spent == base <==> spent !! base.Keys;
  }

  lemma MeetsReached(overwrites: bool, base: Table, add: seq<Route>, t: Answers)
    ensures forall r, f :: Meets(overwrites, base, add, t, r, f) ==> r in Reached(overwrites, base, add, t)
  {}

  /** The routes go in, and there is a valid plan for the client NAT. */
  ghost predicate GetsToNat(g: Rig, exit: Peer, t: Answers)
    requires PlanOk(t.plan)
  {
    && Proceeds(g, exit, t) && NoneEnds(g.overwrites, g.host.table, Planned(t.plan), t)
    && t.client.Some? && t.client.value.valid
  }

  /** A first activation, failed or not, followed by a deactivation restores the firewall if and
      only if it does not get to the client NAT, there is no valid plan for it, or the host held
      none of its rules before. */
  lemma FirewallUndoneIff(g: Rig, exit: Peer, t: Answers)
    requires PlanOk(t.plan) && Idle(g)
    ensures Deactivated(Activated(g, exit, t).0).host.firewall == g.host.firewall <==>
            (GetsToNat(g, exit, t) ==> Nat.Free(g.host.firewall, ClientRules(t.client.value)))
  {
    hide Planned, Activated, Deactivated, BeforeNat, NoneEnds, Proceeds, Losses, Meets, Worn, Nat.Disabled, Nat.Free,
        Nat.Rules;
    FirstActivationRecords(g, exit, t);
    ActivatedNat(g, exit, t);
    DeactivatedNat(Activated(g, exit, t).0);
    if t.client.Some? {
      ClientNatUndoneIff(g.host.firewall, t.client.value, t.adds);
    }
  }

  lemma ClientNatUndoneIff(h: Nat.Host, p: Nat.Plan, adds: nat)
    ensures var (after, result) := ClientEnabled(h, p, adds);
            (if result.None? then after else Nat.Disabled(after, result.value)) == h <==>
            (p.valid ==> Nat.Free(h, ClientRules(p)))
  {
    hide Nat.Disabled, Nat.Free, Nat.Rules, Nat.Enabled;
    var plan, flag := p.(mode := Nat.ClientMode), Nat.Flag(false, false);
    if Nat.Enabled(h, plan, flag, adds).1.None? {
      Nat.RollbackIsExact(h, plan, flag, adds);
    } else {
      Nat.DisableIsExact(h, plan, flag, adds);
      EnabledValid(h, p, adds);
    }
  }

  lemma EnabledValid(h: Nat.Host, p: Nat.Plan, adds: nat)
    ensures ClientEnabled(h, p, adds).1.Some? ==> p.valid
  {
    hide Nat.Applied, Nat.Withdrawn;
  }

  lemma EmptyWears(base: Table, gw: Option<Gateway>)
    ensures Wears(base, [], gw, base)
  {}

  // --------------------------------------------------------- the exceptions, at an input

  const BARE := Nat.Host([], [], false)
  const SAMPLE_HOST: nat := 0x0808_0808
  const SAMPLE_PLAN := ClientPlan([Ip4(SAMPLE_HOST)], (a: nat) => false, [], false, 0)

  function SampleAnswers(gw: Gateway): Answers {
    Answers(Some(gw), SAMPLE_PLAN, {}, true, true, (r: Route) => false, (r: Route) => false, None, 0)
  }

  lemma SamplePlanned()
    ensures PlanOk(SAMPLE_PLAN) && Route(HostOf(SAMPLE_HOST), Bypass) in Planned(SAMPLE_PLAN)
  {
    hide Planned, PlannedBypass;
    PlannedBypassMeans(SAMPLE_PLAN);
    var planned := PlannedBypass(SAMPLE_PLAN);
    assert Pins(SAMPLE_PLAN, SAMPLE_PLAN.bypass[0]);
    assert Pinned(SAMPLE_PLAN, 1) == {SAMPLE_HOST};
    if |planned| >= 2 {
      assert planned[0] in planned && planned[1] in planned;
    }
    PlanKeys(SAMPLE_PLAN);
  }

  lemma {:induction false} NothingRefused(overwrites: bool, base: Table, add: seq<Route>, t: Answers)
    requires forall r :: !t.refused(r) && !t.refusedAgain(r)
    ensures Reached(overwrites, base, add, t) == add
    decreases |add|
  {
    hide Fatal;
    if add != [] {
      NothingRefused(overwrites, base, add[1..], t);
    }
  }

  /** With nothing refused, a taken key that gets installed on is not restored. */
  lemma TakenIsLost(g: Rig, t: Answers, r: Route)
    requires PlanOk(t.plan) && Idle(g) && Proceeds(g, 1, t) && (forall q :: !t.refused(q) && !t.refusedAgain(q))
    requires r in Planned(t.plan) && r.dst in g.host.table && (g.overwrites || r.kind != Bypass)
    ensures Deactivated(Activated(g, 1, t).0).host.table != g.host.table
  {
    hide Planned, Activated, Deactivated;
    NothingRefused(g.overwrites, g.host.table, Planned(t.plan), t);
    UndoneIffKeysFree(g, 1, t);
    assert Meets(g.overwrites, g.host.table, Planned(t.plan), t, r, Installs);
    assert r.dst in Spent(g.overwrites, g.host.table, Planned(t.plan), t);
  }

  function SampleRig(overwrites: bool, d: Dst): Rig {
    Rig(overwrites, [], None, false, false, None, Host(map[d := Foreign(1)], None, BARE), [])
  }

  /** Where the command overwrites, one host route that was there before is gone after an
      activation and a deactivation. */
  lemma TakenKeyIsLost()
    ensures var g, t := SampleRig(true, HostOf(SAMPLE_HOST)), SampleAnswers(Gateway(1, 1));
            PlanOk(t.plan) && Proceeds(g, 1, t) && Deactivated(Activated(g, 1, t).0).host.table != g.host.table
  {
    hide Planned, Activated, Deactivated;
    SamplePlanned();
    TakenIsLost(SampleRig(true, HostOf(SAMPLE_HOST)), SampleAnswers(Gateway(1, 1)), Route(HostOf(SAMPLE_HOST), Bypass));
  }

  /** Elsewhere, a 0.0.0.0/1 route of another VPN is. */
  lemma TakenHalfIsLost()
    ensures var g, t := SampleRig(false, LOW), SampleAnswers(Gateway(1, 1));
            PlanOk(t.plan) && Proceeds(g, 1, t) && Deactivated(Activated(g, 1, t).0).host.table != g.host.table
  {
    hide Planned, Activated, Deactivated;
    SamplePlanned();
    PlanKeys(SAMPLE_PLAN);
    TakenIsLost(SampleRig(false, LOW), SampleAnswers(Gateway(1, 1)), Route(LOW, Tunnel));
  }

  function SampleTick(now: nat, gw: Gateway): Tick {
    Tick(now, map[7 := Sighting(1, true, Some(1))], SampleAnswers(gw))
  }

  const SAMPLE_START := World(
    State(None, None, false, map[], 0, Off, Rig(true, [], None, false, false, None, Host(map[], None, BARE), []), 0,
          PathHealth(false, false, None, None, false)),
    map[], BARE)

  /** A run that goes active and then finds another gateway: for a while the halves stand
      without the host route that is recorded and still planned. */
  lemma GatewayMoveBreaksOrder() returns (ws: seq<World>, es: seq<Event>)
    ensures Run(ws, es) && Start(ws[0]) && |es| == 4 && es[3] == Reconcile(SampleTick(2, Gateway(2, 2)))
    ensures ws[3].s.phase == Active
    ensures PlanOk(SAMPLE_PLAN)
    ensures !AllCovered(ws[4].s.rig.seen, |ws[3].s.rig.seen|, StillPlanned(ws[3].s.rig.routes, Planned(SAMPLE_PLAN)))
  {
    hide Planned, Activated, Deactivated, StillPlanned, AllCovered, PlanOk, Installing, Losses;
    SamplePlanned();
    var t, u := SampleTick(1, Gateway(1, 1)), SampleTick(2, Gateway(2, 2));
    var w0 := SAMPLE_START;
    var w1 := Next(w0, Choose(7, 1));
    var w2 := Next(w1, Status(1, [0, 3]));
    assert Legal(w2, Reconcile(t));
    var w3 := Next(w2, Reconcile(t));
    StartIsInv(w0);
    StepKeeps(w0, Choose(7, 1), None);
    StepKeeps(w1, Status(1, [0, 3]), None);
    ActivatesIff(w2, t, None);
    SampleRecords(w2.s.rig, Gateway(1, 1));
    assert Legal(w3, Reconcile(u));
    var w4 := Next(w3, Reconcile(u));
    ws, es := [w0, w1, w2, w3, w4], [Choose(7, 1), Status(1, [0, 3]), Reconcile(t), Reconcile(u)];
    StepKeeps(w2, Reconcile(t), None);
    assert w3.s.rig.gw == Some(Gateway(1, 1));
    assert Reactivates(w4.s, u) by { SampleReactivates(w3, u); }
    StillPlannedHas(w3.s.rig.routes, Planned(SAMPLE_PLAN), Route(HostOf(SAMPLE_HOST), Bypass));
    ActiveTickOrdered(w3, u, None);
  }

  lemma SampleRecords(g: Rig, gw: Gateway)
    requires Idle(g) && g.overwrites
    ensures PlanOk(SAMPLE_PLAN)
    ensures var after := Activated(g, 1, SampleAnswers(gw)).0;
            after.gw == Some(gw) && Route(HostOf(SAMPLE_HOST), Bypass) in after.routes
  {
    hide Planned, Activated, Losses, Worn;
    SamplePlanned();
    var t, r := SampleAnswers(gw), Route(HostOf(SAMPLE_HOST), Bypass);
    FirstActivationRecords(g, 1, t);
    NothingRefused(true, g.host.table, Planned(SAMPLE_PLAN), t);
    assert Meets(true, g.host.table, Planned(SAMPLE_PLAN), t, r, Installs);
  }

  lemma SampleReactivates(w: World, t: Tick)
    requires Legal(w, Reconcile(t)) && w.s.use == Some(7) && w.s.useKey == Some(1) && w.s.granted
             && w.s.offered == map[1 := true]
    requires t.peers == map[7 := Sighting(1, true, Some(1))] && t.now <= 2
    ensures Reactivates(Next(w, Reconcile(t)).s, t)
  {
    hide Activated, Deactivated;
  }

  lemma StillPlannedHas(routes: seq<Route>, desired: seq<Route>, r: Route)
    requires r in routes && r in desired && r.kind == Bypass
    ensures StillPlanned(routes, desired) != {}
  {
    assert r.dst in StillPlanned(routes, desired);
  }

  // ------------------------------------------------------------------------- the engine

  lemma LastRoute(routes: seq<Route>, i: nat, m: Match)
    requires i < |routes|
    ensures Doomed(routes[..i + 1], m) == (if Hits(m, routes[i]) then [routes[i]] else []) + Doomed(routes[..i], m)
    ensures Kept(routes[..i + 1], m) == Kept(routes[..i], m) + if Hits(m, routes[i]) then [] else [routes[i]]
  {
    assert routes[..i + 1][..i] == routes[..i];
  }

  lemma DropFirst(g: Rig, r: Route, rest: seq<Route>)
    ensures DropAll(g, [r] + rest) == DropAll(Exec(g, Without(g.host, r, g.gw)), rest)
  {
    assert ([r] + rest)[1..] == rest;
  }

  /** The removal loop before index `i`: what is kept so far, and what is still to be removed. */
  ghost predicate Removing(was: Rig, m: Match, i: nat, kept: seq<Route>, g: Rig) {
    && i <= |was.routes| && g.routes == was.routes
    && Kept(was.routes[..i], m) + kept == Kept(was.routes, m)
    && DropAll(g, Doomed(was.routes[..i], m)) == DropAll(was, Doomed(was.routes, m))
  }

  lemma RemovingStarts(g: Rig, m: Match)
    ensures Removing(g, m, |g.routes|, [], g)
  {
    assert g.routes[..|g.routes|] == g.routes;
  }

  lemma RemovingSteps(was: Rig, m: Match, i: nat, kept: seq<Route>, g: Rig)
    requires Removing(was, m, i + 1, kept, g)
    ensures var r := g.routes[i];
            if Hits(m, r) then Removing(was, m, i, kept, Exec(g, Without(g.host, r, g.gw)))
            else Removing(was, m, i, [r] + kept, g)
  {
    hide Hits, Without, Kept, Doomed, DropAll;
    var r := g.routes[i];
    LastRoute(was.routes, i, m);
    assert [] + Doomed(was.routes[..i], m) == Doomed(was.routes[..i], m);
    if Hits(m, r) {
      DropFirst(g, r, Doomed(was.routes[..i], m));
    } else {
      assert Kept(was.routes[..i], m) + [r] + kept == Kept(was.routes[..i], m) + ([r] + kept);
    }
  }

  lemma RemovingEnds(was: Rig, m: Match, kept: seq<Route>, g: Rig)
    requires Removing(was, m, 0, kept, g)
    ensures g.(routes := kept) == Deleted(was, m)
  {}

  class Engine {
    const overwrites: bool
    var use: Option<nat>
    var useKey: Option<Peer>
    var granted: bool
    var offered: map<Peer, bool>
    var retryAt: nat
    var phase: Phase
    var routes: seq<Route>
    var gw: Option<Gateway>
    var allowedSet: bool
    var serverHad: bool
    var clientNat: Option<Nat.State>
    var host: Host
    ghost var seen: seq<Host>
    ghost var clock: nat
    var health: PathHealth

    constructor (overwrites: bool, host: Host, use: Option<nat>)
      ensures this.overwrites == overwrites && this.host == host
      ensures Whole() == State(use, None, false, map[], 0, if use.Some? then Standby else Off,
                               Rig(overwrites, [], None, false, false, None, host, []), 0,
                               PathHealth(false, false, None, None, false))
    {
      this.overwrites, this.host, this.use := overwrites, host, use;
      useKey, granted, offered, retryAt, phase := None, false, map[], 0, if use.Some? then Standby else Off;
      routes, gw, allowedSet, serverHad, clientNat := [], None, false, false, None;
      seen, clock, health := [], 0, PathHealth(false, false, None, None, false);
    }

    ghost function Gear(): Rig
      reads this
    {
      Rig(overwrites, routes, gw, allowedSet, serverHad, clientNat, host, seen)
    }

    ghost function Whole(): State
      reads this
    {
      State(use, useKey, granted, offered, retryAt, phase, Gear(), clock, health)
    }

    /** One command that leaves the host as `h`. */
    method Command(h: Host)
      modifies this`host, this`seen
      ensures Gear() == Exec(old(Gear()), h)
      ensures Gear() == old(Gear()).(host := host, seen := seen)
    {
      host, seen := h, seen + [h];
    }

    method DeleteRoutes(m: Match)
      modifies this`routes, this`host, this`seen
      ensures Gear() == Deleted(old(Gear()), m)
    {
      hide Hits, Without, Removing, Deleted, Exec;
      ghost var was := Gear();
      var kept: seq<Route>, i: nat := [], |routes|;
      RemovingStarts(was, m);
      while i > 0
        invariant i <= |routes|
        invariant Gear() == was.(host := host, seen := seen)
        invariant Removing(was, m, i, kept, Gear())
      {
        RemovingSteps(was, m, i - 1, kept, Gear());
        i := i - 1;
        var r := routes[i];
        if !Hits(m, r) {
          kept := [r] + kept;
        } else {
          Command(Without(host, r, gw));
        }
      }
      RemovingEnds(was, m, kept, Gear());
      routes := kept;
    }

    method DeleteEach(del: seq<Route>)
      modifies this`routes, this`host, this`seen
      ensures Gear() == DeletedEach(old(Gear()), del)
    {
      hide Deleted;
      ghost var was := Gear();
      for i := 0 to |del|
        invariant DeletedEach(Gear(), del[i..]) == DeletedEach(was, del)
        invariant Gear() == was.(routes := routes, host := host, seen := seen)
      {
        assert del[i..][1..] == del[i + 1..];
        DeleteRoutes(Exactly(del[i]));
      }
    }

    method AddRoute(r: Route, t: Answers) returns (ok: bool)
      modifies this`routes, this`host, this`seen
      ensures (Gear(), ok) == AddOne(old(Gear()), r, t)
    {
      var outcome := Issue(overwrites, host.table, r, t.refused(r));
      if outcome == Exists {
        if r.kind == Bypass {
          return true;
        }
        Command(host.(table := host.table - {r.dst}));
        outcome := Issue(overwrites, host.table, r, t.refusedAgain(r));
      }
      if outcome != Done {
        return !Fatal(t.critical, r);
      }
      Command(With(host, r, gw));
      routes := routes + [r];
      return true;
    }

    method AddRoutes(add: seq<Route>, t: Answers) returns (ok: bool)
      modifies this`routes, this`host, this`seen
      ensures (Gear(), ok) == AddAll(old(Gear()), add, t)
    {
      hide AddOne;
      ghost var was := Gear();
      for i := 0 to |add|
        invariant AddAll(Gear(), add[i..], t) == AddAll(was, add, t)
        invariant Gear() == was.(routes := routes, host := host, seen := seen)
      {
        assert add[i..][1..] == add[i + 1..];
        ok := AddRoute(add[i], t);
        if !ok {
          return;
        }
      }
      ok := true;
    }

    method Repin(gateway: Option<Gateway>, serverListed: bool)
      modifies this`routes, this`serverHad, this`host, this`seen
      ensures Gear() == Repinned(old(Gear()), gateway, serverListed)
    {
      hide Deleted;
      var first := routes == [];
      if !first && gateway != gw {
        DeleteRoutes(Bypasses);
      }
      if first && serverListed {
        serverHad := host.owner == Some(SERVER);
      }
    }

    method Own(exit: Peer)
      modifies this`allowedSet, this`host, this`seen
      ensures Gear() == Owning(old(Gear()), exit)
    {
      if host.owner != Some(exit) {
        Command(host.(owner := Some(exit)));
        allowedSet := true;
      }
    }

    method AddPlan(add: seq<Route>, t: Answers) returns (ok: bool)
      modifies this`routes, this`clientNat, this`host, this`seen
      ensures (Gear(), ok) == AddedPlan(old(Gear()), add, t)
    {
      hide AddAll;
      ok := AddRoutes(add, t);
      if ok && clientNat.None? && t.client.Some? {
        var (firewall, result) := ClientEnabled(host.firewall, t.client.value, t.adds);
        Command(host.(firewall := firewall));
        clientNat := result;
      }
    }

    method Activate(exit: Peer, t: Answers) returns (ok: bool)
      requires PlanOk(t.plan)
      modifies this`routes, this`gw, this`allowedSet, this`serverHad, this`clientNat, this`host, this`seen
      ensures (Gear(), ok) == Activated(old(Gear()), exit, t)
    {
      hide Planned, Repinned, DeletedEach, Stale, Missing, Owning, AddedPlan, PlanOk;
      if t.gateway.None? && gw.None? {
        return false;
      }
      var gateway := if t.gateway.Some? then t.gateway else gw;
      Repin(gateway, t.serverListed);
      var desired := PlanClientRoutes(t.plan);
      var add, del := DiffRoutes(routes, desired);
      DeleteEach(del);
      gw := gateway;
      if host.owner != Some(exit) && !t.ipcWorks {
        return false;
      }
      Own(exit);
      ok := AddPlan(add, t);
    }

    /** Takes 0.0.0.0/0 from every peer but the server (at most one peer has it), and gives it
        back to the server if that had it. */
    method HandBack()
      modifies this`allowedSet, this`serverHad, this`host, this`seen
      ensures Gear() == HandedBack(Stripped(old(Gear())))
    {
      if host.owner.Some? && host.owner != Some(SERVER) {
        Command(host.(owner := None));
      }
      if serverHad {
        Command(host.(owner := Some(SERVER)));
      }
      allowedSet, serverHad := false, false;
    }

    method DisableClientNat()
      modifies this`clientNat, this`host, this`seen
      ensures Gear() == Unmasked(old(Gear()))
    {
      if clientNat.Some? {
        Command(host.(firewall := Nat.Disabled(host.firewall, clientNat.value)));
        clientNat := None;
      }
    }

    method Deactivate()
      modifies this`routes, this`allowedSet, this`serverHad, this`clientNat, this`host, this`seen
      ensures Gear() == Deactivated(old(Gear()))
    {
      hide Deleted, HandedBack, Stripped, Unmasked, Exec;
      if routes == [] && clientNat.None? && !allowedSet {
        return;
      }
      DeleteRoutes(Others);
      HandBack();
      DeleteRoutes(All);
      DisableClientNat();
    }

    /** What the tick sees of the chosen peer. */
    method Observe(t: Tick)
      requires use.Some?
      modifies this`useKey, this`granted, this`clock, this`health
      ensures Whole() == Observed(old(Whole()), t)
    {
      var peer := Lookup(t.peers, use.value);
      if peer.Some? {
        if useKey != Some(peer.value.key) {
          useKey, granted := Some(peer.value.key), false;
        }
        if !peer.value.direct {
          granted := false;
        }
      }
      clock, health := t.now, HealthOf(peer, offered, granted);
    }

    method TryActivate(t: Tick)
      requires PlanOk(t.answers.plan) && useKey.Some?
      modifies this
      ensures Whole() == Engage(old(Whole()), t)
    {
      hide Activated, Deactivated, PlanOk;
      if t.now < retryAt {
        return;
      }
      var ok := Activate(useKey.value, t.answers);
      if !ok {
        retryAt := t.now + BACKOFF;
        Deactivate();
        phase := Standby;
        return;
      }
      phase := Active;
    }

    method ReconcileClient(t: Tick)
      requires PlanOk(t.answers.plan)
      modifies this
      ensures Whole() == Reconciled(old(Whole()), t)
    {
      hide Engage, Deactivated, PlanOk;
      if use.None? {
        if routes != [] {
          Deactivate();
        }
        clock := t.now;
        return;
      }
      Observe(t);
      var next := NextPhase(health, t.now);
      if next != Active {
        if routes != [] || allowedSet {
          Deactivate();
        }
        phase := next;
        return;
      }
      TryActivate(t);
    }

    method UseExitNode(ip: nat, key: Peer)
      modifies this
      ensures Whole() == Chosen(old(Whole()), ip, key)
    {
      hide Deactivated;
      if use.Some? && use != Some(ip) {
        Deactivate();
      }
      if use != Some(ip) {
        use, useKey, granted, offered := Some(ip), Some(key), false, offered - {key};
        retryAt, phase := 0, Off;
      }
    }

    method ClearExitNode()
      modifies this
      ensures Whole() == Unchosen(old(Whole()))
    {
      hide Deactivated;
      Deactivate();
      use, useKey, granted, phase := None, None, false, Off;
    }

    method HandleStatus(peer: Peer, data: seq<nat>)
      modifies this`offered, this`granted
      ensures Whole() == Told(old(Whole()), peer, data)
    {
      if peer == SERVER || |data| < 2 {
        return;
      }
      var offers, grants := data[1] % 2 == 1, data[1] / 2 % 2 == 1;
      offered := offered[peer := offers];
      if useKey == Some(peer) && use.Some? {
        if grants {
          granted := true;
        } else if !offers {
          granted := false;
        }
      }
    }
  }
}
