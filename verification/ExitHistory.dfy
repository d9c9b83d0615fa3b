/** What the state of the exit engine says about the events that led to it: who granted the use
    of the exit, what the last tick saw, which routes are recorded, and what holds a retry back.
    Everything is stated over the events of a run. */
module ExitHistory {
  import opened Options
  import opened Cidr
  import opened Routes
  import opened ExitEngine
  import Nat

  // -------------------------------------------------------------------------- the grant

  /** The chosen peer itself sends a status frame with the grant bit. */
  ghost predicate Grants(w: World, e: Event, peer: Peer) {
    && e.Status? && e.peer == peer != SERVER && |e.data| >= 2 && e.data[1] / 2 % 2 == 1
    && w.s.use.Some? && w.s.useKey == Some(peer)
  }

  /** The choice is cleared or changed, the chosen peer is sighted under another key or without a
      direct path, or it sends a status frame with neither bit. */
  ghost predicate Voids(w: World, e: Event, peer: Peer) {
    match e
    case Clear => true
    case Choose(ip, _) => w.s.use != Some(ip)
    case Reconcile(t) =>
      w.s.use.Some? && w.s.use.value in t.peers
      && (t.peers[w.s.use.value].key != peer || !t.peers[w.s.use.value].direct)
    case Status(p, data) => p == peer != SERVER && |data| >= 2 && data[1] % 2 == 0 && data[1] / 2 % 2 == 0
    case _ => false
  }

  ghost predicate GrantedBy(ws: seq<World>, es: seq<Event>, k: nat, j: nat, peer: Peer)
    requires k <= |es| <= |ws|
  {
    j < k && Grants(ws[j], es[j], peer) && forall i :: j < i < k ==> !Voids(ws[i], es[i], peer)
  }

  ghost predicate IsGranted(ws: seq<World>, es: seq<Event>, k: nat, peer: Peer)
    requires k <= |es| <= |ws|
  {
    exists j: nat :: GrantedBy(ws, es, k, j, peer)
  }

  ghost predicate GrantedTo(s: State, peer: Peer) { s.granted && s.useKey == Some(peer) }

  ghost predicate GrantNamed(s: State) { s.granted ==> s.use.Some? && s.useKey.Some? }

  lemma GrantStep(w: World, e: Event, peer: Peer)
    requires Legal(w, e) && GrantNamed(w.s)
    ensures GrantedTo(Next(w, e).s, peer) <==> Grants(w, e, peer) || (GrantedTo(w.s, peer) && !Voids(w, e, peer))
    ensures GrantNamed(Next(w, e).s)
  {
    hide Deactivated, Activated, Planned, PlanOk, Fits, NatFits, PathLive;
  }

  /** Over every run, the exit is granted by a peer if and only if that peer, being the chosen one,
      sent the grant bit, and nothing since has voided it. */
  lemma {:induction false} GrantedIff(ws: seq<World>, es: seq<Event>, k: nat, peer: Peer)
    requires Run(ws, es) && !ws[0].s.granted && k <= |es|
    ensures GrantedTo(ws[k].s, peer) <==> IsGranted(ws, es, k, peer)
    ensures GrantNamed(ws[k].s)
    decreases k
  {
    hide Next, Legal, Grants, Voids;
    if k > 0 {
      GrantedIff(ws, es, k - 1, peer);
      assert Legal(ws[k - 1], es[k - 1]) && ws[k] == Next(ws[k - 1], es[k - 1]);
      GrantStep(ws[k - 1], es[k - 1], peer);
      if Grants(ws[k - 1], es[k - 1], peer) {
        assert GrantedBy(ws, es, k, k - 1, peer);
      } else if GrantedTo(ws[k].s, peer) {
        var j: nat :| GrantedBy(ws, es, k - 1, j, peer);
        assert GrantedBy(ws, es, k, j, peer);
      }
      if j: nat :| GrantedBy(ws, es, k, j, peer) && j < k - 1 {
        assert GrantedBy(ws, es, k - 1, j, peer);
      }
    }
  }

  // -------------------------------------------------------------------------- the offer

  ghost predicate NewChoice(w: World, e: Event) { e.Choose? && w.s.use != Some(e.ip) }

  ghost predicate Tells(e: Event, peer: Peer) { e.Status? && e.peer == peer != SERVER && |e.data| >= 2 }

  ghost predicate Forgets(w: World, e: Event, peer: Peer) { NewChoice(w, e) && e.key == peer }

  /** The last word of a peer on whether it offers, since it was last newly chosen. */
  ghost predicate OfferedBy(ws: seq<World>, es: seq<Event>, k: nat, j: nat, peer: Peer, offers: bool)
    requires k <= |es| <= |ws|
  {
    && j < k && Tells(es[j], peer) && (es[j].data[1] % 2 == 1) == offers
    && forall i :: j < i < k ==> !Tells(es[i], peer) && !Forgets(ws[i], es[i], peer)
  }

  ghost predicate IsOffered(ws: seq<World>, es: seq<Event>, k: nat, peer: Peer, offers: bool)
    requires k <= |es| <= |ws|
  {
    exists j: nat :: OfferedBy(ws, es, k, j, peer, offers)
  }

  lemma OfferStep(w: World, e: Event, peer: Peer)
    requires Legal(w, e)
    ensures Lookup(Next(w, e).s.offered, peer) ==
            if Tells(e, peer) then Some(e.data[1] % 2 == 1) else if Forgets(w, e, peer) then None
            else Lookup(w.s.offered, peer)
  {
    hide Deactivated, Activated, Planned, PlanOk, Fits, NatFits, PathLive;
  }

  lemma {:induction false} OfferedIff(ws: seq<World>, es: seq<Event>, k: nat, peer: Peer, offers: bool)
    requires Run(ws, es) && ws[0].s.offered == map[] && k <= |es|
    ensures Lookup(ws[k].s.offered, peer) == Some(offers) <==> IsOffered(ws, es, k, peer, offers)
    decreases k
  {
    hide Next, Legal, Forgets;
    if k > 0 {
      OfferedIff(ws, es, k - 1, peer, offers);
      assert Legal(ws[k - 1], es[k - 1]) && ws[k] == Next(ws[k - 1], es[k - 1]);
      OfferStep(ws[k - 1], es[k - 1], peer);
      if Tells(es[k - 1], peer) {
        assert (es[k - 1].data[1] % 2 == 1) == offers ==> OfferedBy(ws, es, k, k - 1, peer, offers);
      } else if Lookup(ws[k].s.offered, peer) == Some(offers) {
        var j: nat :| OfferedBy(ws, es, k - 1, j, peer, offers);
        assert OfferedBy(ws, es, k, j, peer, offers);
      }
      if j: nat :| OfferedBy(ws, es, k, j, peer, offers) && j < k - 1 {
        assert OfferedBy(ws, es, k - 1, j, peer, offers);
      }
    }
  }

  // ---------------------------------------------------------------------- the last tick

  ghost predicate LastTick(es: seq<Event>, k: nat, j: nat)
    requires k <= |es|
  {
    j < k && es[j].Reconcile? && forall i :: j < i < k ==> !es[i].Reconcile?
  }

  /** The tick saw the chosen peer with a direct path and a handshake at most 200 seconds old. */
  predicate Sees(use: Option<nat>, useKey: Option<Peer>, t: Tick) {
    && use.Some? && use.value in t.peers
    && var seen := t.peers[use.value];
    && useKey == Some(seen.key) && seen.direct
    && seen.lastHandshake.Some? && t.now - seen.lastHandshake.value <= 200_000_000_000
  }

  /** The record follows the plan of the tick, with the gateway it found or else the old one, and
      the client NAT is on if there is a valid plan for it and a rule can be added. */
  ghost predicate Obeys(g: Rig, old_: Rig, t: Answers, base: Table)
    requires PlanOk(t.plan)
  {
    && Follows(g, Planned(t.plan), t, base)
    && g.gw == (if t.gateway.Some? then t.gateway else old_.gw) && g.gw.Some?
    && (t.client.Some? && t.client.value.valid && t.adds >= 1 ==> g.clientNat.Some?)
  }

  lemma ClientEnables(h: Nat.Host, p: Nat.Plan, adds: nat)
    requires p.valid && adds >= 1
    ensures ClientEnabled(h, p, adds).1.Some?
  {
    var rules := ClientRules(p);
    assert |rules| == 1 && rules[1..] == [];
    assert Nat.Applied(h, rules, adds).1;
  }

  lemma ActivatedObeys(g: Rig, exit: Peer, t: Answers, base: Table, first: Option<Peer>)
    requires PlanOk(t.plan) && Settled(g, base, first) && Fits(g, Planned(t.plan), base) && exit != SERVER
    requires g.host.owner == Some(SERVER) ==> t.serverListed
    ensures Activated(g, exit, t).1 ==> Obeys(Activated(g, exit, t).0, g, t, base)
  {
    hide Settled, Fits, Planned, Activated, Follows, BeforeNat, Nat.Enabled;
    ActivatedKeeps(g, exit, t, base, first);
    ActivatedNat(g, exit, t);
    if t.client.Some? && t.client.value.valid && t.adds >= 1 {
      ClientEnables(g.host.firewall, t.client.value, t.adds);
    }
    if GatewayFor(g, t).None? {
      NoGatewayNoRoutes(g, exit, t);
    }
  }

  lemma NoGatewayNoRoutes(g: Rig, exit: Peer, t: Answers)
    requires PlanOk(t.plan) && GatewayFor(g, t).None?
    ensures !Activated(g, exit, t).1
  {}

  /** What a tick that leaves the engine active has seen and done. */
  lemma TickShows(w: World, t: Tick, first: Option<Peer>)
    requires Inv(w, first) && Legal(w, Reconcile(t)) && Next(w, Reconcile(t)).s.phase == Active
    ensures var after := Next(w, Reconcile(t)).s;
            && Sees(after.use, after.useKey, t) && after.use == w.s.use && after.granted
            && Lookup(w.s.offered, after.useKey.value) != Some(false)
            && Obeys(after.rig, w.s.rig, t.answers, w.base)
  {
    hide Sound, Planned, Activated, Deactivated, Obeys, Follows, Clean, Engaged, Fits, NatFits;
    var o := Observed(w.s, t);
    assert NextPhase(o.health, t.now) == Active;
    assert o.health.listed by { LiveIsListed(o.health, t.now); }
    ActivatedObeys(w.s.rig, o.useKey.value, t.answers, w.base, first);
  }

  /** Over every run, the key in use is the one the last tick sighted for the choice, or the one it
      was chosen with. */
  lemma KeyIsLatest(ws: seq<World>, es: seq<Event>, k: nat)
    requires Run(ws, es) && k < |es|
    ensures var s, after, e := ws[k].s, ws[k + 1].s, es[k];
            after.useKey ==
            if e.Reconcile? && s.use.Some? && s.use.value in e.tick.peers then Some(e.tick.peers[s.use.value].key)
            else if NewChoice(ws[k], e) then Some(e.key) else if e == Clear then None else s.useKey
  {
    hide Deactivated, Activated, Planned, PlanOk, Fits, NatFits, PathLive;
    assert Legal(ws[k], es[k]) && ws[k + 1] == Next(ws[k], es[k]);
  }

  /** Over every run, what a tick makes of a choice: normal routing unless it sees a direct and fresh
      peer that does not refuse; pending while that peer has not granted; and with the grant active,
      standby if the activation failed, or as before while held back. */
  lemma TickDecides(ws: seq<World>, es: seq<Event>, k: nat)
    requires Run(ws, es) && k < |es| && es[k].Reconcile? && ws[k].s.use.Some?
    ensures var s, after, t := ws[k].s, ws[k + 1].s, es[k].tick;
            var live := Sees(after.use, after.useKey, t) && Lookup(s.offered, after.useKey.value) != Some(false);
            && after.use == s.use && (!live ==> after.phase == Standby)
            && (live && !after.granted ==> after.phase == Pending)
            && (live && after.granted ==>
                  if t.now < s.retryAt then after.phase == s.phase else after.phase == Active || after.phase == Standby)
  {
    hide Deactivated, Activated, Planned, PlanOk, Fits, NatFits;
    assert Legal(ws[k], es[k]) && ws[k + 1] == Next(ws[k], es[k]);
  }

  ghost predicate Witnessed(ws: seq<World>, es: seq<Event>, k: nat, j: nat)
    requires k < |ws| == |es| + 1
  {
    && LastTick(es, k, j)
    && var s, t := ws[k].s, es[j].tick;
    && Sees(s.use, s.useKey, t) && ws[j].s.use == s.use
    && !IsOffered(ws, es, j, s.useKey.value, false) && IsGranted(ws, es, j + 1, s.useKey.value)
    && PlanOk(t.answers.plan) && Obeys(s.rig, ws[j].s.rig, t.answers, ws[j].base)
  }

  ghost predicate Untouched(s: State, after: State) {
    && after.use == s.use && after.useKey == s.useKey && after.rig.routes == s.rig.routes && after.rig.gw == s.rig.gw
    && after.rig.clientNat == s.rig.clientNat
  }

  /** Between ticks an active engine keeps its choice, its record and its gateway. */
  lemma ActiveStays(w: World, e: Event)
    requires Legal(w, e) && !e.Reconcile? && Next(w, e).s.phase == Active
    ensures w.s.phase == Active && Untouched(w.s, Next(w, e).s)
  {
    hide Deactivated;
  }

  lemma WitnessMoves(ws: seq<World>, es: seq<Event>, k: nat, j: nat)
    requires Run(ws, es) && k < |es| && Witnessed(ws, es, k, j) && !es[k].Reconcile? && Untouched(ws[k].s, ws[k + 1].s)
    ensures Witnessed(ws, es, k + 1, j)
  {
    hide IsOffered, IsGranted, Planned, Sees, PlanOk, Run;
  }

  /** Over every run, the active phase goes back to a last tick, which saw the chosen peer direct
      and fresh under the key in use; that peer's last word was not a refusal, it granted the use
      and nothing voided that up to the tick; and the record still follows that tick's plan. */
  lemma {:induction false} ActiveIsWitnessed(ws: seq<World>, es: seq<Event>, k: nat) returns (j: nat)
    requires Run(ws, es) && Start(ws[0]) && !ws[0].s.granted && ws[0].s.offered == map[]
    requires k <= |es| && ws[k].s.phase == Active
    ensures Witnessed(ws, es, k, j)
    decreases k
  {
    hide Next, Legal, Inv, Sees, Obeys, Untouched, IsOffered, IsGranted;
    var first := ws[0].s.rig.host.owner;
    StartIsInv(ws[0]);
    RunKeeps(ws, es, first, k - 1);
    assert Legal(ws[k - 1], es[k - 1]) && ws[k] == Next(ws[k - 1], es[k - 1]);
    if es[k - 1].Reconcile? {
      j := k - 1;
      TickWitness(ws, es, k, first);
    } else {
      ActiveStays(ws[k - 1], es[k - 1]);
      j := ActiveIsWitnessed(ws, es, k - 1);
      WitnessMoves(ws, es, k - 1, j);
    }
  }

  lemma TickWitness(ws: seq<World>, es: seq<Event>, k: nat, first: Option<Peer>)
    requires Run(ws, es) && 0 < k <= |es| && !ws[0].s.granted && ws[0].s.offered == map[]
    requires Inv(ws[k - 1], first) && es[k - 1].Reconcile? && ws[k].s.phase == Active
    ensures Witnessed(ws, es, k, k - 1)
  {
    hide Next, Legal, Inv, Obeys, IsOffered, IsGranted;
    assert Legal(ws[k - 1], es[k - 1]) && ws[k] == Next(ws[k - 1], es[k - 1]);
    TickShows(ws[k - 1], es[k - 1].tick, first);
    LegalPlan(ws[k - 1], es[k - 1].tick);
    OfferedIff(ws, es, k - 1, ws[k].s.useKey.value, false);
    GrantedIff(ws, es, k, ws[k].s.useKey.value);
  }

  lemma LegalPlan(w: World, t: Tick)
    requires Legal(w, Reconcile(t))
    ensures PlanOk(t.answers.plan)
  {}

  // -------------------------------------------------------------------- the IPv6 block

  /** Over every run, in the active phase: if the last tick's plan blocks IPv6 and no block was
      refused, every IPv6 address lies in a recorded block that the host rejects; and if it does
      not, no block is recorded. */
  lemma ActiveBlocksIPv6(ws: seq<World>, es: seq<Event>, k: nat, a: nat) returns (j: nat)
    requires Run(ws, es) && Start(ws[0]) && !ws[0].s.granted && ws[0].s.offered == map[]
    requires k <= |es| && ws[k].s.phase == Active && a < ADDRESSES6
    ensures LastTick(es, k, j)
    ensures var g, t := ws[k].s.rig, es[j].tick.answers;
            && (t.plan.blockIPv6 && (forall r: Route :: r.kind == Reject ==> !t.refused(r)) ==>
                  exists r :: r in g.routes && Rejects(r, a) && Lookup(g.host.table, r.dst) == Some(Rejecting))
            && (!t.plan.blockIPv6 ==> forall r :: r in g.routes ==> r.kind != Reject)
  {
    hide Next, Legal, Start, IsOffered, IsGranted, Sees, Planned, PathLive, NatSound, Outside, Rejects;
    j := ActiveIsWitnessed(ws, es, k);
    EngineFailsOpen(ws, es, k);
    var t := es[j].tick.answers;
    PlanBlocksIPv6(t.plan, a);
    if t.plan.blockIPv6 && forall r: Route :: r.kind == Reject ==> !t.refused(r) {
      var r :| r in Planned(t.plan) && Rejects(r, a);
      assert r.kind == Reject by { RejectsKind(r, a); }
      assert Accounted(ws[k].s.rig, r, t, ws[j].base);
    }
  }

  lemma RejectsKind(r: Route, a: nat)
    requires Rejects(r, a)
    ensures r.kind == Reject
  {}

  // ------------------------------------------------------------ the choice and back-off

  lemma RestStep(w: World, e: Event)
    requires Legal(w, e) && w.s.use.None? && w.s.phase == Off && w.s.rig.routes == [] && !e.Choose?
    ensures var after := Next(w, e).s; after.use.None? && after.phase == Off && after.rig.routes == []
  {
    hide Activated, Planned, PlanOk;
    DeactivatedHasNoRoutes(w.s.rig);
  }

  lemma DeactivatedHasNoRoutes(g: Rig)
    ensures Deactivated(g).routes == []
  {
    hide DropAll, Doomed;
    if !Idle(g) {
      var back := HandedBack(Stripped(Deleted(g, Others)));
      KeptMeans(back.routes, All);
      NoRoutes(Kept(back.routes, All));
    }
  }

  /** Over every run, after a clear nothing activates until the next choice. */
  lemma {:induction false} ClearedStaysOff(ws: seq<World>, es: seq<Event>, j: nat, k: nat)
    requires Run(ws, es) && j < k <= |es| && es[j] == Clear && forall i :: j < i < k ==> !es[i].Choose?
    ensures ws[k].s.use.None? && ws[k].s.phase == Off && ws[k].s.rig.routes == []
    decreases k
  {
    hide Next, Legal;
    assert Legal(ws[k - 1], es[k - 1]) && ws[k] == Next(ws[k - 1], es[k - 1]);
    if j == k - 1 {
      ClearStep(ws[j]);
    } else {
      ClearedStaysOff(ws, es, j, k - 1);
      RestStep(ws[k - 1], es[k - 1]);
    }
  }

  lemma ClearStep(w: World)
    ensures Legal(w, Clear)
    ensures var after := Next(w, Clear).s; after.use.None? && after.phase == Off && after.rig.routes == []
  {
    DeactivatedHasNoRoutes(w.s.rig);
  }

  /** A tick tried to activate and failed. */
  ghost predicate Fails(w: World, e: Event, after: State) {
    && e.Reconcile? && w.s.use.Some? && w.s.retryAt <= e.tick.now
    && NextPhase(after.health, e.tick.now) == Active && after.phase != Active
  }

  lemma RetryStep(w: World, e: Event)
    requires Legal(w, e)
    ensures var after := Next(w, e).s;
            after.retryAt == if NewChoice(w, e) then 0
                             else if Fails(w, e, after) then e.tick.now + 30_000_000_000 else w.s.retryAt
  {
    hide Activated, Deactivated, Planned, PlanOk, PathLive, Fits, NatFits;
    if e.Reconcile? && w.s.use.Some? {
      LiveMeansListed(Observed(w.s, e.tick).health, e.tick.now);
    }
  }

  lemma LiveMeansListed(h: PathHealth, now: nat)
    ensures PathLive(h, now) ==> h.listed
  {}

  ghost predicate HeldBy(ws: seq<World>, es: seq<Event>, k: nat, j: nat)
    requires k < |ws| == |es| + 1
  {
    && j < k && Fails(ws[j], es[j], ws[j + 1].s)
    && forall i :: j < i < k ==> !NewChoice(ws[i], es[i]) && !Fails(ws[i], es[i], ws[i + 1].s)
  }

  ghost predicate Holds(ws: seq<World>, es: seq<Event>, k: nat, until: nat)
    requires k < |ws| == |es| + 1
  {
    exists j: nat :: HeldBy(ws, es, k, j) && es[j].Reconcile? && until == es[j].tick.now + 30_000_000_000
  }

  /** Over every run, activation is held back until a time if and only if the last attempt failed
      thirty seconds before it and no new choice was made since. */
  lemma {:induction false} HeldBackIff(ws: seq<World>, es: seq<Event>, k: nat, until: nat)
    requires Run(ws, es) && ws[0].s.retryAt == 0 && k <= |es| && until > 0
    ensures ws[k].s.retryAt == until <==> Holds(ws, es, k, until)
    decreases k
  {
    hide Next, Legal, Fails, NewChoice;
    if k > 0 {
      HeldBackIff(ws, es, k - 1, until);
      assert Legal(ws[k - 1], es[k - 1]) && ws[k] == Next(ws[k - 1], es[k - 1]);
      RetryStep(ws[k - 1], es[k - 1]);
      HoldsStep(ws, es, k, until);
    }
  }

  lemma HoldsStep(ws: seq<World>, es: seq<Event>, k: nat, until: nat)
    requires |ws| == |es| + 1 && 0 < k <= |es|
    ensures var w, e, after := ws[k - 1], es[k - 1], ws[k].s;
            Holds(ws, es, k, until) <==>
            if NewChoice(w, e) then false
            else if Fails(w, e, after) then until == e.tick.now + 30_000_000_000 else Holds(ws, es, k - 1, until)
  {
    hide NewChoice, Fails;
    var w, e, after := ws[k - 1], es[k - 1], ws[k].s;
    NotBoth(w, e, after);
    forall j: nat ensures j < k - 1 ==> (HeldBy(ws, es, k, j) <==>
                                         HeldBy(ws, es, k - 1, j) && !NewChoice(w, e) && !Fails(w, e, after)) {
      if j < k - 1 {
        HeldOn(ws, es, k, j);
      }
    }
    if Fails(w, e, after) {
      assert HeldBy(ws, es, k, k - 1);
    }
  }

  lemma NotBoth(w: World, e: Event, after: State)
    ensures Fails(w, e, after) ==> !NewChoice(w, e) && e.Reconcile?
  {}

  lemma HeldOn(ws: seq<World>, es: seq<Event>, k: nat, j: nat)
    requires |ws| == |es| + 1 && 0 < k <= |es| && j < k - 1
    ensures HeldBy(ws, es, k, j) <==>
            HeldBy(ws, es, k - 1, j) && !NewChoice(ws[k - 1], es[k - 1]) && !Fails(ws[k - 1], es[k - 1], ws[k].s)
  {
    hide NewChoice, Fails;
  }
}
