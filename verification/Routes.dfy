/** Client routes of exit-node mode: the plan (host routes that pin the tunnel's own endpoints
    to the physical gateway, then the split default into the tunnel), its difference from
    what is installed, and what longest-prefix match makes of it. */
module Routes {
  import opened Options
  import opened Cidr
  import opened Sums

  datatype Kind = Tunnel | Bypass | Reject

  datatype Dst = V4(prefix: Prefix) | V6(addr: nat, bits: nat)

  datatype Route = Route(dst: Dst, kind: Kind)

  datatype Address = Ip4(n: nat) | Ip6(n: nat) | NoAddress

  const LOW := V4(Prefix(0, 1))
  const HIGH := V4(Prefix(0x8000_0000, 1))
  const SPLIT: seq<Route> := [Route(LOW, Tunnel), Route(HIGH, Tunnel)]
  const BLOCK_IPV6: seq<Route> := [Route(V6(0, 1), Reject),
                                   Route(V6(0x8000_0000_0000_0000_0000_0000_0000_0000, 1), Reject)]

  datatype ClientPlan = ClientPlan(bypass: seq<Address>, onLink: nat -> bool, overlay: seq<Dst>, blockIPv6: bool,
                                   maxBypass: int)

  ghost predicate PlanOk(p: ClientPlan) {
    && (forall x :: x in p.bypass ==> x.Ip4? ==> x.n < ADDRESSES)
    && (forall d :: d in p.overlay ==> d.V4? ==> d.prefix.bits <= 32)
  }

  // ---------------------------------------------------------------------- the plan

  /** IPv4-mapped IPv6 addresses become IPv4. */
  function Unmap(x: Address): Address {
    if x.Ip6? && x.n / ADDRESSES == 0xffff then Ip4(x.n % ADDRESSES) else x
  }

  /** Not unspecified, loopback, multicast, link-local or the limited broadcast. */
  predicate Bypassable(a: nat) {
    a != 0 && a / 0x100_0000 != 127 && a / 0x1000_0000 != 14 && a / 0x1_0000 != 169 * 256 + 254 && a != ADDRESSES - 1
  }

  predicate InAny(a: nat, overlay: seq<Dst>)
    requires forall d :: d in overlay ==> d.V4? ==> d.prefix.bits <= 32
  {
    exists i :: 0 <= i < |overlay| && overlay[i].V4? && overlay[i].prefix.bits > 0 && Contains(overlay[i].prefix, a)
  }

  predicate Pins(p: ClientPlan, x: Address)
    requires forall d :: d in p.overlay ==> d.V4? ==> d.prefix.bits <= 32
  {
    var a := Unmap(x);
    a.Ip4? && Bypassable(a.n) && !InAny(a.n, p.overlay) && !p.onLink(a.n)
  }

  function Pinned(p: ClientPlan, n: nat): set<nat>
    requires PlanOk(p) && n <= |p.bypass|
  {
    set i | 0 <= i < n && Pins(p, p.bypass[i]) :: Unmap(p.bypass[i]).n
  }

  function Limit(p: ClientPlan): nat { if p.maxBypass <= 0 then 64 else p.maxBypass }

  function HostRoutes(addrs: seq<nat>): seq<Route> {
    seq(|addrs|, i requires 0 <= i < |addrs| => Route(V4(Prefix(addrs[i], 32)), Bypass))
  }

  ghost function PlannedBypass(p: ClientPlan): seq<nat>
    requires PlanOk(p)
  {
    var all := Listing(Pinned(p, |p.bypass|));
    if |all| > Limit(p) then all[..Limit(p)] else all
  }

  /** The plan: pinned addresses in ascending order, at most the limit, then the split
      default, then the IPv6 block. */
  ghost function Planned(p: ClientPlan): seq<Route>
    requires PlanOk(p)
  {
    HostRoutes(PlannedBypass(p)) + SPLIT + if p.blockIPv6 then BLOCK_IPV6 else []
  }

  method CollectPinned(p: ClientPlan) returns (seen: set<nat>)
    requires PlanOk(p)
    ensures seen == Pinned(p, |p.bypass|)
  {
    hide Pins, Unmap;
    seen := {};
    for i := 0 to |p.bypass|
      invariant seen == Pinned(p, i)
    {
      var a := Unmap(p.bypass[i]);
      PinnedStep(p, i);
      if Pins(p, p.bypass[i]) && a.n !in seen {
        seen := seen + {a.n};
      }
    }
  }

  method PlanClientRoutes(p: ClientPlan) returns (out: seq<Route>)
    requires PlanOk(p)
    ensures out == Planned(p)
  {
    hide Pinned, Listing;
    var seen := CollectPinned(p);
    var bypass := SortKeys(seen);
    if |bypass| > Limit(p) {
      bypass := bypass[..Limit(p)];
    }
    out := [];
    for i := 0 to |bypass|
      invariant out == HostRoutes(bypass[..i])
    {
      out := out + [Route(V4(Prefix(bypass[i], 32)), Bypass)];
    }
    assert bypass[..|bypass|] == bypass;
    out := out + SPLIT;
    out := out + if p.blockIPv6 then BLOCK_IPV6 else [];
  }

  lemma PinnedStep(p: ClientPlan, i: nat)
    requires PlanOk(p) && i < |p.bypass|
    ensures Pins(p, p.bypass[i]) ==> Unmap(p.bypass[i]).Ip4?
    ensures Pinned(p, i + 1) == Pinned(p, i) + if Pins(p, p.bypass[i]) then {Unmap(p.bypass[i]).n} else {}
  {}

  lemma {:induction false} PrefixOfListing(s: seq<nat>, k: nat)
    requires Ascending(s) && k <= |s|
    ensures Ascending(s[..k])
    ensures forall a, b :: a in s[..k] && b in s && b !in s[..k] ==> a < b
  {
    forall a, b | a in s[..k] && b in s && b !in s[..k] ensures a < b {
      var i :| 0 <= i < k && s[i] == a;
      var j :| 0 <= j < |s| && s[j] == b;
      assert forall x :: 0 <= x < k ==> s[x] in s[..k];
    }
  }

  /** The planned bypass addresses are the pinned ones, all of them when they fit and else the
      lowest, each once and in ascending order. */
  lemma PlannedBypassMeans(p: ClientPlan)
    requires PlanOk(p)
    ensures var pinned, planned := Pinned(p, |p.bypass|), PlannedBypass(p);
            && Ascending(planned) && |planned| <= Limit(p)
            && (forall a :: a in planned ==> a in pinned && a < ADDRESSES)
            && (|planned| < Limit(p) ==> forall a :: a in pinned ==> a in planned)
            && (forall a, b :: a in planned && b in pinned && b !in planned ==> a < b)
  {
    hide InAny, Bypassable;
    var all := Listing(Pinned(p, |p.bypass|));
    if |all| > Limit(p) {
      PrefixOfListing(all, Limit(p));
      assert forall a :: a in all[..Limit(p)] ==> a in all;
    }
    forall a | a in Pinned(p, |p.bypass|) ensures a < ADDRESSES {
      var i :| 0 <= i < |p.bypass| && Pins(p, p.bypass[i]) && a == Unmap(p.bypass[i]).n;
      PinnedStep(p, i);
      assert p.bypass[i] in p.bypass;
    }
  }

  ghost function Below(p: ClientPlan, a: nat): set<nat>
    requires PlanOk(p)
  {
    set b | b in Pinned(p, |p.bypass|) && b < a
  }

  /** A pinned address is planned exactly when fewer than the limit are lower: the cut looks at
      nothing else, not even at whether the address is critical. */
  lemma PlannedIff(p: ClientPlan, a: nat)
    requires PlanOk(p) && a in Pinned(p, |p.bypass|)
    ensures a in PlannedBypass(p) <==> |Below(p, a)| < Limit(p)
  {
    hide Pinned, Listing, PlanOk;
    var all := Listing(Pinned(p, |p.bypass|));
    var i :| 0 <= i < |all| && all[i] == a;
    forall b ensures b in all[..i] <==> b in Below(p, a) {
      if b in Below(p, a) {
        var j :| 0 <= j < |all| && all[j] == b;
        assert j < i;
      }
    }
    ListingLength(all[..i], Below(p, a));
    if a in PlannedBypass(p) && |all| > Limit(p) {
      var j :| 0 <= j < Limit(p) && all[j] == a;
    }
  }

  const CROWD: seq<Address> := seq(64, (i: nat) => Ip4(0x0808_0800 + i))

  /** Sixty-four lower candidates push the last address out of the plan. */
  lemma CrowdedOut()
    ensures var p := ClientPlan(CROWD + [Ip4(0x0909_0909)], (a: nat) => false, [], false, 0);
            PlanOk(p) && 0x0909_0909 in Pinned(p, |p.bypass|) && 0x0909_0909 !in PlannedBypass(p)
  {
    hide PlannedBypass;
    var p := ClientPlan(CROWD + [Ip4(0x0909_0909)], (a: nat) => false, [], false, 0);
    var list := seq(64, (i: nat) => 0x0808_0800 + i);
    forall i | 0 <= i < 64 ensures list[i] in Pinned(p, |p.bypass|) {
      assert p.bypass[i] == CROWD[i] == Ip4(list[i]);
      assert Pins(p, p.bypass[i]);
    }
    assert p.bypass[64] == Ip4(0x0909_0909) && Pins(p, p.bypass[64]);
    var crowd := set a | a in list;
    ListingLength(list, crowd);
    assert crowd <= Below(p, 0x0909_0909);
    SubsetSize(crowd, Below(p, 0x0909_0909));
    PlannedIff(p, 0x0909_0909);
  }

  /** The candidate is the IPv4 address, plain or mapped into IPv6. */
  predicate Names(x: Address, a: nat) { a < ADDRESSES && (x == Ip4(a) || x == Ip6(0xffff_0000_0000 + a)) }

  /** Not 0.0.0.0, 255.255.255.255, loopback, multicast or link-local. */
  predicate Ordinary(a: nat) {
    && a != 0 && a != 0xffff_ffff && !Contains(Prefix(0x7f00_0000, 8), a)
    && !Contains(Prefix(0xe000_0000, 4), a) && !Contains(Prefix(0xa9fe_0000, 16), a)
  }

  lemma OrdinaryMeans(a: nat)
    ensures Ordinary(a) <==> Bypassable(a)
  {
    hide Shift;
    BlocksByDivision(a);
    BlocksByDivision(0x7f00_0000);
    BlocksByDivision(0xe000_0000);
    BlocksByDivision(0xa9fe_0000);
  }

  lemma NamesMeans(x: Address, a: nat)
    requires x.Ip4? ==> x.n < ADDRESSES
    ensures Names(x, a) <==> Unmap(x) == Ip4(a)
  {}

  /** The addresses to pin are exactly the candidates that are ordinary, not on a directly
      connected network and in no block of the overlay. */
  lemma PinnedMeans(p: ClientPlan, a: nat)
    requires PlanOk(p)
    ensures a in Pinned(p, |p.bypass|) <==>
            && (exists i :: 0 <= i < |p.bypass| && Names(p.bypass[i], a)) && Ordinary(a) && !p.onLink(a)
            && forall d :: d in p.overlay ==> d.V4? && d.prefix.bits > 0 ==> !Contains(d.prefix, a)
  {
    hide Unmap, Names, Ordinary, Bypassable, Contains;
    OrdinaryMeans(a);
    forall i | 0 <= i < |p.bypass| ensures Names(p.bypass[i], a) <==> Unmap(p.bypass[i]) == Ip4(a) {
      assert p.bypass[i] in p.bypass;
      NamesMeans(p.bypass[i], a);
    }
    if InAny(a, p.overlay) {
      var i :| 0 <= i < |p.overlay| && p.overlay[i].V4? && p.overlay[i].prefix.bits > 0
          && Contains(p.overlay[i].prefix, a);
      assert p.overlay[i] in p.overlay;
    }
    if a in Pinned(p, |p.bypass|) {
      var i :| 0 <= i < |p.bypass| && Pins(p, p.bypass[i]) && a == Unmap(p.bypass[i]).n;
      assert Names(p.bypass[i], a);
    }
    if i :| 0 <= i < |p.bypass| && Names(p.bypass[i], a) {
      assert Unmap(p.bypass[i]) == Ip4(a);
    }
  }

  // ----------------------------------------------------------------------- the IPv6 block

  const ADDRESSES6: nat := 0x1_0000_0000_0000_0000_0000_0000_0000_0000

  /** A reject route whose block holds the IPv6 address. */
  ghost predicate Rejects(r: Route, a: nat) {
    r.kind == Reject && r.dst.V6? && r.dst.bits <= 128
        && Shift(a, 128 - r.dst.bits) == Shift(r.dst.addr, 128 - r.dst.bits)
  }

  /** A plan that blocks IPv6 rejects every IPv6 address; one that does not rejects nothing. */
  lemma PlanBlocksIPv6(p: ClientPlan, a: nat)
    requires PlanOk(p) && a < ADDRESSES6
    ensures p.blockIPv6 ==> exists r :: r in Planned(p) && Rejects(r, a)
    ensures !p.blockIPv6 ==> forall r :: r in Planned(p) ==> r.kind != Reject
  {
    hide PlannedBypass, Shift;
    var hosts, n, routes := HostRoutes(PlannedBypass(p)), |PlannedBypass(p)|, Planned(p);
    assert forall i :: 0 <= i < n ==> routes[i] == hosts[i];
    assert routes[n] == SPLIT[0] && routes[n + 1] == SPLIT[1];
    if p.blockIPv6 {
      assert routes[n + 2] == BLOCK_IPV6[0] && routes[n + 3] == BLOCK_IPV6[1];
      Halves6(a);
      assert Rejects(routes[n + 2], a) || Rejects(routes[n + 3], a);
    }
  }

  // ------------------------------------------------------------- the difference

  /** What of `desired` is not in `current`, in the order of `desired`. */
  function Missing(current: seq<Route>, desired: seq<Route>): seq<Route> {
    if desired == [] then []
    else
      var last := desired[|desired| - 1];
      Missing(current, desired[..|desired| - 1]) + if last in current then [] else [last]
  }

  /** What of `current` is not in `desired`, the last installed first. */
  function Stale(current: seq<Route>, desired: seq<Route>): seq<Route> {
    if current == [] then []
    else
      var last := current[|current| - 1];
      (if last in desired then [] else [last]) + Stale(current[..|current| - 1], desired)
  }

  method Keys(routes: seq<Route>) returns (keys: set<Route>)
    ensures forall r :: r in keys <==> r in routes
  {
    keys := {};
    for i := 0 to |routes|
      invariant forall r :: r in keys <==> r in routes[..i]
    {
      keys := keys + {routes[i]};
    }
    assert routes[..|routes|] == routes;
  }

  method ToAdd(cur: set<Route>, current: seq<Route>, desired: seq<Route>) returns (add: seq<Route>)
    requires forall r :: r in cur <==> r in current
    ensures add == Missing(current, desired)
  {
    add := [];
    for i := 0 to |desired|
      invariant add == Missing(current, desired[..i])
    {
      if desired[i] !in cur {
        add := add + [desired[i]];
      }
      assert desired[..i + 1][..i] == desired[..i];
    }
    assert desired[..|desired|] == desired;
  }

  method ToDelete(want: set<Route>, current: seq<Route>, desired: seq<Route>) returns (del: seq<Route>)
    requires forall r :: r in want <==> r in desired
    ensures del == Stale(current, desired)
  {
    del := [];
    var i := |current|;
    assert current[..|current|] == current;
    while i > 0
      invariant 0 <= i <= |current|
      invariant del + Stale(current[..i], desired) == Stale(current, desired)
    {
      i := i - 1;
      assert current[..i + 1][..i] == current[..i];
      if current[i] !in want {
        del := del + [current[i]];
      }
    }
  }

  method DiffRoutes(current: seq<Route>, desired: seq<Route>) returns (add: seq<Route>, del: seq<Route>)
    ensures add == Missing(current, desired) && del == Stale(current, desired)
  {
    var cur := Keys(current);
    var want := Keys(desired);
    add := ToAdd(cur, current, desired);
    del := ToDelete(want, current, desired);
  }

  lemma {:induction false} MissingMeans(current: seq<Route>, desired: seq<Route>)
    ensures forall r :: r in Missing(current, desired) <==> r in desired && r !in current
    decreases |desired|
  {
    if desired != [] {
      var front, last := desired[..|desired| - 1], desired[|desired| - 1];
      assert desired == front + [last];
      MissingMeans(current, front);
    }
  }

  lemma {:induction false} StaleMeans(current: seq<Route>, desired: seq<Route>)
    ensures forall r :: r in Stale(current, desired) <==> r in current && r !in desired
    decreases |current|
  {
    if current != [] {
      var front, last := current[..|current| - 1], current[|current| - 1];
      assert current == front + [last];
      StaleMeans(front, desired);
    }
  }

  /** Additions come in the order of the plan. */
  lemma {:induction false} MissingOrder(current: seq<Route>, desired: seq<Route>) returns (at: seq<nat>)
    ensures var add := Missing(current, desired);
            && |at| == |add| && Ascending(at)
            && forall i :: 0 <= i < |add| ==> at[i] < |desired| && add[i] == desired[at[i]]
    decreases |desired|
  {
    at := [];
    if desired != [] {
      at := MissingOrder(current, desired[..|desired| - 1]);
      if desired[|desired| - 1] !in current {
        at := at + [|desired| - 1];
      }
    }
  }

  /** Removals come in the reverse of the order of installation. */
  lemma {:induction false} StaleOrder(current: seq<Route>, desired: seq<Route>) returns (at: seq<nat>)
    ensures var del := Stale(current, desired);
            && |at| == |del| && (forall i, j :: 0 <= i < j < |at| ==> at[i] > at[j])
            && forall i :: 0 <= i < |del| ==> at[i] < |current| && del[i] == current[at[i]]
    decreases |current|
  {
    at := [];
    if current != [] {
      var front, last := current[..|current| - 1], current[|current| - 1];
      var rest := StaleOrder(front, desired);
      at := rest;
      if last !in desired {
        at := [|front|] + rest;
        assert Stale(current, desired) == [last] + Stale(front, desired);
      } else {
        assert Stale(current, desired) == Stale(front, desired);
      }
    }
  }

  /** Removing and adding the difference gives exactly the desired set, touching nothing that
      is in both. */
  lemma DiffReachesDesired(current: seq<Route>, desired: seq<Route>)
    ensures var cur, want := set r | r in current, set r | r in desired;
            var add, del := set r | r in Missing(current, desired), set r | r in Stale(current, desired);
            && cur - del + add == want && add !! cur && del !! want && del <= cur
  {
    MissingMeans(current, desired);
    StaleMeans(current, desired);
  }

  // ---------------------------------------------------------- longest-prefix match

  datatype Gateway = Gateway(interface: nat, addr: nat)

  datatype Target = Into | Via(gateway: Option<Gateway>) | Rejecting | Foreign(id: nat)

  type Table = map<Dst, Target>

  function TargetOf(r: Route, gw: Option<Gateway>): Target {
    match r.kind case Tunnel => Into case Bypass => Via(gw) case Reject => Rejecting
  }

  ghost predicate TableOk(t: Table) {
    forall d :: d in t && d.V4? ==> Valid(d.prefix) && Masked(d.prefix) == d.prefix
  }

  ghost predicate Matches(t: Table, a: nat, d: Dst) { d in t && d.V4? && d.prefix.bits <= 32 && Contains(d.prefix, a) }

  /** The rule of section 5.2.4.3 of RFC 1812: the most specific matching route. */
  ghost predicate Best(t: Table, a: nat, d: Dst) {
    Matches(t, a, d) && forall e :: Matches(t, a, e) ==> e.prefix.bits <= d.prefix.bits
  }

  function HostOf(a: nat): Dst { V4(Prefix(a, 32)) }

  ghost function Half(a: nat): Dst { if Contains(Prefix(0, 1), a) then LOW else HIGH }

  /** What becomes of address `a` when `after` is installed over `base`: a pinned address goes to
      the gateway; any other keeps its best route when that has length 2 or more; and one that
      was on a shorter route, or on none, goes into the tunnel. */
  ghost predicate Carries(base: Table, after: Table, pins: set<nat>, gw: Option<Gateway>, a: nat) {
    if a in pins then
      Best(after, a, HostOf(a)) && after[HostOf(a)] == Via(gw)
    else if exists d :: Best(base, a, d) && d.prefix.bits >= 2 then
      forall d :: Best(base, a, d) && d.prefix.bits >= 2 ==> Best(after, a, d) && after[d] == base[d]
    else
      Best(after, a, Half(a)) && after[Half(a)] == Into
  }

  /** `after` is `base` with both halves and one host route per pin. */
  ghost predicate Overlaid(base: Table, after: Table, pins: set<nat>, gw: Option<Gateway>) {
    && LOW !in base && HIGH !in base
    && LOW in after && after[LOW] == Into && HIGH in after && after[HIGH] == Into
    && (forall d :: d in base ==> d in after && after[d] == base[d])
    && (forall a :: a in pins ==> HostOf(a) in after && after[HostOf(a)] == Via(gw))
    && (forall d :: d in after && d !in base && d.V4? ==>
          (d == LOW || d == HIGH || (d.prefix.bits == 32 && d.prefix.addr in pins)))
  }

  lemma OverlayCarries(base: Table, after: Table, pins: set<nat>, gw: Option<Gateway>, a: nat)
    requires Overlaid(base, after, pins, gw) && a < ADDRESSES
    ensures Carries(base, after, pins, gw, a)
  {
    hide Contains, Masked;
    Halves(a);
    forall d
      ensures Matches(after, a, d) ==>
                (Matches(base, a, d) || d == LOW || d == HIGH || (d == HostOf(a) && a in pins))
      ensures Matches(base, a, d) ==> Matches(after, a, d) && after[d] == base[d] && d != LOW && d != HIGH
    {
      if d.V4? {
        HostContains(d.prefix.addr, a);
      }
    }
    if a in pins {
      HostContains(a, a);
    } else if !exists d :: Best(base, a, d) && d.prefix.bits >= 2 {
      forall d | Matches(base, a, d) ensures d.prefix.bits <= 1 {
        if d.prefix.bits >= 2 {
          var best := BestExists(base, a, d);
        }
      }
    }
  }

  ghost function Installed(t: Table, routes: seq<Route>, gw: Option<Gateway>): Table
    decreases |routes|
  {
    if routes == [] then t
    else
      var last := routes[|routes| - 1];
      Installed(t, routes[..|routes| - 1], gw)[last.dst := TargetOf(last, gw)]
  }

  ghost predicate Targets(routes: seq<Route>, d: Dst) { exists i :: 0 <= i < |routes| && routes[i].dst == d }

  lemma {:induction false} InstalledAt(t: Table, routes: seq<Route>, gw: Option<Gateway>, d: Dst)
    ensures d in Installed(t, routes, gw) <==> d in t || Targets(routes, d)
    ensures d in t && !Targets(routes, d) ==> Installed(t, routes, gw)[d] == t[d]
    decreases |routes|
  {
    if routes != [] {
      var front := routes[..|routes| - 1];
      InstalledAt(t, front, gw, d);
      if Targets(front, d) {
        var i :| 0 <= i < |front| && front[i].dst == d;
        assert routes[i].dst == d;
      }
      if Targets(routes, d) && routes[|routes| - 1].dst != d {
        var i :| 0 <= i < |routes| && routes[i].dst == d;
        assert front[i].dst == d;
      }
    }
  }

  lemma {:induction false} InstalledHop(t: Table, routes: seq<Route>, gw: Option<Gateway>, i: nat)
    requires i < |routes| && forall j, k :: 0 <= j < k < |routes| ==> routes[j].dst != routes[k].dst
    ensures var after := Installed(t, routes, gw);
            routes[i].dst in after && after[routes[i].dst] == TargetOf(routes[i], gw)
    decreases |routes|
  {
    if i < |routes| - 1 {
      InstalledHop(t, routes[..|routes| - 1], gw, i);
    }
  }

  ghost predicate PlannedShape(p: ClientPlan, r: Route)
    requires PlanOk(p)
  {
    match r.kind
    case Bypass => r.dst.V4? && r.dst.prefix.bits == 32 && r.dst.prefix.addr in PlannedBypass(p)
    case Tunnel => r.dst == LOW || r.dst == HIGH
    case Reject => r.dst.V6?
  }

  /** The keys of the plan: its host routes, the two halves, and IPv6 blocks. */
  lemma PlanKeys(p: ClientPlan)
    requires PlanOk(p)
    ensures forall i, j :: 0 <= i < j < |Planned(p)| ==> Planned(p)[i].dst != Planned(p)[j].dst
    ensures forall i :: 0 <= i < |Planned(p)| ==>
              PlannedShape(p, Planned(p)[i])
    ensures forall a :: a in PlannedBypass(p) ==> Route(V4(Prefix(a, 32)), Bypass) in Planned(p)
    ensures Route(LOW, Tunnel) in Planned(p) && Route(HIGH, Tunnel) in Planned(p)
  {
    hide PlannedBypass;
    PlannedBypassMeans(p);
    var hosts, n := HostRoutes(PlannedBypass(p)), |PlannedBypass(p)|;
    var routes := Planned(p);
    assert forall i :: 0 <= i < n ==> routes[i] == hosts[i];
    assert routes[n] == SPLIT[0] && routes[n + 1] == SPLIT[1];
    assert forall i :: n + 2 <= i < |routes| ==> routes[i] == BLOCK_IPV6[i - n - 2];
    forall a | a in PlannedBypass(p) ensures Route(V4(Prefix(a, 32)), Bypass) in routes {
      var i :| 0 <= i < n && PlannedBypass(p)[i] == a;
      assert routes[i] == Route(V4(Prefix(a, 32)), Bypass);
    }
  }

  ghost function PlannedSet(p: ClientPlan): set<nat>
    requires PlanOk(p)
  {
    set a | a in PlannedBypass(p)
  }

  /** The installed plan as a table: exactly the planned keys are new. */
  lemma PlanTable(p: ClientPlan, t: Table, gw: Option<Gateway>)
    requires PlanOk(p) && forall i :: 0 <= i < |Planned(p)| ==> Planned(p)[i].dst !in t
    ensures Overlaid(t, Installed(t, Planned(p), gw), PlannedSet(p), gw)
  {
    hide Planned, PlannedBypass, Installed;
    PlanKeys(p);
    var routes := Planned(p);
    var after := Installed(t, routes, gw);
    forall d
      ensures d in t ==> d in after && after[d] == t[d]
      ensures d in after && d !in t ==> Targets(routes, d)
    {
      InstalledAt(t, routes, gw, d);
    }
    forall r | r in routes ensures r.dst !in t && r.dst in after && after[r.dst] == TargetOf(r, gw) {
      var i :| 0 <= i < |routes| && routes[i] == r;
      InstalledHop(t, routes, gw, i);
    }
    forall a | a in PlannedBypass(p) ensures HostOf(a) in after && after[HostOf(a)] == Via(gw) {
      assert Route(HostOf(a), Bypass) in routes;
    }
    assert Route(LOW, Tunnel) in routes && Route(HIGH, Tunnel) in routes;
  }

  /** With the plan installed on a host that had no route on the planned keys, a planned bypass
      address goes to the gateway, a route of length 2 or more keeps its traffic, and the rest
      goes into the tunnel. */
  lemma TrafficFollowsPlan(p: ClientPlan, t: Table, gw: Option<Gateway>, a: nat)
    requires PlanOk(p) && a < ADDRESSES
    requires forall i :: 0 <= i < |Planned(p)| ==> Planned(p)[i].dst !in t
    ensures Carries(t, Installed(t, Planned(p), gw), PlannedSet(p), gw, a)
  {
    hide Planned, PlannedBypass, Installed, Carries, Overlaid;
    PlanTable(p, t, gw);
    OverlayCarries(t, Installed(t, Planned(p), gw), PlannedSet(p), gw, a);
  }

  /** A matching route has a best one at least as specific. */
  lemma {:induction false} BestExists(t: Table, a: nat, d: Dst) returns (best: Dst)
    requires Matches(t, a, d)
    ensures Best(t, a, best) && best.prefix.bits >= d.prefix.bits
    decreases 32 - d.prefix.bits
  {
    if e :| Matches(t, a, e) && e.prefix.bits > d.prefix.bits {
      best := BestExists(t, a, e);
    } else {
      best := d;
    }
  }

  /** In a table of masked prefixes the best route is unique. */
  lemma BestIsUnique(t: Table, a: nat, d: Dst, e: Dst)
    requires TableOk(t) && Best(t, a, d) && Best(t, a, e)
    ensures d == e
  {
    hide Contains, Masked;
    SameBlock(d.prefix, e.prefix, a);
  }
}
