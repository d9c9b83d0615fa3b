/** NAT for exit-node mode on the iptables backend: rules are checked before they are added,
    failures roll back, and teardown removes what a plan may have added.  The host is its two
    chains touched by a plan and the forwarding flag; adding a rule and writing the flag may
    fail, deleting succeeds. */
module Nat {
  import opened Options

  type Args = seq<string>

  datatype Chain = Postrouting | Forward

  datatype Rule = Rule(chain: Chain, insert: bool, args: Args)

  datatype Host = Host(postrouting: seq<Args>, forward: seq<Args>, forwarding: bool)

  datatype Mode = ExitMode | ClientMode

  /** `sources` and `own` are printed prefixes and addresses. */
  datatype Plan = Plan(mode: Mode, tun: string, uplink: string, sources: seq<string>, own: string, valid: bool)

  datatype Previous = Untouched | WasOff | WasOn

  datatype State = State(plan: Plan, previous: Previous)

  /** Whether the forwarding flag of the host can be read and written. */
  datatype Flag = Flag(readable: bool, writable: bool)

  // ------------------------------------------------------------------------ rules

  function SourceRules(p: Plan, src: string): seq<Rule> {
    [Rule(Postrouting, false, ["-s", src, "-o", p.uplink, "-j", "MASQUERADE"]),
     Rule(Forward, true, ["-i", p.tun, "-o", p.uplink, "-s", src, "-j", "ACCEPT"]),
     Rule(Forward, true, ["-i", p.uplink, "-o", p.tun, "-d", src, "-m", "conntrack", "--ctstate", "RELATED,ESTABLISHED",
                          "-j", "ACCEPT"])]
  }

  /** `IPTablesRules`. */
  function Rules(p: Plan): seq<Rule> {
    if p.mode.ClientMode? then [Rule(Postrouting, false, ["-o", p.tun, "!", "-s", p.own + "/32", "-j", "MASQUERADE"])]
    else AllSources(p, p.sources)
  }

  function AllSources(p: Plan, sources: seq<string>): seq<Rule> {
    if sources == [] then [] else SourceRules(p, sources[0]) + AllSources(p, sources[1..])
  }

  // --------------------------------------------------------------------- commands

  function Lines(h: Host, c: Chain): seq<Args> { if c.Postrouting? then h.postrouting else h.forward }

  function WithLines(h: Host, c: Chain, lines: seq<Args>): Host {
    if c.Postrouting? then h.(postrouting := lines) else h.(forward := lines)
  }

  predicate Present(h: Host, r: Rule) { r.args in Lines(h, r.chain) }

  function AddRule(h: Host, r: Rule): Host {
    WithLines(h, r.chain, if r.insert then [r.args] + Lines(h, r.chain) else Lines(h, r.chain) + [r.args])
  }

  function RemoveFirst(s: seq<Args>, x: Args): seq<Args> {
    if s == [] then [] else if s[0] == x then s[1..] else [s[0]] + RemoveFirst(s[1..], x)
  }

  function DeleteRule(h: Host, r: Rule): Host {
    WithLines(h, r.chain, RemoveFirst(Lines(h, r.chain), r.args))
  }

  /** `applyRules`: adds what is missing; after `adds` successful additions the next one fails. */
  function Applied(h: Host, rules: seq<Rule>, adds: nat): (Host, bool)
    decreases |rules|
  {
    if rules == [] then (h, true)
    else if Present(h, rules[0]) then Applied(h, rules[1..], adds)
    else if adds == 0 then (h, false)
    else Applied(AddRule(h, rules[0]), rules[1..], adds - 1)
  }

  /** Deletes one rule up to `times` times, as long as it is present. */
  function Deleted(h: Host, r: Rule, times: nat): Host
    decreases times
  {
    if times == 0 || !Present(h, r) then h else Deleted(DeleteRule(h, r), r, times - 1)
  }

  /** The rule part of `DisableNAT`. */
  function Withdrawn(h: Host, rules: seq<Rule>): Host
    decreases |rules|
  {
    if rules == [] then h else Withdrawn(Deleted(h, rules[0], 4), rules[1..])
  }

  // ------------------------------------------------------------------- operations

  function Disabled(h: Host, st: State): Host {
    var cleaned := Withdrawn(h, Rules(st.plan));
    if st.previous.WasOff? then cleaned.(forwarding := false) else cleaned
  }

  /** The plan is valid and, for an exit, forwarding is known to be on or can be switched on, so
      the rules are tried. */
  predicate Tried(h: Host, p: Plan, flag: Flag) {
    p.valid && (p.mode.ExitMode? ==> flag.readable && (h.forwarding || flag.writable))
  }

  /** `EnableNAT`. */
  function Enabled(h: Host, p: Plan, flag: Flag, adds: nat): (Host, Option<State>) {
    if !Tried(h, p, flag) then (h, None)
    else
      var previous := if p.mode.ClientMode? then Untouched else if h.forwarding then WasOn else WasOff;
      var (h1, ok) := Applied(if previous.WasOff? then h.(forwarding := true) else h, Rules(p), adds);
      if ok then (h1, Some(State(p, previous))) else (Disabled(h1, State(p, previous)), None)
  }

  predicate AllPresent(h: Host, rules: seq<Rule>) { forall i :: 0 <= i < |rules| ==> Present(h, rules[i]) }

  /** `EnsureNAT`. */
  function Ensured(h: Host, st: State, adds: nat): (Host, bool) {
    if AllPresent(h, Rules(st.plan)) then (h, true) else Applied(h, Rules(st.plan), adds)
  }

  class Firewall {
    var postrouting: seq<Args>
    var forward: seq<Args>
    var forwarding: bool
    /** How many more additions succeed. */
    var adds: nat

    ghost function View(): Host reads this { Host(postrouting, forward, forwarding) }

    constructor (h: Host, adds: nat)
      ensures View() == h && this.adds == adds
    {
      postrouting, forward, forwarding, this.adds := h.postrouting, h.forward, h.forwarding, adds;
    }

    method Check(r: Rule) returns (present: bool)
      ensures present == Present(View(), r)
    {
      present := r.args in if r.chain.Postrouting? then postrouting else forward;
    }

    method AddOne(r: Rule) returns (ok: bool)
      modifies this
      ensures ok == (old(adds) > 0)
      ensures View() == if ok then AddRule(old(View()), r) else old(View())
      ensures adds == if ok then old(adds) - 1 else 0
    {
      ok := adds > 0;
      if !ok {
        return;
      }
      adds := adds - 1;
      if r.chain.Postrouting? {
        postrouting := if r.insert then [r.args] + postrouting else postrouting + [r.args];
      } else {
        forward := if r.insert then [r.args] + forward else forward + [r.args];
      }
    }

    method DeleteOne(r: Rule)
      modifies this
      ensures View() == DeleteRule(old(View()), r) && adds == old(adds)
    {
      if r.chain.Postrouting? {
        postrouting := RemoveFirst(postrouting, r.args);
      } else {
        forward := RemoveFirst(forward, r.args);
      }
    }

    method ApplyRules(p: Plan) returns (ok: bool)
      modifies this
      ensures (View(), ok) == Applied(old(View()), Rules(p), old(adds))
    {
      var rules := Rules(p);
      for i := 0 to |rules|
        invariant Applied(View(), rules[i..], adds) == Applied(old(View()), rules, old(adds))
      {
        assert rules[i..][1..] == rules[i + 1..];
        var present := Check(rules[i]);
        if !present {
          var added := AddOne(rules[i]);
          if !added {
            return false;
          }
        }
      }
      return true;
    }

    method DisableNAT(st: State)
      modifies this
      ensures View() == Disabled(old(View()), st)
    {
      var rules := Rules(st.plan);
      for i := 0 to |rules|
        invariant Withdrawn(View(), rules[i..]) == Withdrawn(old(View()), rules)
      {
        assert rules[i..][1..] == rules[i + 1..];
        ghost var before := View();
        var times := 4;
        while times > 0
          invariant times >= 0
          invariant Deleted(View(), rules[i], times) == Deleted(before, rules[i], 4)
        {
          var present := Check(rules[i]);
          if !present {
            break;
          }
          DeleteOne(rules[i]);
          times := times - 1;
        }
        assert View() == Deleted(before, rules[i], 4);
      }
      if st.previous.WasOff? {
        forwarding := false;
      }
    }

    method EnableNAT(p: Plan, flag: Flag) returns (result: Option<State>)
      modifies this
      ensures (View(), result) == Enabled(old(View()), p, flag, old(adds))
    {
      hide Applied, Withdrawn;
      if !p.valid {
        return None;
      }
      var previous := Untouched;
      if p.mode.ExitMode? {
        if !flag.readable {
          return None;
        }
        previous := if forwarding then WasOn else WasOff;
        if !forwarding {
          if !flag.writable {
            return None;
          }
          forwarding := true;
        }
      }
      var ok := ApplyRules(p);
      if !ok {
        DisableNAT(State(p, previous));
        return None;
      }
      return Some(State(p, previous));
    }

    method EnsureNAT(st: State) returns (ok: bool)
      modifies this
      ensures (View(), ok) == Ensured(old(View()), st, old(adds))
    {
      hide Applied;
      var rules := Rules(st.plan);
      for i := 0 to |rules|
        invariant forall j :: 0 <= j < i ==> Present(View(), rules[j])
        invariant View() == old(View()) && adds == old(adds)
      {
        var present := Check(rules[i]);
        if !present {
          ok := ApplyRules(st.plan);
          return;
        }
      }
      return true;
    }
  }

  // ------------------------------------------------- what a plan leaves of a host

  ghost function PlanLines(rules: seq<Rule>, c: Chain): set<Args> {
    set i | 0 <= i < |rules| && rules[i].chain == c :: rules[i].args
  }

  function Without(s: seq<Args>, xs: set<Args>): seq<Args> {
    if s == [] then [] else (if s[0] in xs then [] else [s[0]]) + Without(s[1..], xs)
  }

  /** The host without any line of the plan. */
  ghost function Stripped(h: Host, rules: seq<Rule>): Host {
    Host(Without(h.postrouting, PlanLines(rules, Postrouting)), Without(h.forward, PlanLines(rules, Forward)),
         h.forwarding)
  }

  ghost function Count(h: Host, r: Rule): nat { multiset(Lines(h, r.chain))[r.args] }

  lemma {:induction false} WithoutConcat(a: seq<Args>, b: seq<Args>, xs: set<Args>)
    ensures Without(a + b, xs) == Without(a, xs) + Without(b, xs)
    decreases |a|
  {
    if a == [] {
      assert a + b == b;
    } else {
      assert (a + b)[1..] == a[1..] + b;
      WithoutConcat(a[1..], b, xs);
    }
  }

  lemma {:induction false} WithoutNone(s: seq<Args>, xs: set<Args>)
    ensures (forall x :: x in xs ==> x !in s) <==> Without(s, xs) == s
    ensures |Without(s, xs)| <= |s| && forall x :: x in xs ==> x !in Without(s, xs)
    decreases |s|
  {
    if s != [] {
      WithoutNone(s[1..], xs);
      assert s == [s[0]] + s[1..];
    }
  }

  lemma {:induction false} RemoveMeans(s: seq<Args>, x: Args, xs: set<Args>)
    requires x in s
    ensures multiset(RemoveFirst(s, x)) == multiset(s) - multiset{x}
    ensures x in xs ==> Without(RemoveFirst(s, x), xs) == Without(s, xs)
    decreases |s|
  {
    assert s == [s[0]] + s[1..];
    if s[0] != x {
      RemoveMeans(s[1..], x, xs);
      assert ([s[0]] + RemoveFirst(s[1..], x))[1..] == RemoveFirst(s[1..], x);
    }
  }

  lemma PresentCounts(h: Host, r: Rule)
    ensures Present(h, r) <==> Count(h, r) > 0
    ensures forall q: Rule :: q.chain == r.chain && q.args == r.args ==> Count(h, q) == Count(h, r)
  {}

  lemma AddStrips(h: Host, r: Rule, rules: seq<Rule>)
    requires r in rules
    ensures Stripped(AddRule(h, r), rules) == Stripped(h, rules) && AddRule(h, r).forwarding == h.forwarding
  {
    hide Without, PlanLines;
    StripAdd(Lines(h, r.chain), r, rules);
  }

  lemma AddCounts(h: Host, r: Rule)
    ensures forall q: Rule ::
              Count(AddRule(h, r), q) == Count(h, q) + if q.chain == r.chain && q.args == r.args then 1 else 0
  {
    var lines := Lines(h, r.chain);
    assert multiset([r.args] + lines) == multiset(lines) + multiset{r.args};
    assert multiset(lines + [r.args]) == multiset(lines) + multiset{r.args};
  }

  lemma StripAdd(lines: seq<Args>, r: Rule, rules: seq<Rule>)
    requires r in rules
    ensures var xs := PlanLines(rules, r.chain);
            Without([r.args] + lines, xs) == Without(lines, xs) && Without(lines + [r.args], xs) == Without(lines, xs)
  {
    var xs := PlanLines(rules, r.chain);
    assert r.args in xs;
    assert [r.args][1..] == [];
    WithoutConcat([r.args], lines, xs);
    WithoutConcat(lines, [r.args], xs);
  }

  lemma LineOf(rules: seq<Rule>, r: Rule)
    requires r in rules
    ensures r.args in PlanLines(rules, r.chain)
  {}

  lemma DeleteMeans(h: Host, r: Rule, rules: seq<Rule>)
    requires r in rules && Present(h, r)
    ensures Stripped(DeleteRule(h, r), rules) == Stripped(h, rules) && DeleteRule(h, r).forwarding == h.forwarding
    ensures forall q: Rule ::
              Count(DeleteRule(h, r), q) == Count(h, q) - if q.chain == r.chain && q.args == r.args then 1 else 0
  {
    hide Without, PlanLines, RemoveFirst;
    RemoveMeans(Lines(h, r.chain), r.args, PlanLines(rules, r.chain));
    LineOf(rules, r);
  }

  ghost predicate AtMost(h: Host, rules: seq<Rule>, n: nat) { forall r :: r in rules ==> Count(h, r) <= n }

  /** Applying a part of a plan: nothing but plan lines changes, none is duplicated, and on
      success every rule of the part is there. */
  lemma {:induction false} AppliedMeans(h: Host, part: seq<Rule>, rules: seq<Rule>, adds: nat)
    requires forall r :: r in part ==> r in rules
    ensures var (after, ok) := Applied(h, part, adds);
            && Stripped(after, rules) == Stripped(h, rules) && after.forwarding == h.forwarding
            && (forall q: Rule :: Count(h, q) <= Count(after, q) <= if Count(h, q) > 1 then Count(h, q) else 1)
            && (ok ==> forall r :: r in part ==> Count(after, r) >= 1)
    decreases |part|
  {
    hide Stripped, Count, Present, AddRule;
    if part != [] {
      var r, rest := part[0], part[1..];
      assert forall q :: q in part ==> q == r || q in rest;
      PresentCounts(h, r);
      if Present(h, r) {
        AppliedMeans(h, rest, rules, adds);
      } else if adds > 0 {
        AddStrips(h, r, rules);
        AddCounts(h, r);
        AppliedMeans(AddRule(h, r), rest, rules, adds - 1);
      }
    }
  }

  lemma {:induction false} DeletedMeans(h: Host, r: Rule, rules: seq<Rule>, times: nat)
    requires r in rules
    ensures var after := Deleted(h, r, times);
            && Stripped(after, rules) == Stripped(h, rules) && after.forwarding == h.forwarding
            && (forall q: Rule :: Count(after, q) <= Count(h, q))
            && (Count(h, r) <= times ==> Count(after, r) == 0)
            && (Count(h, r) > 0 && times > 0 ==> Count(after, r) < Count(h, r))
    decreases times
  {
    hide Stripped, Count, Present, DeleteRule;
    PresentCounts(h, r);
    if times > 0 && Present(h, r) {
      DeleteMeans(h, r, rules);
      DeletedMeans(DeleteRule(h, r), r, rules, times - 1);
    }
  }

  lemma {:induction false} WithdrawnMeans(h: Host, part: seq<Rule>, rules: seq<Rule>)
    requires forall r :: r in part ==> r in rules
    ensures var after := Withdrawn(h, part);
            && Stripped(after, rules) == Stripped(h, rules) && after.forwarding == h.forwarding
            && (forall q: Rule :: Count(after, q) <= Count(h, q))
            && (forall r :: r in part && Count(h, r) <= 4 ==> Count(after, r) == 0)
            && (forall r :: r in part && Count(h, r) > 0 ==> Count(after, r) < Count(h, r))
    decreases |part|
  {
    hide Stripped, Deleted, Count;
    if part != [] {
      var r, rest := part[0], part[1..];
      assert forall q :: q in part ==> q == r || q in rest;
      DeletedMeans(h, r, rules, 4);
      WithdrawnMeans(Deleted(h, r, 4), rest, rules);
    }
  }

  ghost predicate Free(h: Host, rules: seq<Rule>) { forall r :: r in rules ==> !Present(h, r) }

  /** Stripping changes nothing exactly when no line of the plan is there. */
  lemma StrippedFree(h: Host, rules: seq<Rule>)
    ensures Free(h, rules) <==> Stripped(h, rules) == h
  {
    var post, forw := PlanLines(rules, Postrouting), PlanLines(rules, Forward);
    WithoutNone(h.postrouting, post);
    WithoutNone(h.forward, forw);
    if Free(h, rules) {
      forall x | x in post ensures x !in h.postrouting {
        var i :| 0 <= i < |rules| && rules[i].chain == Postrouting && x == rules[i].args;
        assert rules[i] in rules && !Present(h, rules[i]);
      }
      forall x | x in forw ensures x !in h.forward {
        var i :| 0 <= i < |rules| && rules[i].chain == Forward && x == rules[i].args;
        assert rules[i] in rules && !Present(h, rules[i]);
      }
    }
    if Stripped(h, rules) == h {
      forall r | r in rules ensures !Present(h, r) {
        var i :| 0 <= i < |rules| && rules[i] == r;
        assert r.args in PlanLines(rules, r.chain);
      }
    }
  }

  /** Withdrawing a whole plan leaves the host without its lines. */
  lemma WithdrawnStrips(h: Host, rules: seq<Rule>)
    requires AtMost(h, rules, 4)
    ensures Withdrawn(h, rules) == Stripped(h, rules)
  {
    hide Withdrawn, Stripped;
    WithdrawnMeans(h, rules, rules);
    var after := Withdrawn(h, rules);
    StrippedFree(after, rules);
    assert forall r :: r in rules ==> Count(after, r) == 0;
  }

  // ------------------------------------------------------------------ main results

  ghost predicate ExactlyOnce(h: Host, rules: seq<Rule>) { forall r :: r in rules ==> Count(h, r) == 1 }

  /** From a host with no rule of the plan, enabling either succeeds, with every rule there
      exactly once, nothing else changed and forwarding on for an exit, or restores the host
      exactly; and disabling restores the original host exactly. */
  lemma EnableIsAllOrNothing(h: Host, p: Plan, flag: Flag, adds: nat)
    requires Free(h, Rules(p))
    ensures var (after, result) := Enabled(h, p, flag, adds);
            match result
            case None => after == h
            case Some(st) =>
              && ExactlyOnce(after, Rules(p)) && Stripped(after, Rules(p)) == h.(forwarding := after.forwarding)
              && after.forwarding == (p.mode.ExitMode? || h.forwarding)
              && Disabled(after, st) == h
  {
    hide Rules, Applied, Withdrawn;
    var rules := Rules(p);
    var start := if p.mode.ExitMode? then h.(forwarding := true) else h;
    AppliedMeans(start, rules, rules, adds);
    var after := Applied(start, rules, adds).0;
    StrippedFree(h, rules);
    assert Free(start, rules);
    FreeCounts(start, rules);
    WithdrawnStrips(after, rules);
  }

  lemma FreeCounts(h: Host, rules: seq<Rule>)
    requires Free(h, rules)
    ensures forall r :: r in rules ==> Count(h, r) == 0
  {}

  /** A failed activation restores the host exactly when it did not get to the rules or the plan
      had none of its rules on the host before: rules that were already there are removed with
      the rest. */
  lemma RollbackIsExact(h: Host, p: Plan, flag: Flag, adds: nat)
    requires Enabled(h, p, flag, adds).1.None?
    ensures Enabled(h, p, flag, adds).0 == h <==> !Tried(h, p, flag) || Free(h, Rules(p))
  {
    hide Rules, Applied, Withdrawn, Count;
    var rules := Rules(p);
    if Free(h, rules) {
      EnableIsAllOrNothing(h, p, flag, adds);
    } else if Tried(h, p, flag) {
      var r :| r in rules && Present(h, r);
      var start := if p.mode.ExitMode? then h.(forwarding := true) else h;
      var applied := Applied(start, rules, adds).0;
      AppliedMeans(start, rules, rules, adds);
      WithdrawnMeans(applied, rules, rules);
      PresentCounts(h, r);
      SameCount(h, start, r);
      SameCount(Withdrawn(applied, rules), Enabled(h, p, flag, adds).0, r);
    }
  }

  /** Disabling after a success restores the host exactly when it held none of the rules before. */
  lemma DisableIsExact(h: Host, p: Plan, flag: Flag, adds: nat)
    ensures var (after, result) := Enabled(h, p, flag, adds);
            result.Some? ==> (Disabled(after, result.value) == h <==> Free(h, Rules(p)))
  {
    hide Rules, Applied, Withdrawn, Count;
    var rules := Rules(p);
    var (after, result) := Enabled(h, p, flag, adds);
    if Free(h, rules) {
      EnableIsAllOrNothing(h, p, flag, adds);
    } else if result.Some? {
      var r :| r in rules && Present(h, r);
      var start := if p.mode.ExitMode? then h.(forwarding := true) else h;
      AppliedMeans(start, rules, rules, adds);
      WithdrawnMeans(after, rules, rules);
      PresentCounts(h, r);
      SameCount(h, start, r);
      SameCount(Withdrawn(after, rules), Disabled(after, result.value), r);
    }
  }

  lemma SameCount(a: Host, b: Host, r: Rule)
    requires a.postrouting == b.postrouting && a.forward == b.forward
    ensures Count(a, r) == Count(b, r)
  {}

  /** The masquerading rule was there, the second rule is refused, and the rollback takes the
      first one away. */
  lemma RollbackCanLoseRule()
    ensures var p := Plan(ExitMode, "tun0", "eth0", ["10.0.0.0/8"], "", true);
            var h := Host([Rules(p)[0].args], [], true);
            var (after, result) := Enabled(h, p, Flag(true, true), 0);
            result.None? && after != h && h.postrouting == [SourceRules(p, "10.0.0.0/8")[0].args]
  {
    var p := Plan(ExitMode, "tun0", "eth0", ["10.0.0.0/8"], "", true);
    assert Rules(p) == SourceRules(p, "10.0.0.0/8");
    var h := Host([Rules(p)[0].args], [], true);
    assert Present(h, Rules(p)[0]) && !Present(h, Rules(p)[1]);
    assert Applied(h, Rules(p), 0) == Applied(h, Rules(p)[1..], 0) == (h, false);
    RollbackIsExact(h, p, Flag(true, true), 0);
  }

  /** After any external removal of rules, ensuring brings every rule of the plan back exactly
      once without touching anything else, and disabling still removes exactly the plan. */
  lemma EnsureRestores(h: Host, st: State, adds: nat)
    requires AtMost(h, Rules(st.plan), 1)
    ensures var (after, ok) := Ensured(h, st, adds);
            && Stripped(after, Rules(st.plan)) == Stripped(h, Rules(st.plan)) && AtMost(after, Rules(st.plan), 1)
            && (ok ==> ExactlyOnce(after, Rules(st.plan)))
            && Disabled(after, st) == Disabled(h, st)
  {
    hide Rules, Applied, Withdrawn;
    var rules := Rules(st.plan);
    AppliedMeans(h, rules, rules, adds);
    var after := Ensured(h, st, adds).0;
    if AllPresent(h, rules) {
      forall r | r in rules ensures Count(h, r) >= 1 {
        var i :| 0 <= i < |rules| && rules[i] == r;
        assert Present(h, rules[i]);
      }
    }
    WithdrawnStrips(h, rules);
    WithdrawnStrips(after, rules);
  }

  // ---------------------------------------------------------------- where the rules go

  ghost predicate LineOfPart(part: seq<Rule>, c: Chain, x: Args) {
    exists r :: r in part && r.chain == c && r.args == x
  }

  predicate Placed(r: Rule) { r.insert <==> r.chain.Forward? }

  /** `after` is `h` with lines of the part before the FORWARD chain and after the POSTROUTING one. */
  ghost predicate Around(h: Host, after: Host, part: seq<Rule>) {
    && |after.forward| >= |h.forward| && |after.postrouting| >= |h.postrouting|
    && after.forward[|after.forward| - |h.forward|..] == h.forward
    && after.postrouting[..|h.postrouting|] == h.postrouting
    && (forall x :: x in after.forward[..|after.forward| - |h.forward|] ==> LineOfPart(part, Forward, x))
    && (forall x :: x in after.postrouting[|h.postrouting|..] ==> LineOfPart(part, Postrouting, x))
  }

  lemma AroundOne(h: Host, r: Rule, after: Host, rest: seq<Rule>)
    requires Placed(r) && Around(AddRule(h, r), after, rest)
    ensures Around(h, after, [r] + rest)
  {
    var part := [r] + rest;
    assert forall c, x :: LineOfPart(rest, c, x) ==> LineOfPart(part, c, x);
    assert r in part;
    var mid := AddRule(h, r);
    if r.chain.Forward? {
      var n := |after.forward| - |mid.forward|;
      assert after.forward[n..] == [r.args] + h.forward;
      assert after.forward[n + 1..] == after.forward[n..][1..] && ([r.args] + h.forward)[1..] == h.forward;
      assert after.forward[..n + 1] == after.forward[..n] + [r.args];
    } else {
      var n := |h.postrouting|;
      assert after.postrouting[..n + 1] == h.postrouting + [r.args];
      assert after.postrouting[..n] == after.postrouting[..n + 1][..n]
             && (h.postrouting + [r.args])[..n] == h.postrouting;
      assert after.postrouting[n..] == [r.args] + after.postrouting[n + 1..];
    }
  }

  lemma {:induction false} AppliedAround(h: Host, part: seq<Rule>, adds: nat)
    requires forall r :: r in part ==> Placed(r)
    ensures Around(h, Applied(h, part, adds).0, part)
    decreases |part|
  {
    if part != [] {
      var r, rest := part[0], part[1..];
      assert part == [r] + rest;
      assert r in part;
      if Present(h, r) {
        AppliedAround(h, rest, adds);
        assert forall c, x :: LineOfPart(rest, c, x) ==> LineOfPart(part, c, x);
      } else if adds > 0 {
        AppliedAround(AddRule(h, r), rest, adds - 1);
        AroundOne(h, r, Applied(AddRule(h, r), rest, adds - 1).0, rest);
      }
    }
  }

  lemma {:induction false} AllPlaced(p: Plan, sources: seq<string>)
    ensures forall r :: r in AllSources(p, sources) ==> Placed(r)
    decreases |sources|
  {
    if sources != [] {
      AllPlaced(p, sources[1..]);
    }
  }

  /** A successful activation puts its FORWARD rules before every earlier line of the chain, so that
      no earlier line decides first, and its POSTROUTING rules after. */
  lemma EnableGoesAround(h: Host, p: Plan, flag: Flag, adds: nat)
    ensures var (after, result) := Enabled(h, p, flag, adds); result.Some? ==> Around(h, after, Rules(p))
  {
    hide Applied, Withdrawn;
    AllPlaced(p, p.sources);
    AppliedAround(h, Rules(p), adds);
    AppliedAround(h.(forwarding := true), Rules(p), adds);
  }

  // ------------------------------------------------------------ what the rules let through

  datatype Packet = Packet(incoming: string, outgoing: string, src: string, dst: string, established: bool)

  /** Whether a packet meets the conditions of a rule; `inside` says whether an address lies in a
      prefix. */
  predicate Meets(args: Args, pkt: Packet, inside: (string, string) -> bool) {
    if |args| < 2 || args[0] == "-j" then true
    else if args[0] == "!" then |args| >= 3 && args[1] == "-s" && !inside(pkt.src, args[2])
        && Meets(args[3..], pkt, inside)
    else
      && Condition(args[0], args[1], pkt, inside)
      && Meets(args[2..], pkt, inside)
  }

  predicate Condition(option: string, value: string, pkt: Packet, inside: (string, string) -> bool) {
    if option == "-i" then pkt.incoming == value
    else if option == "-o" then pkt.outgoing == value
    else if option == "-s" then inside(pkt.src, value)
    else if option == "-d" then inside(pkt.dst, value)
    else if option == "--ctstate" then pkt.established
    else option == "-m"
  }

  lemma MeetsPair(option: string, value: string, rest: Args, pkt: Packet, inside: (string, string) -> bool)
    requires option != "-j" && option != "!"
    ensures Meets([option, value] + rest, pkt, inside) <==>
            Condition(option, value, pkt, inside) && Meets(rest, pkt, inside)
  {
    assert ([option, value] + rest)[2..] == rest;
  }

  lemma MeetsEnd(target: string, pkt: Packet, inside: (string, string) -> bool)
    ensures Meets(["-j", target], pkt, inside)
  {}

  /** The three rules of one source: what it sends out of the uplink is masqueraded; from the tunnel
      to the uplink it may pass; and back only what belongs to it. */
  lemma SourceRulesMean(p: Plan, src: string, pkt: Packet, inside: (string, string) -> bool)
    ensures var rules := SourceRules(p, src);
            && |rules| == 3 && rules[0].chain.Postrouting? && rules[1].chain.Forward? && rules[2].chain.Forward?
            && rules[0].args[|rules[0].args| - 1] == "MASQUERADE"
            && rules[1].args[|rules[1].args| - 1] == "ACCEPT" && rules[2].args[|rules[2].args| - 1] == "ACCEPT"
            && (Meets(rules[0].args, pkt, inside) <==> inside(pkt.src, src) && pkt.outgoing == p.uplink)
            && (Meets(rules[1].args, pkt, inside) <==>
                  pkt.incoming == p.tun && pkt.outgoing == p.uplink && inside(pkt.src, src))
            && (Meets(rules[2].args, pkt, inside) <==>
                  pkt.incoming == p.uplink && pkt.outgoing == p.tun && inside(pkt.dst, src) && pkt.established)
  {
    hide Meets;
    var accept, masquerade := ["-j", "ACCEPT"], ["-j", "MASQUERADE"];
    MeetsEnd("ACCEPT", pkt, inside);
    MeetsEnd("MASQUERADE", pkt, inside);
    MeetsPair("-o", p.uplink, masquerade, pkt, inside);
    MeetsPair("-s", src, ["-o", p.uplink] + masquerade, pkt, inside);
    assert SourceRules(p, src)[0].args == ["-s", src] + (["-o", p.uplink] + masquerade);
    MeetsPair("-s", src, accept, pkt, inside);
    MeetsPair("-o", p.uplink, ["-s", src] + accept, pkt, inside);
    MeetsPair("-i", p.tun, ["-o", p.uplink] + (["-s", src] + accept), pkt, inside);
    assert SourceRules(p, src)[1].args == ["-i", p.tun] + (["-o", p.uplink] + (["-s", src] + accept));
    var state := ["--ctstate", "RELATED,ESTABLISHED"] + accept;
    MeetsPair("--ctstate", "RELATED,ESTABLISHED", accept, pkt, inside);
    MeetsPair("-m", "conntrack", state, pkt, inside);
    MeetsPair("-d", src, ["-m", "conntrack"] + state, pkt, inside);
    MeetsPair("-o", p.tun, ["-d", src] + (["-m", "conntrack"] + state), pkt, inside);
    MeetsPair("-i", p.uplink, ["-o", p.tun] + (["-d", src] + (["-m", "conntrack"] + state)), pkt, inside);
    assert SourceRules(p, src)[2].args
        == ["-i", p.uplink] + (["-o", p.tun] + (["-d", src] + (["-m", "conntrack"] + state)));
  }

  /** The one rule of a client masquerades what leaves through the tunnel from any other address. */
  lemma ClientRuleMeans(p: Plan, pkt: Packet, inside: (string, string) -> bool)
    requires p.mode.ClientMode?
    ensures |Rules(p)| == 1 && Rules(p)[0].chain.Postrouting?
    ensures var args := Rules(p)[0].args;
            && args[|args| - 1] == "MASQUERADE"
            && (Meets(args, pkt, inside) <==> pkt.outgoing == p.tun && !inside(pkt.src, p.own + "/32"))
  {
    var rest := ["!", "-s", p.own + "/32", "-j", "MASQUERADE"];
    assert rest[3..] == ["-j", "MASQUERADE"];
    MeetsPair("-o", p.tun, rest, pkt, inside);
    assert Rules(p)[0].args == ["-o", p.tun] + rest;
  }

  /** The plan of an exit has the rules of each of its sources and no other. */
  lemma {:induction false} ExitRulesMean(p: Plan, sources: seq<string>, r: Rule)
    ensures r in AllSources(p, sources) <==> exists i :: 0 <= i < |sources| && r in SourceRules(p, sources[i])
    decreases |sources|
  {
    hide SourceRules;
    if sources != [] {
      ExitRulesMean(p, sources[1..], r);
      if i :| 0 <= i < |sources| && r in SourceRules(p, sources[i]) && i > 0 {
        assert sources[1..][i - 1] == sources[i];
      }
    }
  }

  // ------------------------------------------------------------------ when it succeeds

  lemma {:induction false} EnoughAdds(h: Host, rules: seq<Rule>, adds: nat)
    requires adds >= |rules|
    ensures Applied(h, rules, adds).1
    decreases |rules|
  {
    hide Present, AddRule;
    if rules != [] {
      if Present(h, rules[0]) {
        EnoughAdds(h, rules[1..], adds);
      } else {
        EnoughAdds(AddRule(h, rules[0]), rules[1..], adds - 1);
      }
    }
  }

  /** An activation succeeds only with a valid plan and, for an exit, a forwarding flag that can be
      read and is on or can be switched on; and then it does if every rule can be added.  An exit
      has forwarding on afterwards; a client leaves it as it is. */
  lemma EnableSucceeds(h: Host, p: Plan, flag: Flag, adds: nat)
    ensures var (after, result) := Enabled(h, p, flag, adds);
            var ready := p.valid && (p.mode.ExitMode? ==> flag.readable && (h.forwarding || flag.writable));
            && (result.Some? ==> ready && after.forwarding == (p.mode.ExitMode? || h.forwarding))
            && (!ready ==> after == h)
            && (ready && adds >= |Rules(p)| ==> result.Some?)
  {
    hide Rules, Withdrawn, Stripped;
    var start := if p.mode.ExitMode? then h.(forwarding := true) else h;
    AppliedMeans(start, Rules(p), Rules(p), adds);
    if adds >= |Rules(p)| {
      EnoughAdds(start, Rules(p), adds);
    }
  }
}
