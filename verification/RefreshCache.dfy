/** The single-flight refresh of the persistent data-model cache.  At most one sweep of the
    platform runs at a time; a write that lands during a sweep asks for one more through the
    rerun flag.  Every step below is one locked section or one scheduling point of the agent,
    so a script of steps is an arbitrary interleaving of writers, timers, periodic ticks,
    direct refreshes and background sweeps. */
module RefreshCache {

  /** A sweep owns the cache from `beginRefresh` on; its backend collection begins later. */
  datatype Sweep = Owned | Collecting

  /** Writes are numbered from 1 as they reach the backend.  `unregistered` are writes whose
      caller has not reached `refreshAfterMutation` yet; `spawning` counts callers and timers
      that have left their locked section and not yet started their background refresh;
      `respawning` counts finished sweeps that still have to start the rerun; `tasks` are
      background refreshes started but not yet at `beginRefresh`; `collections` holds, for
      every backend collection in order, how many writes preceded its beginning. */
  datatype State = State(
    refreshing: bool, rerun: bool, refreshDone: nat,
    sweeps: map<nat, Sweep>, closes: multiset<nat>, nextChannel: nat,
    writes: nat, unregistered: set<nat>,
    spawning: nat, timers: nat, respawning: nat, tasks: nat,
    collections: seq<nat>)

  const INITIAL := State(false, false, 0, map[], multiset{}, 0, 0, {}, 0, 0, 0, 0, [])

  datatype Step =
    | WriteLands                       // the backend applied a Set, Add or Delete
    | Register(write: nat)             // locked section of refreshAfterMutation
    | RequestSoon                      // locked section of refreshSoon
    | Spawn(settle: bool)              // its refreshAsync (and, after a write, the settle timer)
    | TimerFires                       // locked section of the settle timer
    | Tick                             // periodic refreshAsync
    | TaskBegins                       // a background refresh reaches beginRefresh
    | DirectBegins                     // Refresh or ensureSnapshot reaches beginRefresh
    | CollectionBegins(channel: nat)   // the owner calls backend.Collect
    | SweepEnds(channel: nat)          // the owner's deferred locked section
    | Respawn                          // the owner starts the rerun

  // --------------------------------------------------------- the locked sections

  /** `beginRefresh`: becomes the owner, or joins the running sweep. */
  function BeginRefresh(s: State): State {
    if s.refreshing then s
    else s.(refreshing := true, refreshDone := s.nextChannel, nextChannel := s.nextChannel + 1,
            sweeps := s.sweeps[s.nextChannel := Owned])
  }

  function MarkRerun(s: State): State {
    if s.refreshing then s.(rerun := true) else s
  }

  function EndSweep(s: State, channel: nat): State {
    s.(refreshing := false, rerun := false, closes := s.closes + multiset{channel}, sweeps := s.sweeps - {channel},
       respawning := s.respawning + if s.rerun then 1 else 0)
  }

  /** A step whose condition does not hold has no effect. */
  function Apply(s: State, step: Step): State {
    match step
    case WriteLands => s.(writes := s.writes + 1, unregistered := s.unregistered + {s.writes + 1})
    case Register(w) =>
      if w in s.unregistered
      then MarkRerun(s).(unregistered := s.unregistered - {w}, spawning := s.spawning + 1) else s
    case RequestSoon => MarkRerun(s).(spawning := s.spawning + 1)
    case Spawn(settle) =>
      if s.spawning > 0
      then s.(spawning := s.spawning - 1, tasks := s.tasks + 1, timers := s.timers + if settle then 1 else 0) else s
    case TimerFires =>
      if s.timers > 0 then MarkRerun(s).(timers := s.timers - 1, spawning := s.spawning + 1) else s
    case Tick => s.(tasks := s.tasks + 1)
    case TaskBegins => if s.tasks > 0 then BeginRefresh(s.(tasks := s.tasks - 1)) else s
    case DirectBegins => BeginRefresh(s)
    case CollectionBegins(ch) =>
      if ch in s.sweeps && s.sweeps[ch].Owned?
      then s.(sweeps := s.sweeps[ch := Collecting], collections := s.collections + [s.writes]) else s
    case SweepEnds(ch) => if ch in s.sweeps && s.sweeps[ch].Collecting? then EndSweep(s, ch) else s
    case Respawn => if s.respawning > 0 then s.(respawning := s.respawning - 1, tasks := s.tasks + 1) else s
  }

  function Run(script: seq<Step>): State {
    if script == [] then INITIAL else Apply(Run(script[..|script| - 1]), script[|script| - 1])
  }

  /** The fields the lock protects, with the locked sections as methods. */
  class Cache {
    var refreshing: bool
    var rerun: bool
    var refreshDone: nat
    var nextChannel: nat
    var closes: multiset<nat>

    constructor ()
      ensures !refreshing && !rerun && nextChannel == 0 && closes == multiset{}
    {
      refreshing, rerun, refreshDone, nextChannel, closes := false, false, 0, 0, multiset{};
    }

    ghost predicate Shows(s: State) reads this {
      (refreshing, rerun, refreshDone, nextChannel, closes)
      == (s.refreshing, s.rerun, s.refreshDone, s.nextChannel, s.closes)
    }

    method BeginSweep(ghost s: State) returns (done: nat, started: bool)
      requires Shows(s)
      modifies this
      ensures Shows(BeginRefresh(s))
      ensures started == !old(refreshing) && done == refreshDone
      ensures started ==> done in BeginRefresh(s).sweeps
    {
      if refreshing {
        return refreshDone, false;
      }
      done := nextChannel;
      nextChannel := nextChannel + 1;
      refreshing, refreshDone := true, done;
      return done, true;
    }

    method RequestRerun(ghost s: State)
      requires Shows(s)
      modifies this
      ensures Shows(MarkRerun(s))
    {
      if refreshing {
        rerun := true;
      }
    }

    /** The deferred section; closing a closed channel panics, so `done` must be open. */
    method FinishSweep(done: nat, ghost s: State) returns (again: bool)
      requires Shows(s) && closes[done] == 0
      modifies this
      ensures Shows(EndSweep(s, done))
      ensures EndSweep(s, done).respawning == s.respawning + if again then 1 else 0
    {
      refreshing := false;
      again := rerun;
      rerun := false;
      closes := closes + multiset{done};
    }
  }

  // ----------------------------------------------------------------- the invariant

  /** A collection that will see every write registered so far is under way to begin. */
  ghost predicate Due(s: State) {
    if s.refreshing then s.rerun || (s.refreshDone in s.sweeps && s.sweeps[s.refreshDone].Owned?)
    else s.tasks + s.respawning + s.spawning > 0
  }

  /** Some backend collection began after write `w`. */
  ghost predicate Swept(s: State, w: int) {
    exists i :: 0 <= i < |s.collections| && s.collections[i] >= w
  }

  ghost predicate Single(s: State) {
    && s.sweeps.Keys == (if s.refreshing then {s.refreshDone} else {})
    && (s.rerun ==> s.refreshing)
    && (forall ch :: ch in s.sweeps ==> ch < s.nextChannel && s.closes[ch] == 0)
    && (forall ch :: s.closes[ch] <= 1)
    && (forall ch :: ch >= s.nextChannel ==> s.closes[ch] == 0)
  }

  ghost predicate Accounted(s: State) {
    && (forall w :: w in s.unregistered ==> 1 <= w <= s.writes)
    && (Due(s) || forall w :: 1 <= w <= s.writes && w !in s.unregistered ==> Swept(s, w))
  }

  /** A collection beginning now comes after every write so far; none is ever forgotten. */
  lemma SweptGrows(s: State, after: State, w: int)
    requires Swept(s, w) && s.collections <= after.collections
    ensures Swept(after, w)
  {
    var i :| 0 <= i < |s.collections| && s.collections[i] >= w;
    assert after.collections[i] == s.collections[i];
  }

  lemma CollectionSweeps(s: State, after: State, w: int)
    requires after.collections == s.collections + [s.writes] && w <= s.writes
    ensures Swept(after, w)
  {
    assert after.collections[|s.collections|] == s.writes;
  }

  lemma StepKeepsSingle(s: State, step: Step)
    requires Single(s)
    ensures Single(Apply(s, step))
  {}

  lemma StepKeepsAccount(s: State, step: Step)
    requires Single(s) && Accounted(s)
    ensures Accounted(Apply(s, step))
  {
    hide Swept;
    var after := Apply(s, step);
    forall w | 1 <= w <= s.writes ensures Swept(s, w) ==> Swept(after, w)
                                  ensures after.collections != s.collections ==> Swept(after, w)
    {
      if after.collections != s.collections {
        CollectionSweeps(s, after, w);
      } else if Swept(s, w) {
        SweptGrows(s, after, w);
      }
    }
  }

  lemma {:induction false} RunKeeps(script: seq<Step>)
    ensures Single(Run(script)) && Accounted(Run(script))
  {
    if script != [] {
      hide Single, Accounted, Apply;
      RunKeeps(script[..|script| - 1]);
      StepKeepsSingle(Run(script[..|script| - 1]), script[|script| - 1]);
      StepKeepsAccount(Run(script[..|script| - 1]), script[|script| - 1]);
    }
  }

  // ------------------------------------------------------------------ main results

  /** In every interleaving at most one sweep owns the cache, exactly while `refreshing` is
      set and under the channel joiners wait on, and no done channel is closed twice. */
  lemma OneSweepAtATime(script: seq<Step>)
    ensures var s := Run(script);
            && |s.sweeps| == (if s.refreshing then 1 else 0)
            && (s.refreshing ==> s.refreshDone in s.sweeps && s.closes[s.refreshDone] == 0)
            && (forall ch :: s.closes[ch] <= 1)
  {
    RunKeeps(script);
    var s := Run(script);
    assert |s.sweeps| == |s.sweeps.Keys|;
  }

  /** No write is left without a later sweep: when nothing is running and no refresh is
      queued, a backend collection began after every write whose caller got to ask for one. */
  lemma NoWriteLeftBehind(script: seq<Step>, w: nat)
    ensures var s := Run(script);
            !s.refreshing && s.tasks == 0 && s.respawning == 0 && s.spawning == 0
            && 1 <= w <= s.writes && w !in s.unregistered
            ==> Swept(s, w)
  {
    RunKeeps(script);
  }

  /** The rerun flag is what makes it so: a sweep that ends without it has begun its
      collection after every registered write. */
  lemma QuietEndMeansCovered(script: seq<Step>, channel: nat, w: nat)
    ensures var s := Run(script);
            channel in s.sweeps && s.sweeps[channel].Collecting? && !s.rerun
            && 1 <= w <= s.writes && w !in s.unregistered
            ==> Swept(s, w)
  {
    RunKeeps(script);
  }

  // -------------------------------------------------------------- no rerun without a cause

  /** A write was registered, a refresh was asked for, or the settle timer fired. */
  predicate Asks(step: Step) { step.Register? || step.RequestSoon? || step.TimerFires? }

  ghost predicate AskedDuring(script: seq<Step>, j: nat, channel: nat) {
    j < |script| && Asks(script[j]) && Run(script[..j]).refreshing && Run(script[..j]).refreshDone == channel
  }

  lemma AskedStays(script: seq<Step>, step: Step, j: nat, channel: nat)
    requires AskedDuring(script, j, channel)
    ensures AskedDuring(script + [step], j, channel)
  {
    assert (script + [step])[..j] == script[..j];
  }

  /** The rerun flag is set only by a request that came during the sweep that is running. */
  lemma {:induction false} RerunHasCause(script: seq<Step>) returns (j: nat)
    ensures var s := Run(script); s.rerun ==> s.refreshing && AskedDuring(script, j, s.refreshDone)
  {
    j := 0;
    if script != [] {
      var before, step := script[..|script| - 1], script[|script| - 1];
      assert script == before + [step];
      RunKeeps(before);
      j := RerunHasCause(before);
      var s := Run(before);
      if s.rerun && AskedDuring(before, j, s.refreshDone) {
        AskedStays(before, step, j, s.refreshDone);
      }
      if !s.rerun && Run(script).rerun {
        j := |before|;
        assert script[..j] == before;
      }
    }
  }

  // ----------------------------------------------------------------------- conservation

  datatype Kind = Asked | Spawned | Settling | Fired | Ticked | Began | Rerun | Respawned

  /** What a step does, in the state it finds: it asks for a refresh, starts one, starts the settle
      timer with it, lets the timer fire, is a periodic tick, lets a refresh begin, ends a sweep with
      the rerun flag, or starts the rerun. */
  predicate Does(s: State, step: Step, kind: Kind) {
    match kind
    case Asked => (step.Register? && step.write in s.unregistered) || step.RequestSoon?
        || (step.TimerFires? && s.timers > 0)
    case Spawned => step.Spawn? && s.spawning > 0
    case Settling => step.Spawn? && step.settle && s.spawning > 0
    case Fired => step.TimerFires? && s.timers > 0
    case Ticked => step.Tick?
    case Began => step.TaskBegins? && s.tasks > 0
    case Rerun => step.SweepEnds? && step.channel in s.sweeps && s.sweeps[step.channel].Collecting? && s.rerun
    case Respawned => step.Respawn? && s.respawning > 0
  }

  function Tally(script: seq<Step>, kind: Kind): nat {
    if script == [] then 0
    else
      var before := script[..|script| - 1];
      Tally(before, kind) + if Does(Run(before), script[|script| - 1], kind) then 1 else 0
  }

  function One(b: bool): nat { if b then 1 else 0 }

  lemma ConservedStep(s: State, step: Step)
    ensures var after := Apply(s, step);
            && s.spawning + One(Does(s, step, Asked)) == after.spawning + One(Does(s, step, Spawned))
            && s.timers + One(Does(s, step, Settling)) == after.timers + One(Does(s, step, Fired))
            && s.respawning + One(Does(s, step, Rerun)) == after.respawning + One(Does(s, step, Respawned))
            && s.tasks + One(Does(s, step, Spawned)) + One(Does(s, step, Ticked)) + One(Does(s, step, Respawned))
               == after.tasks + One(Does(s, step, Began))
  {}

  lemma TallyStep(script: seq<Step>, kind: Kind)
    requires script != []
    ensures var before := script[..|script| - 1];
            Tally(script, kind) == Tally(before, kind) + One(Does(Run(before), script[|script| - 1], kind))
  {}

  /** Over every run nothing is lost or invented: every request and every settle timer that fired
      has started a refresh or is about to, every settle timer has fired or is running, every sweep
      that ended with the rerun flag has started the rerun or is about to, and every refresh that
      was started has begun or is queued. */
  lemma {:induction false} RefreshesAreConserved(script: seq<Step>)
    ensures var s := Run(script);
            && Tally(script, Asked) == Tally(script, Spawned) + s.spawning
            && Tally(script, Settling) == Tally(script, Fired) + s.timers
            && Tally(script, Rerun) == Tally(script, Respawned) + s.respawning
            && Tally(script, Spawned) + Tally(script, Ticked) + Tally(script, Respawned) == Tally(script,
                                                                                                  Began) + s.tasks
  {
    hide Apply, Does, Tally, One;
    if script == [] {
      NothingTallied();
    } else {
      var before := script[..|script| - 1];
      RefreshesAreConserved(before);
      ConservedStep(Run(before), script[|script| - 1]);
      forall kind: Kind
        ensures Tally(script, kind) == Tally(before, kind) + One(Does(Run(before), script[|script| - 1], kind))
      {
        TallyStep(script, kind);
      }
    }
  }

  lemma NothingTallied()
    ensures forall kind: Kind :: Tally([], kind) == 0
  {}
}
