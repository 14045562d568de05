/** All interleavings of reconciliations: the in-progress guard, and convergence. */
module ReconcileSafety {
  import opened Options
  import opened ReconcileSteps

  type Id = string

  datatype Live = Live(id: Id, run: Run)

  /** `settled` remembers which instances some reconcile has succeeded for. */
  datatype Service = Service(inProgress: set<Id>, runs: map<nat, Live>, next: nat,
                             worlds: map<Id, World>, settled: set<Id>)

  /** A caller asks for a reconcile; a waiting run gets its answer; an instance is
      stopped; or the process restarts, losing all runs. */
  datatype Event = Request(id: Id) | Resume(handle: nat, o: Outcome) | Stop(id: Id) | Restart

  type Plans = Id -> Plan

  function WorldOf(s: Service, id: Id): World {
    if id in s.worlds then s.worlds[id] else World(None, 0, 0)
  }

  function StoppedWorld(world: World): World {
    if world.row.Some? then world.(row := Some(world.row.value.(status := Stopped))) else world
  }

  /** A run goes on waiting, or ends and leaves the guard. */
  function Moved(s: Service, h: nat, run: Run, world: World): Service
    requires h in s.runs
  {
    var id := s.runs[h].id;
    var moved := s.(worlds := s.worlds[id := world]);
    if run.call.Done?
    then moved.(runs := s.runs - {h}, inProgress := s.inProgress - {id},
                settled := if run.call.success then s.settled + {id} else s.settled)
    else moved.(runs := s.runs[h := Live(id, run)])
  }

  function Next(plans: Plans, s: Service, e: Event): Service {
    match e
    case Request(id) =>
      if id in s.inProgress then s
      else s.(inProgress := s.inProgress + {id}, runs := s.runs[s.next := Live(id, FIRST)], next := s.next + 1)
    case Resume(h, o) =>
      if h !in s.runs then s
      else
        var live := s.runs[h];
        var (run, world) := Step(plans(live.id), live.run, WorldOf(s, live.id), o);
        Moved(s, h, run, world)
    case Stop(id) => s.(worlds := s.worlds[id := StoppedWorld(WorldOf(s, id))])
    case Restart => s.(runs := map[], inProgress := {})
  }

  function After(plans: Plans, s: Service, events: seq<Event>): Service {
    if events == [] then s
    else Next(plans, After(plans, s, events[..|events| - 1]), events[|events| - 1])
  }

  // ---- The guard ------------------------------------------------------------------------

  /** The guard set holds exactly the instances with a live run, one run each. */
  ghost predicate Guarded(s: Service) {
    && (forall h | h in s.runs :: h < s.next && !s.runs[h].run.call.Done? && s.runs[h].id in s.inProgress)
    && (forall h, k | h in s.runs && k in s.runs && s.runs[h].id == s.runs[k].id :: h == k)
    && (forall id | id in s.inProgress :: exists h :: h in s.runs && s.runs[h].id == id)
  }

  lemma {:induction false} MovedGuarded(s: Service, h: nat, run: Run, world: World)
    requires Guarded(s) && h in s.runs
    ensures Guarded(Moved(s, h, run, world))
  {
    var t := Moved(s, h, run, world);
    forall x | x in t.inProgress ensures exists k :: k in t.runs && t.runs[k].id == x {
      var k :| k in s.runs && s.runs[k].id == x;
      assert k in t.runs && t.runs[k].id == x;
    }
  }

  lemma RequestGuarded(plans: Plans, s: Service, id: Id)
    requires Guarded(s)
    ensures Guarded(Next(plans, s, Request(id)))
  {
    var t := Next(plans, s, Request(id));
    if id !in s.inProgress {
      forall x | x in t.inProgress ensures exists h :: h in t.runs && t.runs[h].id == x {
        if x == id {
          assert t.runs[s.next].id == id;
        } else {
          var h :| h in s.runs && s.runs[h].id == x;
          assert t.runs[h].id == x;
        }
      }
    }
  }

  lemma GuardKept(plans: Plans, s: Service, e: Event)
    requires Guarded(s)
    ensures Guarded(Next(plans, s, e))
  {
    match e
    case Request(id) => RequestGuarded(plans, s, id);
    case Resume(h, o) =>
      if h in s.runs {
        var (run, world) := Step(plans(s.runs[h].id), s.runs[h].run, WorldOf(s, s.runs[h].id), o);
        MovedGuarded(s, h, run, world);
      }
    case Stop(_) =>
    case Restart =>
  }

  /** In every state reachable by any interleaving, `reconcileInProgress` is exactly
      the set of instances with a live run, and none has two. */
  lemma {:induction false} GuardAlways(plans: Plans, s: Service, events: seq<Event>)
    requires Guarded(s)
    ensures Guarded(After(plans, s, events))
  {
    if events != [] {
      GuardAlways(plans, s, events[..|events| - 1]);
      GuardKept(plans, After(plans, s, events[..|events| - 1]), events[|events| - 1]);
    }
  }

  // ---- What a single run keeps ---------------------------------------------------------------

  /** Calls made after the desired config was generated, unless failing. */
  predicate Prepared(call: Call) {
    call.Auditing? || InUpdate(call) || InProvision(call)
    || call.WritingSkills? || call.Refetching? || call.Inspecting? || call.Finishing? || call.LoggingEnd?
  }

  /** With a deterministic plan the run wants the fixed config, and once it logs success
      the row says so. */
  predicate RunOk(plan: Plan, run: Run, world: World) {
    && (plan.deterministic && Prepared(run.call) ==> run.desired == plan.fixed)
    && (run.call.LoggingEnd? ==> world.row.Some? && Recorded(world.row.value, run.desired))
  }

  /** An instance that counts as existing, with the given config on record. */
  predicate Recorded(row: Row, hash: Hash) {
    row.configHash == Some(hash) && row.reconciled && row.status != Creating
  }

  predicate SettledWorld(plan: Plan, world: World) {
    world.row.Some? && Recorded(world.row.value, plan.fixed)
  }

  /** A run on a settled instance: it has loaded a settled row, it is not talking to
      the gateway about config, and it provisions only because its probe failed. */
  predicate SettledRun(plan: Plan, run: Run) {
    && (InOpening(run.call) && !run.call.Loading? ==> Recorded(run.loaded, plan.fixed))
    && (InUpdate(run.call) ==> run.call.Probing?)
    && (InProvision(run.call) ==> run.probeFailed)
    && (InProvision(run.call) && !run.call.Resolving? && !run.call.ProvisionGenerating? && !run.call.ProvisionFailing?
        ==> run.made == plan.fixed)
  }

  predicate RunOkStep(plan: Plan, r: Run, w: World) {
    RunOk(plan, r, w) && (r.call == Done(true) && plan.deterministic ==> SettledWorld(plan, w))
  }

  lemma OuterRunOk(plan: Plan, run: Run, world: World, o: Outcome)
    requires (InOpening(run.call) || InClosing(run.call)) && RunOk(plan, run, world)
    ensures RunOkStep(plan, Step(plan, run, world, o).0, Step(plan, run, world, o).1)
  {
  }

  lemma InnerRunOk(plan: Plan, run: Run, world: World, o: Outcome)
    requires (InUpdate(run.call) || InProvision(run.call)) && RunOk(plan, run, world)
    ensures RunOkStep(plan, Step(plan, run, world, o).0, Step(plan, run, world, o).1)
  {
  }

  lemma RunOkKept(plan: Plan, run: Run, world: World, o: Outcome)
    requires !run.call.Done? && RunOk(plan, run, world)
    ensures RunOkStep(plan, Step(plan, run, world, o).0, Step(plan, run, world, o).1)
  {
    if InUpdate(run.call) || InProvision(run.call) {
      InnerRunOk(plan, run, world, o);
    } else {
      OuterRunOk(plan, run, world, o);
    }
  }

  /** A step on a settled instance keeps it settled and calls no config.apply, and
      installs only for a run whose probe has failed. */
  predicate SettledStep(plan: Plan, run: Run, world: World, o: Outcome, r: Run, w: World) {
    && SettledWorld(plan, w) && SettledRun(plan, r)
    && w.applies == world.applies
    && (run.probeFailed || w.installs == world.installs)
    && (r.probeFailed ==> run.probeFailed || (run.call.Probing? && o.Threw?))
  }

  lemma {:induction false} OuterSettled(plan: Plan, run: Run, world: World, o: Outcome)
    requires (InOpening(run.call) || InClosing(run.call)) && plan.deterministic && RunOk(plan, run, world)
    requires SettledWorld(plan, world) && SettledRun(plan, run)
    ensures SettledStep(plan, run, world, o, Step(plan, run, world, o).0, Step(plan, run, world, o).1)
  {
  }

  lemma InnerSettled(plan: Plan, run: Run, world: World, o: Outcome)
    requires (InUpdate(run.call) || InProvision(run.call)) && plan.deterministic && RunOk(plan, run, world)
    requires SettledWorld(plan, world) && SettledRun(plan, run)
    ensures SettledStep(plan, run, world, o, Step(plan, run, world, o).0, Step(plan, run, world, o).1)
  {
  }

  lemma {:induction false} SettledKept(plan: Plan, run: Run, world: World, o: Outcome)
    requires plan.deterministic && !run.call.Done? && RunOk(plan, run, world)
    requires SettledWorld(plan, world) && SettledRun(plan, run)
    ensures SettledStep(plan, run, world, o, Step(plan, run, world, o).0, Step(plan, run, world, o).1)
  {
    if InUpdate(run.call) || InProvision(run.call) {
      InnerSettled(plan, run, world, o);
    } else {
      OuterSettled(plan, run, world, o);
    }
  }

  // ---- Convergence -------------------------------------------------------------------------------

  predicate RunSteady(plans: Plans, s: Service, h: nat)
    requires h in s.runs
  {
    var live := s.runs[h];
    && RunOk(plans(live.id), live.run, WorldOf(s, live.id))
    && (live.id in s.settled && plans(live.id).deterministic ==> SettledRun(plans(live.id), live.run))
  }

  predicate IdSteady(plans: Plans, s: Service, id: Id) {
    id in s.settled && plans(id).deterministic ==> SettledWorld(plans(id), WorldOf(s, id))
  }

  ghost predicate Steady(plans: Plans, s: Service) {
    && Guarded(s)
    && (forall h | h in s.runs :: RunSteady(plans, s, h))
    && (forall id :: IdSteady(plans, s, id))
  }

  lemma MovedSteady(plans: Plans, s: Service, h: nat, o: Outcome)
    requires Steady(plans, s) && h in s.runs
    ensures Steady(plans, Next(plans, s, Resume(h, o)))
  {
    var live := s.runs[h];
    var plan, world := plans(live.id), WorldOf(s, live.id);
    assert RunSteady(plans, s, h) && IdSteady(plans, s, live.id);
    var (run', world') := Step(plan, live.run, world, o);
    RunOkKept(plan, live.run, world, o);
    if live.id in s.settled && plan.deterministic { SettledKept(plan, live.run, world, o); }
    MovedRuns(plans, s, h, run', world');
  }

  lemma {:induction false} MovedRuns(plans: Plans, s: Service, h: nat, run: Run, world: World)
    requires Steady(plans, s) && h in s.runs
    requires RunOk(plans(s.runs[h].id), run, world)
    requires run.call == Done(true) && plans(s.runs[h].id).deterministic ==> SettledWorld(plans(s.runs[h].id), world)
    requires s.runs[h].id in s.settled && plans(s.runs[h].id).deterministic
             ==> SettledWorld(plans(s.runs[h].id), world) && SettledRun(plans(s.runs[h].id), run)
    ensures Steady(plans, Moved(s, h, run, world))
  {
    MovedGuarded(s, h, run, world);
    var t := Moved(s, h, run, world);
    forall k | k in t.runs ensures RunSteady(plans, t, k) {
      MovedRun(plans, s, h, run, world, k);
    }
    forall id ensures IdSteady(plans, t, id) {
      assert IdSteady(plans, s, id);
      SettledMoved(s, h, run, world);
    }
  }

  lemma MovedRun(plans: Plans, s: Service, h: nat, run: Run, world: World, k: nat)
    requires Steady(plans, s) && h in s.runs
    requires RunOk(plans(s.runs[h].id), run, world)
    requires run.call == Done(true) && plans(s.runs[h].id).deterministic ==> SettledWorld(plans(s.runs[h].id), world)
    requires s.runs[h].id in s.settled && plans(s.runs[h].id).deterministic
             ==> SettledWorld(plans(s.runs[h].id), world) && SettledRun(plans(s.runs[h].id), run)
    requires k in Moved(s, h, run, world).runs
    ensures RunSteady(plans, Moved(s, h, run, world), k)
  {
    SettledMoved(s, h, run, world);
    if k != h {
      assert RunSteady(plans, s, k);
      assert s.runs[k].id != s.runs[h].id;
    }
  }

  lemma RequestSteady(plans: Plans, s: Service, id: Id)
    requires Steady(plans, s)
    ensures Steady(plans, Next(plans, s, Request(id)))
  {
    RequestGuarded(plans, s, id);
    var t := Next(plans, s, Request(id));
    forall h | h in t.runs ensures RunSteady(plans, t, h) {
      RequestRun(plans, s, id, h);
    }
    forall x ensures IdSteady(plans, t, x) {
      assert IdSteady(plans, s, x);
    }
  }

  lemma RequestRun(plans: Plans, s: Service, id: Id, h: nat)
    requires Steady(plans, s) && h in Next(plans, s, Request(id)).runs
    ensures RunSteady(plans, Next(plans, s, Request(id)), h)
  {
    if h in s.runs { assert RunSteady(plans, s, h); }
  }

  lemma StopSteady(plans: Plans, s: Service, id: Id)
    requires Steady(plans, s)
    ensures Steady(plans, Next(plans, s, Stop(id)))
  {
    var t := Next(plans, s, Stop(id));
    GuardKept(plans, s, Stop(id));
    assert forall x :: WorldOf(t, x) == if x == id then StoppedWorld(WorldOf(s, x)) else WorldOf(s, x);
    forall h | h in t.runs ensures RunSteady(plans, t, h) {
      assert RunSteady(plans, s, h);
    }
    forall x ensures IdSteady(plans, t, x) {
      assert IdSteady(plans, s, x);
    }
  }

  lemma EventSteady(plans: Plans, s: Service, e: Event)
    requires Steady(plans, s)
    ensures Steady(plans, Next(plans, s, e))
  {
    match e
    case Request(id) => RequestSteady(plans, s, id);
    case Resume(h, o) => if h in s.runs { MovedSteady(plans, s, h, o); }
    case Stop(id) => StopSteady(plans, s, id);
    case Restart =>
      forall id ensures IdSteady(plans, Next(plans, s, e), id) {
        assert IdSteady(plans, s, id);
      }
  }

  lemma {:induction false} SteadyAlways(plans: Plans, s: Service, events: seq<Event>)
    requires Steady(plans, s)
    ensures Steady(plans, After(plans, s, events))
  {
    if events != [] {
      SteadyAlways(plans, s, events[..|events| - 1]);
      EventSteady(plans, After(plans, s, events[..|events| - 1]), events[|events| - 1]);
    }
  }

  /** The gateway fails to answer the health probe of a run on this instance. */
  predicate ProbeFails(s: Service, id: Id, e: Event) {
    e.Resume? && e.handle in s.runs && s.runs[e.handle].id == id
    && s.runs[e.handle].run.call.Probing? && e.o.Threw?
  }

  ghost predicate Calm(s: Service, id: Id) {
    forall h | h in s.runs && s.runs[h].id == id :: !s.runs[h].run.probeFailed
  }

  ghost predicate ProbesAnswered(plans: Plans, s: Service, id: Id, events: seq<Event>) {
    forall i | 0 <= i < |events| :: !ProbeFails(After(plans, s, events[..i]), id, events[i])
  }

  /** One event on a settled instance: no config.apply; no install by a run whose
      probe was answered. */
  lemma SettledEvent(plans: Plans, s: Service, id: Id, e: Event)
    requires Steady(plans, s) && id in s.settled && plans(id).deterministic
    requires Calm(s, id) && !ProbeFails(s, id, e)
    ensures var t := Next(plans, s, e);
            && id in t.settled && Calm(t, id)
            && WorldOf(t, id).applies == WorldOf(s, id).applies
            && WorldOf(t, id).installs == WorldOf(s, id).installs
  {
    if e.Resume? && e.handle in s.runs {
      var live := s.runs[e.handle];
      assert RunSteady(plans, s, e.handle) && IdSteady(plans, s, id);
      if live.id == id {
        SettledKept(plans(id), live.run, WorldOf(s, id), e.o);
        var (run, world) := Step(plans(id), live.run, WorldOf(s, id), e.o);
        SettledMoved(s, e.handle, run, world);
      } else {
        var (run, world) := Step(plans(live.id), live.run, WorldOf(s, live.id), e.o);
        SettledMoved(s, e.handle, run, world);
        assert WorldOf(Moved(s, e.handle, run, world), id) == WorldOf(s, id);
      }
    }
  }

  lemma SettledMoved(s: Service, h: nat, run: Run, world: World)
    requires h in s.runs
    ensures var t := Moved(s, h, run, world);
            && s.settled <= t.settled <= s.settled + {s.runs[h].id} && WorldOf(t, s.runs[h].id) == world
            && (forall id | id != s.runs[h].id :: WorldOf(t, id) == WorldOf(s, id))
            && (forall id | Calm(s, id) && (id == s.runs[h].id ==> !run.probeFailed) :: Calm(t, id))
  {
  }

  /** Once a reconcile has succeeded for an instance whose config is deterministic, and as
      long as the gateway answers the probes of its runs, no run applies a config or
      installs, and the recorded hash stays what it is, however runs, stops and restarts
      interleave and whichever other call throws. */
  lemma {:induction false} Converged(plans: Plans, s: Service, id: Id, events: seq<Event>)
    requires Steady(plans, s) && id in s.settled && plans(id).deterministic && Calm(s, id)
    requires ProbesAnswered(plans, s, id, events)
    ensures var t := After(plans, s, events);
            && id in t.settled && Calm(t, id) && Steady(plans, t)
            && WorldOf(t, id).applies == WorldOf(s, id).applies
            && WorldOf(t, id).installs == WorldOf(s, id).installs
            && WorldOf(s, id).row.Some? && WorldOf(t, id).row.Some?
            && WorldOf(t, id).row.value.configHash == WorldOf(s, id).row.value.configHash == Some(plans(id).fixed)
  {
    if events != [] {
      var init, e := events[..|events| - 1], events[|events| - 1];
      assert forall i | 0 <= i < |init| :: events[..i] == init[..i] && events[i] == init[i];
      Converged(plans, s, id, init);
      assert !ProbeFails(After(plans, s, events[..|init|]), id, events[|init|]);
      SettledEvent(plans, After(plans, s, init), id, e);
      assert IdSteady(plans, s, id);
      SteadyAlways(plans, s, events);
      assert IdSteady(plans, After(plans, s, events), id);
    }
    assert IdSteady(plans, s, id);
  }

  /** A service that has just started: nothing is running, and nothing has succeeded. */
  function Fresh(worlds: map<Id, World>): Service {
    Service({}, map[], 0, worlds, {})
  }

  /** From a fresh start: whatever happened before, once a reconcile has succeeded for an
      instance with a deterministic config and no run with a failed probe is left, there is nothing
      more to apply or install. */
  lemma {:induction false} ConvergesFromStart(plans: Plans, worlds: map<Id, World>, before: seq<Event>,
                                                later: seq<Event>, id: Id)
    requires var s := After(plans, Fresh(worlds), before);
             id in s.settled && plans(id).deterministic && Calm(s, id) && ProbesAnswered(plans, s, id, later)
    ensures var s := After(plans, Fresh(worlds), before);
            var t := After(plans, s, later);
            && WorldOf(t, id).applies == WorldOf(s, id).applies && WorldOf(t, id).installs == WorldOf(s, id).installs
            && WorldOf(t, id).row.Some? && WorldOf(t, id).row.value.configHash == Some(plans(id).fixed)
  {
    assert Steady(plans, Fresh(worlds)) by {
      assert forall x :: IdSteady(plans, Fresh(worlds), x);
    }
    SteadyAlways(plans, Fresh(worlds), before);
    Converged(plans, After(plans, Fresh(worlds), before), id, later);
  }
}
