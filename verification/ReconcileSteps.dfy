/** Reconciliation, one await at a time:
    `reconcile` of apps/api/src/reconciler/reconciler.service.ts with `update` and
    `provision` of apps/api/src/reconciler/lifecycle-manager.service.ts inlined.

    A step is what runs between two awaits.  Its outcome says whether the awaited call
    threw and, if not, what it answered; every call may throw. */
module ReconcileSteps {
  import opened Options

  type Hash = string

  datatype Status = Creating | Pending | Reconciling | Running | Errored | Stopped

  /** The instance row; `reconciled` says whether `lastReconcileAt` is set. */
  datatype Row = Row(status: Status, configHash: Option<Hash>, reconciled: bool, errorCount: nat)

  /** One instance: its row, if it exists, and how often config.apply and install have
      been called for it. */
  datatype World = World(row: Option<Row>, applies: nat, installs: nat)

  /** What generating a config for the instance gives: always the same hash if no random
      token goes into it, else a new one every time.  See ReconcilePlans. */
  datatype Plan = Plan(deterministic: bool, fixed: Hash)

  function Generated(plan: Plan, drawn: Hash): Hash {
    if plan.deterministic then plan.fixed else drawn
  }

  datatype Outcome = Threw | Answered(yes: bool, hash: Hash)

  /** The call a run is waiting for. */
  datatype Call =
    | Loading | Marking | LoggingStart | Preparing | Auditing
    | Probing | ReadingRemote | Syncing | Applying | Persisting | Recording | Linking
    | UpdateFailing
    | Resolving | ProvisionGenerating | Installing | Configuring | Starting | Connecting | Checking
    | Saving | Upserting | ProvisionFailing
    | WritingSkills | Refetching | Inspecting | Finishing | LoggingEnd
    | Failing | LoggingFail
    | Done(success: bool)

  predicate InOpening(call: Call) {
    call.Loading? || call.Marking? || call.LoggingStart? || call.Preparing? || call.Auditing?
  }

  predicate InUpdate(call: Call) {
    call.Probing? || call.ReadingRemote? || call.Syncing? || call.Applying?
    || call.Persisting? || call.Recording? || call.Linking? || call.UpdateFailing?
  }

  predicate InProvision(call: Call) {
    call.Resolving? || call.ProvisionGenerating? || call.Installing? || call.Configuring? || call.Starting?
    || call.Connecting? || call.Checking? || call.Saving? || call.Upserting? || call.ProvisionFailing?
  }

  predicate InClosing(call: Call) {
    call.WritingSkills? || call.Refetching? || call.Inspecting? || call.Finishing? || call.LoggingEnd?
    || call.Failing? || call.LoggingFail?
  }

  /** One call of `reconcile`: the row it loaded, the hash it wants, the hash `update`
      or `provision` generated, and whether the health probe failed. */
  datatype Run = Run(call: Call, loaded: Row, desired: Hash, made: Hash, probeFailed: bool)

  const BLANK := Row(Creating, None, false, 0)
  const FIRST := Run(Loading, BLANK, "", "", false)

  predicate IsNew(row: Row) {
    row.status == Creating || !(row.reconciled || row.configHash.Some?)
  }

  // ---- Where answers lead ------------------------------------------------------------------

  predicate IsWrite(call: Call) {
    call.Marking? || call.Syncing? || call.Recording? || call.UpdateFailing? || call.Saving?
    || call.ProvisionFailing? || call.Finishing? || call.Failing?
  }

  /** Calls whose answer may be no. */
  predicate Checked(call: Call) {
    call.Auditing? || call.Applying? || call.Installing? || call.Configuring?
  }

  function Held(world: World): Row {
    if world.row.Some? then world.row.value else BLANK
  }

  /** The call succeeds.  Reads and writes of the row fail once the row is gone. */
  predicate Good(call: Call, world: World, o: Outcome) {
    && o.Answered?
    && (Checked(call) ==> o.yes)
    && (IsWrite(call) || call.Loading? || call.Refetching? ==> world.row.Some?)
  }

  /** What the run remembers of an answer. */
  function Noted(plan: Plan, run: Run, world: World, o: Outcome): Run {
    match run.call
    case Loading => run.(loaded := Held(world))
    case Preparing => if o.Answered? then run.(desired := Generated(plan, o.hash)) else run
    // `update` generates the config again before its first await
    case Auditing => if o.Answered? then run.(made := Generated(plan, o.hash)) else run
    case ProvisionGenerating => if o.Answered? then run.(made := Generated(plan, o.hash)) else run
    case Probing => run.(probeFailed := run.probeFailed || o.Threw?)
    case _ => run
  }

  /** The call after a good answer, where the answer does not matter. */
  function Following(call: Call): Call {
    match call
    case Loading => Marking
    case Marking => LoggingStart
    case LoggingStart => Preparing
    case Preparing => Auditing
    case Auditing => Resolving
    // update
    case Probing => WritingSkills
    case ReadingRemote => Applying
    case Syncing => WritingSkills
    case Applying => Persisting
    case Persisting => Recording
    case Recording => Linking
    case Linking => WritingSkills
    case UpdateFailing => Resolving
    // provision
    case Resolving => ProvisionGenerating
    case ProvisionGenerating => Installing
    case Installing => Configuring
    case Configuring => Starting
    case Starting => Connecting
    case Connecting => Checking
    case Checking => Saving
    case Saving => Upserting
    case Upserting => WritingSkills
    case ProvisionFailing => Failing
    // the rest of reconcile
    case WritingSkills => Refetching
    case Refetching => Inspecting
    case Inspecting => Finishing
    case Finishing => LoggingEnd
    case LoggingEnd => Done(true)
    case Failing => LoggingFail
    case LoggingFail => Done(false)
    case Done(success) => Done(success)
  }

  /** An instance that exists is updated: by a probe alone if its config is on record,
      and without config.apply if the gateway has the config already. */
  function AfterGood(run: Run, o: Outcome): Call {
    if run.call.Auditing? && !IsNew(run.loaded) then
      if run.loaded.configHash == Some(run.made) then Probing else ReadingRemote
    else if run.call.ReadingRemote? && o.Answered? && o.hash == run.made then Syncing
    else Following(run.call)
  }

  function AfterBad(call: Call): Call {
    match call
    // a failed probe means: provision again; skills and persistence may fail
    case Probing => Resolving
    case Persisting => Recording
    case WritingSkills => Refetching
    case Failing => Done(false)
    case LoggingFail => Done(false)
    case Done(success) => Done(success)
    case _ =>
      if InUpdate(call) && !call.UpdateFailing? then UpdateFailing
      else if InProvision(call) && !call.Resolving? && !call.ProvisionFailing? then ProvisionFailing
      else Failing
  }

  /** The row a write leaves. */
  function NewRow(call: Call, made: Hash, desired: Hash, row: Row): Row {
    match call
    case Marking => row.(status := Reconciling)
    case Syncing => row.(configHash := Some(made))
    case Recording => row.(configHash := Some(made), reconciled := true)
    case UpdateFailing => row.(errorCount := row.errorCount + 1)
    case Saving => Row(Running, Some(made), true, 0)
    case ProvisionFailing => row.(status := Errored, errorCount := row.errorCount + 1)
    case Finishing => Row(Running, Some(desired), true, 0)
    case Failing => row.(status := Errored, errorCount := row.errorCount + 1, reconciled := true)
    case _ => row
  }

  function Touched(run: Run, world: World, o: Outcome): World {
    if IsWrite(run.call) && Good(run.call, world, o) then
      world.(row := Some(NewRow(run.call, run.made, run.desired, Held(world))))
    else if run.call.Applying? then world.(applies := world.applies + 1)
    else if run.call.Installing? then world.(installs := world.installs + 1)
    else world
  }

  function Step(plan: Plan, run: Run, world: World, o: Outcome): (Run, World) {
    var noted := Noted(plan, run, world, o);
    (noted.(call := if Good(run.call, world, o) then AfterGood(noted, o) else AfterBad(run.call)),
     Touched(run, world, o))
  }

  function Execute(plan: Plan, run: Run, world: World, outcomes: seq<Outcome>): (Run, World) {
    if outcomes == [] then (run, world)
    else
      var (r, w) := Execute(plan, run, world, outcomes[..|outcomes| - 1]);
      Step(plan, r, w, outcomes[|outcomes| - 1])
  }

  /** How many steps a run can still take. */
  function Left(call: Call): nat {
    match call
    case Loading => 31 case Marking => 30 case LoggingStart => 29 case Preparing => 28 case Auditing => 27
    case Probing => 25 case ReadingRemote => 25 case Syncing => 24
    case Applying => 24 case Persisting => 23 case Recording => 22 case Linking => 21 case UpdateFailing => 20
    case Resolving => 19 case ProvisionGenerating => 18 case Installing => 17 case Configuring => 16
    case Starting => 15 case Connecting => 14 case Checking => 13 case Saving => 12 case Upserting => 11
    case ProvisionFailing => 10
    case WritingSkills => 8 case Refetching => 7 case Inspecting => 6 case Finishing => 5 case LoggingEnd => 4
    case Failing => 3 case LoggingFail => 2 case Done(_) => 0
  }

  lemma OuterStepsRunOut(plan: Plan, run: Run, world: World, o: Outcome)
    requires InOpening(run.call) || InClosing(run.call)
    ensures Left(Step(plan, run, world, o).0.call) < Left(run.call)
  {
  }

  lemma UpdateStepsRunOut(plan: Plan, run: Run, world: World, o: Outcome)
    requires InUpdate(run.call)
    ensures Left(Step(plan, run, world, o).0.call) < Left(run.call)
  {
  }

  lemma ProvisionStepsRunOut(plan: Plan, run: Run, world: World, o: Outcome)
    requires InProvision(run.call)
    ensures Left(Step(plan, run, world, o).0.call) < Left(run.call)
  {
  }

  lemma StepsRunOut(plan: Plan, run: Run, world: World, o: Outcome)
    ensures run.call.Done? || Left(Step(plan, run, world, o).0.call) < Left(run.call)
  {
    if InUpdate(run.call) {
      UpdateStepsRunOut(plan, run, world, o);
    } else if InProvision(run.call) {
      ProvisionStepsRunOut(plan, run, world, o);
    } else if !run.call.Done? {
      OuterStepsRunOut(plan, run, world, o);
    }
  }

  lemma DoneStays(plan: Plan, run: Run, world: World, o: Outcome)
    requires run.call.Done?
    ensures Step(plan, run, world, o).0.call == run.call
  {
  }

  /** Whatever throws, a run is over after at most 31 answers. */
  lemma {:induction false} RunsEnd(plan: Plan, run: Run, world: World, outcomes: seq<Outcome>)
    requires |outcomes| >= Left(run.call)
    ensures Execute(plan, run, world, outcomes).0.call.Done?
  {
    Budget(plan, run, world, outcomes);
    LeftNothing(Execute(plan, run, world, outcomes).0.call);
  }

  /** Within its budget: over, or with no more steps left than it has not used. */
  predicate Within(run: Run, start: Run, used: nat) {
    run.call.Done? || Left(run.call) + used <= Left(start.call)
  }

  lemma LeftNothing(call: Call)
    ensures Left(call) == 0 <==> call.Done?
  {
  }

  lemma {:induction false} Budget(plan: Plan, run: Run, world: World, outcomes: seq<Outcome>)
    ensures Within(Execute(plan, run, world, outcomes).0, run, |outcomes|)
  {
    if outcomes != [] {
      var init, last := outcomes[..|outcomes| - 1], outcomes[|outcomes| - 1];
      Budget(plan, run, world, init);
      var (r, w) := Execute(plan, run, world, init);
      WithinNext(plan, r, w, last, run, |init|);
    }
  }

  lemma WithinNext(plan: Plan, r: Run, w: World, o: Outcome, start: Run, used: nat)
    requires Within(r, start, used)
    ensures Within(Step(plan, r, w, o).0, start, used + 1)
  {
    if r.call.Done? { DoneStays(plan, r, w, o); } else { StepsRunOut(plan, r, w, o); }
  }
}
