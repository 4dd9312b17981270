/** One scheduler tick as a transaction: _run_tick of
    backend/app/domain/scheduler.py around advance_simulation,
    run_scheduled_tick, sync_reporting_layer and evaluate_exceptions. */
module Scheduler {
  import opened ReplenishmentPolicy
  import opened FlowTables
  import opened FlowSpec
  import opened ReportingSync
  import opened ExceptionFlags
  import opened ExceptionEngine

  datatype TickStatus = Success | Failed
  datatype TickRow = TickRow(day: int, status: TickStatus)

  /** The committed tables. */
  datatype Db = Db(
    clock: int, running: bool, world: World, reporting: Reporting, flags: seq<Flag>, ticks: seq<TickRow>)

  datatype Step = Advance | FlowPasses | TickRowWrite | SyncStep | EvaluateStep | KpiStep | StaleStep | SweepStep | CommitStep

  /** Where this tick fails, if anywhere.  A failing tick-row write or commit is
      a database error.  evaluated: categories finished before a Python error
      in the evaluation step. */
  datatype Fault = NoFault | Fault(step: Step, database: bool, evaluated: nat)

  /** Everything one tick meets; passes is the flow under this tick's draws. */
  datatype Setting = Setting(
    inputs: TickInputs, passes: (World, int) -> Option<World>, lagDays: nat, rules: Rules, fault: Fault,
    failedRowWritten: bool)

  /** passes is FlowSpec.Tick itself.  The trigger keeps that fact folded in
      proofs about runs, which do not look inside a tick. */
  ghost predicate RealFlow(env: Setting) {
    forall w: World, day: int {:trigger Tick(w, day, env.inputs)} :: env.passes(w, day) == Tick(w, day, env.inputs)
  }

  type TickEnv = env: Setting | RealFlow(env) witness EnvFor(NO_DRAWS, 0, Rules(map[], Supply([], map[])), NoFault, true)

  const NO_DRAWS := TickInputs([], [], _ => Full, _ => None, (_, _) => 1, [], _ => None, _ => 0, [])

  /** Every choice of draws, rules and fault makes an environment. */
  function EnvFor(inputs: TickInputs, lagDays: nat, rules: Rules, fault: Fault, failedRowWritten: bool): (env: Setting)
    ensures RealFlow(env) && env.inputs == inputs && env.lagDays == lagDays && env.rules == rules && env.fault == fault
    ensures env.failedRowWritten == failedRowWritten
  {
    Setting(inputs, (w: World, day: int) => Tick(w, day, inputs), lagDays, rules, fault, failedRowWritten)
  }

  predicate FailsAt(env: TickEnv, step: Step) {
    env.fault.Fault? && env.fault.step == step
  }

  // ---- What one tick commits ----------------------------------------------------------

  function Synced(db: Db, env: TickEnv): Db {
    db.(reporting := Sync(db.reporting, db.world.snapshots, TargetSyncDate(db.clock, env.lagDays)))
  }

  function Evaluated(db: Db, env: TickEnv, n: nat): Db
    requires n <= |CATEGORIES|
  {
    db.(flags := Evaluate(db.flags, n, db.world, db.reporting, db.clock, env.rules))
  }

  /** The categories evaluated before the evaluation step fails, or all of them. */
  function Finished(env: TickEnv): (n: nat)
    ensures n <= |CATEGORIES|
  {
    if FailsAt(env, EvaluateStep) && env.fault.evaluated < |CATEGORIES| then env.fault.evaluated else |CATEGORIES|
  }

  /** The derived layers after a flow that succeeded; a Python error in a step
      keeps what the earlier steps did. */
  function AfterFlow(db: Db, env: TickEnv): Db {
    if FailsAt(env, SyncStep) then db else Evaluated(Synced(db, env), env, Finished(env))
  }

  /** The seven passes of the day; None when they raise. */
  function FlowOutcome(w: World, day: int, env: TickEnv): Option<World> {
    if FailsAt(env, FlowPasses) then None else env.passes(w, day)
  }

  /** Errors after the flow's passes that leave nothing of the tick behind. */
  predicate LosesEverything(env: TickEnv) {
    && env.fault.Fault?
    && (|| env.fault.step == TickRowWrite || env.fault.step == CommitStep
        || (env.fault.step != FlowPasses && env.fault.database))
  }

  /** What a tick commits, given what its flow's passes would do. */
  function Committed(db: Db, env: TickEnv, outcome: Option<World>): Db {
    if !db.running || FailsAt(env, Advance) then db
    else match outcome
         case None =>
           if FailsAt(env, CommitStep) || !env.failedRowWritten then db
           else db.(ticks := db.ticks + [TickRow(db.clock + 1, Failed)])
         case Some(w) =>
           if LosesEverything(env) then db else AfterFlow(Ticked(db, w), env)
  }

  /** The database right after a flow that succeeded. */
  function Ticked(db: Db, w: World): Db {
    db.(clock := db.clock + 1, world := w, ticks := db.ticks + [TickRow(db.clock + 1, Success)])
  }

  function RunTick(db: Db, env: TickEnv): Db {
    Committed(db, env, FlowOutcome(db.world, db.clock + 1, env))
  }

  datatype Event = TickEvent(env: TickEnv) | Pause | Resume

  function Apply(db: Db, event: Event): Db {
    match event
    case TickEvent(env) => RunTick(db, env)
    case Pause => db.(running := false)
    case Resume => db.(running := true)
  }

  function Run(db: Db, events: seq<Event>): Db {
    if events == [] then db else Apply(Run(db, events[..|events| - 1]), events[|events| - 1])
  }

  function Initial(start: int): Db {
    Db(start, true, EMPTY_WORLD, NEVER_SYNCED, [], [])
  }
}
