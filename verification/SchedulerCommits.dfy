/** Exactly when a tick commits its date, and what it then leaves. */
module SchedulerCommits {
  import opened ReplenishmentPolicy
  import opened FlowTables
  import opened FlowSpec
  import opened ReportingSync
  import opened ExceptionFlags
  import opened ExceptionEngine
  import opened Scheduler
  import opened SchedulerJob
  import opened SchedulerRuns

  /** The only error, if there is one, is a Python error after the tick's
      SUCCESS row has been written. */
  predicate FaultSpares(env: TickEnv) {
    env.fault.Fault? ==>
      && !env.fault.database
      && (|| env.fault.step == SyncStep || env.fault.step == EvaluateStep || env.fault.step == KpiStep
          || env.fault.step == StaleStep || env.fault.step == SweepStep)
  }

  /** Running, the seven passes finish, and the fault spares the date. */
  predicate CommitsDate(db: Db, env: TickEnv) {
    db.running && FlowOutcome(db.world, db.clock + 1, env).Some? && FaultSpares(env)
  }

  /** Running and past the clock step, but the passes do not finish, and the
      FAILED row is written and committed. */
  predicate RecordsFailure(db: Db, env: TickEnv, raised: bool) {
    && db.running && raised && env.failedRowWritten
    && !(env.fault.Fault? && (env.fault.step == Advance || env.fault.step == CommitStep))
  }

  /** The derived layers after a committed date: all of them, or those that ran
      before the Python error. */
  predicate DerivedAs(db: Db, after: Db, env: TickEnv) {
    if env.fault.Fault? && env.fault.step == SyncStep then after.reporting == db.reporting && after.flags == db.flags
    else
      && after.reporting == Sync(db.reporting, after.world.snapshots, after.clock - env.lagDays)
      && if env.fault.Fault? && env.fault.step == EvaluateStep && env.fault.evaluated < 6
         then after.flags == Evaluate(db.flags, env.fault.evaluated, after.world, after.reporting, after.clock, env.rules)
         else after.flags == EvaluateExceptions(db.flags, after.world, after.reporting, after.clock, env.rules)
  }

  predicate DateCommitted(db: Db, after: Db, env: TickEnv, world: World) {
    && after.clock == db.clock + 1 && after.running && after.world == world
    && after.ticks == db.ticks + [TickRow(db.clock + 1, Success)]
    && DerivedAs(db, after, env)
  }

  /** All a tick can leave, given what its flow's passes did. */
  predicate Leaves(db: Db, after: Db, env: TickEnv, outcome: Option<World>) {
    if db.running && outcome.Some? && FaultSpares(env) then DateCommitted(db, after, env, outcome.value)
    else if RecordsFailure(db, env, outcome.None?) then after == db.(ticks := db.ticks + [TickRow(db.clock + 1, Failed)])
    else after == db
  }

  lemma CommittedLeavesThat(db: Db, env: TickEnv, outcome: Option<World>)
    requires env.fault.Fault? && env.fault.step == FlowPasses ==> outcome.None?
    ensures Leaves(db, Committed(db, env, outcome), env, outcome)
  {
  }

  /** The passes raise where the fault says so, and otherwise do what the
      flow's own tick does. */
  lemma OutcomeIsTick(w: World, day: int, env: TickEnv)
    ensures FlowOutcome(w, day, env) ==
            if env.fault.Fault? && env.fault.step == FlowPasses then None else Tick(w, day, env.inputs)
  {
  }

  /** A tick commits its date exactly when the condition holds; it then leaves
      the flow's own tables, one SUCCESS row and the derived layers.  Otherwise
      it leaves the database alone, but for the FAILED row of a flow that raised. */
  lemma CommitsDateIff(db: Db, after: Db, env: TickEnv, outcome: Option<World>)
    requires after == RunTick(db, env) && outcome == FlowOutcome(db.world, db.clock + 1, env)
    ensures after.clock == db.clock + 1 <==> CommitsDate(db, env)
    ensures CommitsDate(db, env) ==> outcome.Some? && DateCommitted(db, after, env, outcome.value)
    ensures !CommitsDate(db, env) ==>
      after == if RecordsFailure(db, env, outcome.None?) then db.(ticks := db.ticks + [TickRow(db.clock + 1, Failed)]) else db
  {
    CommittedLeavesThat(db, env, outcome);
  }

  /** How many ticks of the run commit their date. */
  function CommittedDates(db: Db, events: seq<Event>): nat {
    if events == [] then 0
    else
      var front, last := events[..|events| - 1], events[|events| - 1];
      CommittedDates(db, front) + if last.TickEvent? && CommitsDate(Run(db, front), last.env) then 1 else 0
  }

  /** Over every run the clock counts exactly the ticks that commit, and so do
      the success days. */
  lemma {:induction false} ClockCountsCommits(db: Db, events: seq<Event>)
    ensures Run(db, events).clock == db.clock + CommittedDates(db, events)
    ensures |SuccessDays(Run(db, events).ticks)| == |SuccessDays(db.ticks)| + CommittedDates(db, events)
    decreases |events|
  {
    if events != [] {
      var front, last := events[..|events| - 1], events[|events| - 1];
      ClockCountsCommits(db, front);
      if last.TickEvent? {
        var before := Run(db, front);
        CommitsDateIff(before, Run(db, events), last.env, FlowOutcome(before.world, before.clock + 1, last.env));
        SuccessAppended(before.ticks, TickRow(before.clock + 1, Success));
        SuccessAppended(before.ticks, TickRow(before.clock + 1, Failed));
      }
    }
  }

  lemma SuccessAppended(ticks: seq<TickRow>, row: TickRow)
    ensures |SuccessDays(ticks + [row])| == |SuccessDays(ticks)| + if row.status == Success then 1 else 0
  {
    assert (ticks + [row])[..|ticks|] == ticks;
  }
}
