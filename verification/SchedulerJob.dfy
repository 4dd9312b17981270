/** The scheduler's own statements: session work, rollback and commit. */
module SchedulerJob {
  import opened ReplenishmentPolicy
  import opened FlowTables
  import opened FlowSpec
  import opened Flow
  import opened ReportingSync
  import opened ExceptionFlags
  import opened ExceptionEngine
  import opened Scheduler

  // ---- The service's control flow -------------------------------------------------------

  class TickJob {
    const flow: ScheduledFlow
    const layer: ReportingLayer
    const table: FlagTable
    var clock: int
    var running: bool
    var ticks: seq<TickRow>

    function State(): Db
      reads this, flow, layer, table
    {
      Db(clock, running, flow.State(), layer.State(), table.rows, ticks)
    }

    constructor (start: int)
      ensures State() == Initial(start)
      ensures fresh(flow) && fresh(layer) && fresh(table)
    {
      flow := new ScheduledFlow();
      layer := new ReportingLayer();
      table := new FlagTable();
      clock, running, ticks := start, true, [];
    }

    /** What a rollback of the whole session leaves. */
    method Restore(saved: Db)
      modifies this, flow, layer, table
      ensures State() == saved
    {
      flow.Restore(saved.world);
      layer.Restore(saved.reporting);
      table.Restore(saved.flags);
      clock, running, ticks := saved.clock, saved.running, saved.ticks;
    }

    method RunPasses(env: TickEnv, day: int) returns (ok: bool)
      modifies flow
      ensures var outcome := FlowOutcome(old(flow.State()), day, env);
              if ok then outcome == Some(flow.State()) else outcome.None? && flow.State() == old(flow.State())
    {
      if FailsAt(env, FlowPasses) {
        return false;
      }
      ok := flow.RunScheduledTick(day, env.inputs);
    }

    /** run_scheduled_tick: a raising flow rolls everything back, the clock
        included, and writes its own FAILED row.  active: the session survived. */
    method RunFlow(env: TickEnv, saved: Db) returns (ok: bool, active: bool)
      requires State() == saved.(clock := saved.clock + 1)
      modifies this, flow, layer, table
      ensures var outcome := FlowOutcome(saved.world, saved.clock + 1, env);
              && ok == outcome.Some?
              && (ok ==> active == !FailsAt(env, TickRowWrite))
              && (ok && active ==> State() == Ticked(saved, outcome.value))
              && (!ok ==> active == env.failedRowWritten)
              && (!ok && active ==> State() == saved.(ticks := saved.ticks + [TickRow(saved.clock + 1, Failed)]))
    {
      var day := clock;
      ok := RunPasses(env, day);
      if ok {
        active := !FailsAt(env, TickRowWrite);
        if active {
          ticks := ticks + [TickRow(day, Success)];
        }
      } else {
        Restore(saved);
        active := env.failedRowWritten;
        if active {
          ticks := ticks + [TickRow(day, Failed)];
        }
      }
    }

    /** The derived layers and the sweeps, up to the first error. */
    method RunDerived(env: TickEnv) returns (active: bool)
      requires RulesOk(env.rules) && OneOpenPerEntity(table.rows)
      modifies layer, table
      ensures active == !(env.fault.Fault? && env.fault.database
                          && (env.fault.step == SyncStep || env.fault.step == EvaluateStep || env.fault.step == KpiStep
                              || env.fault.step == StaleStep || env.fault.step == SweepStep))
      ensures State() == AfterFlow(old(State()), env)
    {
      active := true;
      if FailsAt(env, SyncStep) {
        active := !env.fault.database;
        return;
      }
      layer.SyncReportingLayer(flow.snapshots, clock, env.lagDays);
      var finished := Finished(env);
      var _, _ := EvaluateFirst(table, finished, flow.State(), layer.State(), clock, env.rules);
      if FailsAt(env, EvaluateStep) || FailsAt(env, KpiStep) || FailsAt(env, StaleStep) || FailsAt(env, SweepStep) {
        active := !env.fault.database;
      }
    }

    /** One call of the job: session work, rollback and commit in the original's order. */
    method RunTickJob(env: TickEnv)
      requires RulesOk(env.rules) && OneOpenPerEntity(table.rows)
      modifies this, flow, layer, table
      ensures State() == RunTick(old(State()), env)
    {
      var saved := State();           // what the database holds
      if !running || FailsAt(env, Advance) {
        return;                       // paused, or the clock step itself failed: nothing is committed
      }
      clock := clock + 1;
      var ok, active := RunFlow(env, saved);
      if ok && active {
        active := RunDerived(env);
      }
      if !active || FailsAt(env, CommitStep) {
        Restore(saved);
      }
    }
  }

  // ---- What a tick can leave -----------------------------------------------------------------

  /** The cases the proofs about runs go through: a tick leaves nothing, its
      FAILED row, or the date and whatever the derived layers managed. */
  predicate TickLeaves(db: Db, after: Db, env: TickEnv, outcome: Option<World>) {
    || after == db
    || after == db.(ticks := db.ticks + [TickRow(db.clock + 1, Failed)])
    || (outcome.Some? && after == AfterFlow(Ticked(db, outcome.value), env))
  }

  lemma CommittedLeaves(db: Db, env: TickEnv, outcome: Option<World>)
    ensures TickLeaves(db, Committed(db, env, outcome), env, outcome)
  {
  }

  /** Of these, a flow that fails, in Python or in the database, leaves only the
      first two: not the clock, not one table of the flow, not one flag. */
  lemma FailedFlowCommitsOnlyItsRow(db: Db, env: TickEnv)
    requires FlowOutcome(db.world, db.clock + 1, env).None?
    ensures var after := RunTick(db, env);
            after == db || after == db.(ticks := db.ticks + [TickRow(db.clock + 1, Failed)])
  {
    CommittedLeaves(db, env, None);
  }
}
