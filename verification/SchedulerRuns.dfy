/** What holds over every run of ticks, failures and pauses. */
module SchedulerRuns {
  import opened Sums
  import opened ReplenishmentPolicy
  import opened FlowTables
  import opened FlowSpec
  import opened FlowInvariants
  import opened FlowKeeps
  import opened FlowGuarantees
  import opened ReportingSync
  import opened ExceptionFlags
  import opened ExceptionEngine
  import opened LateShipments
  import opened SnapshotHistory
  import opened Scheduler
  import opened SchedulerJob

  // ---- Exactly-once ticks ------------------------------------------------------------------

  function SuccessDays(ticks: seq<TickRow>): seq<int> {
    if ticks == [] then []
    else
      var front, last := SuccessDays(ticks[..|ticks| - 1]), ticks[|ticks| - 1];
      if last.status == Success then front + [last.day] else front
  }

  /** Successful dates are consecutive from the day after `start` up to the
      clock, and every failed row names the date the next success will have. */
  predicate ExactlyOnce(ticks: seq<TickRow>, start: int, clock: int) {
    && |SuccessDays(ticks)| == clock - start
    && (forall i :: 0 <= i < |SuccessDays(ticks)| ==> SuccessDays(ticks)[i] == start + 1 + i)
    && (forall k :: 0 <= k < |ticks| && ticks[k].status == Failed ==>
          ticks[k].day == start + 1 + |SuccessDays(ticks[..k])|)
  }

  lemma TickRowAppended(ticks: seq<TickRow>, start: int, clock: int, status: TickStatus)
    requires ExactlyOnce(ticks, start, clock)
    ensures ExactlyOnce(ticks + [TickRow(clock + 1, status)], start, if status == Success then clock + 1 else clock)
  {
    var after := ticks + [TickRow(clock + 1, status)];
    assert after[..|ticks|] == ticks;
    forall k | 0 <= k < |after| && after[k].status == Failed
      ensures after[k].day == start + 1 + |SuccessDays(after[..k])|
    {
      if k < |ticks| {
        assert after[..k] == ticks[..k];
      }
    }
  }

  // ---- The reporting layer over a run --------------------------------------------------------

  predicate SnapshotsUpTo(live: Live, day: int) {
    forall key :: key in live ==> key.day <= day
  }

  /** The layer is what one sync at its horizon would leave, and the horizon is past. */
  ghost predicate ReportingOk(rep: Reporting, live: Live, clock: int) {
    match rep.lastSynced
    case None => rep == NEVER_SYNCED
    case Some(m) => m <= clock && rep == Ideal(live, m)
  }

  lemma TodaysSnapshotsDoNotMatter(rep: Reporting, before: Live, after: Live, clock: int)
    requires ReportingOk(rep, before, clock) && SnapshotsUpTo(before, clock)
    requires forall key :: key in after && key.day <= clock ==> key in before && after[key] == before[key]
    requires forall key :: key in before ==> key in after && after[key] == before[key]
    ensures ReportingOk(rep, after, clock)
  {
    assert View(after, clock) == before;
    if rep.lastSynced.Some? {
      IdealView(after, clock, rep.lastSynced.value);
    }
  }

  lemma SyncKeepsReporting(rep: Reporting, live: Live, clock: int, target: int)
    requires ReportingOk(rep, live, clock) && target <= clock
    ensures ReportingOk(Sync(rep, live, target), live, clock)
  {
    if rep.lastSynced.Some? {
      SyncContinues(live, rep.lastSynced.value, target);
    }
  }

  // ---- Every reachable database ------------------------------------------------------------------

  /** The flow's tables are good, and the reporting layer mirrors the past. */
  ghost predicate TablesOk(w: World, rep: Reporting, clock: int) {
    Good(w) && SnapshotsUpTo(w.snapshots, clock) && ReportingOk(rep, w.snapshots, clock)
  }

  ghost predicate DbOk(db: Db, start: int) {
    && TablesOk(db.world, db.reporting, db.clock)
    && ExactlyOnce(db.ticks, start, db.clock)
    && OneOpenPerEntity(db.flags)
  }

  lemma TickKeepsSnapshots(w: World, rep: Reporting, clock: int, inputs: TickInputs)
    requires SnapshotsUpTo(w.snapshots, clock) && ReportingOk(rep, w.snapshots, clock)
    ensures var r := Tick(w, clock + 1, inputs);
            r.Some? ==> SnapshotsUpTo(r.value.snapshots, clock + 1) && ReportingOk(rep, r.value.snapshots, clock + 1)
  {
    TickFrame(w, clock + 1, inputs);
    var r := Tick(w, clock + 1, inputs);
    if r.Some? {
      TodaysSnapshotsDoNotMatter(rep, w.snapshots, r.value.snapshots, clock);
    }
  }

  lemma {:induction false} EvaluateKeepsOneOpen(rows: seq<Flag>, n: nat, w: World, rep: Reporting, today: int, rules: Rules)
    requires n <= |CATEGORIES| && OneOpenPerEntity(rows) && RulesOk(rules)
    ensures OneOpenPerEntity(Evaluate(rows, n, w, rep, today, rules))
  {
    if n > 0 {
      EvaluateKeepsOneOpen(rows, n - 1, w, rep, today, rules);
      var before, c := Evaluate(rows, n - 1, w, rep, today, rules), CATEGORIES[n - 1];
      if c in rules.thresholds {
        EvaluationsWellFormed(c, rules.thresholds[c], w, rep, today, rules.supply);
        var e := EvaluationsOf(c, rules.thresholds[c], w, rep, today, rules.supply);
        if e.Some? {
          SyncKeepsOneOpen(before, c, today, rules.thresholds[c], e.value);
        }
      }
    }
  }

  lemma AfterFlowOk(db: Db, env: TickEnv, start: int)
    requires DbOk(db, start) && RulesOk(env.rules)
    ensures DbOk(AfterFlow(db, env), start)
  {
    SyncKeepsReporting(db.reporting, db.world.snapshots, db.clock, TargetSyncDate(db.clock, env.lagDays));
    var synced := Synced(db, env);
    EvaluateKeepsOneOpen(db.flags, Finished(env), db.world, synced.reporting, db.clock, env.rules);
  }

  lemma WorldReplaced(db: Db, after: Db, start: int)
    requires ExactlyOnce(db.ticks, start, db.clock) && OneOpenPerEntity(db.flags)
    requires after == Ticked(db, after.world) && TablesOk(after.world, after.reporting, after.clock)
    ensures DbOk(after, start)
  {
    TickRowAppended(db.ticks, start, db.clock, Success);
  }

  lemma NextWorldOk(before: World, rep: Reporting, clock: int, env: TickEnv, r: Option<World>)
    requires TablesOk(before, rep, clock) && r == FlowOutcome(before, clock + 1, env)
    ensures r.None? || TablesOk(r.value, rep, clock + 1)
  {
    TickGood(before, clock + 1, env.inputs);
    TickKeepsSnapshots(before, rep, clock, env.inputs);
  }

  lemma FailedRowOk(db: Db, start: int)
    requires DbOk(db, start)
    ensures DbOk(db.(ticks := db.ticks + [TickRow(db.clock + 1, Failed)]), start)
  {
    TickRowAppended(db.ticks, start, db.clock, Failed);
  }

  lemma CommittedOk(db: Db, env: TickEnv, outcome: Option<World>, start: int)
    requires DbOk(db, start) && RulesOk(env.rules)
    requires outcome.None? || TablesOk(outcome.value, db.reporting, db.clock + 1)
    ensures DbOk(Committed(db, env, outcome), start)
  {
    CommittedLeaves(db, env, outcome);
    FailedRowOk(db, start);
    if outcome.Some? {
      var ticked := Ticked(db, outcome.value);
      WorldReplaced(db, ticked, start);
      AfterFlowOk(ticked, env, start);
    }
  }

  lemma TickOk(db: Db, after: Db, env: TickEnv, outcome: Option<World>, start: int)
    requires DbOk(db, start) && RulesOk(env.rules)
    requires outcome == FlowOutcome(db.world, db.clock + 1, env) && after == Committed(db, env, outcome)
    ensures DbOk(after, start)
  {
    NextWorldOk(db.world, db.reporting, db.clock, env, outcome);
    CommittedOk(db, env, outcome, start);
  }

  /** A run's last tick: its flow's outcome and what it committed. */
  lemma LastTick(db: Db, events: seq<Event>) returns (before: Db, env: TickEnv, outcome: Option<World>)
    requires events != [] && events[|events| - 1].TickEvent?
    ensures before == Run(db, events[..|events| - 1]) && env == events[|events| - 1].env
    ensures outcome == FlowOutcome(before.world, before.clock + 1, env)
    ensures Run(db, events) == Committed(before, env, outcome)
  {
    before, env := Run(db, events[..|events| - 1]), events[|events| - 1].env;
    outcome := FlowOutcome(before.world, before.clock + 1, env);
  }

  ghost predicate EventsOk(events: seq<Event>) {
    forall i :: 0 <= i < |events| && events[i].TickEvent? ==> RulesOk(events[i].env.rules)
  }

  /** Every run from the empty tables, whatever the draws, faults, pauses and
      threshold changes, reaches only databases in which units are conserved,
      stock never was negative, shortfalls are replenished once, ticks happened
      exactly once per date, the reporting layer equals a single sync at its
      horizon, and no entity has two open flags of one category. */
  lemma {:induction false} EveryRunOk(start: int, events: seq<Event>)
    requires EventsOk(events)
    ensures DbOk(Run(Initial(start), events), start)
    decreases |events|
  {
    if events == [] {
      EmptyWorldGood();
      assert SuccessDays([]) == [];
    } else {
      EveryRunOk(start, events[..|events| - 1]);
      if events[|events| - 1].TickEvent? {
        var before, env, outcome := LastTick(Initial(start), events);
        TickOk(before, Run(Initial(start), events), env, outcome, start);
      }
    }
  }

  /** In every reachable database a synced layer flags its one conflict entity
      with a variance of exactly 25. */
  lemma ConflictAfterEveryRun(start: int, events: seq<Event>, tolerance: real)
    requires EventsOk(events)
    ensures var db := Run(Initial(start), events);
            db.reporting.lastSynced.Some? ==>
              var check := CheckReportingConflict(db.reporting.replica, db.world.snapshots, tolerance);
              check.Some? && check.value.variance == 25
  {
    EveryRunOk(start, events);
    var db := Run(Initial(start), events);
    if db.reporting.lastSynced.Some? {
      VarianceIsConstant(db.world.snapshots, db.reporting.lastSynced.value, tolerance);
    }
  }

  lemma NoDuplicatesIn(w: World, rep: Reporting, today: int, threshold: real)
    requires Good(w)
    ensures EvaluationsOf(DuplicatePo, threshold, w, rep, today, Supply([], map[])) == Some(Evaluations([], map[]))
  {
    DuplicateRuleNeverFires(w, |OpenLines(w.pos)|, threshold.Floor);
  }

  /** No run ever gives the duplicate-order rule anything to flag. */
  lemma NoDuplicatesInAnyRun(start: int, events: seq<Event>, threshold: real)
    requires EventsOk(events)
    ensures var db := Run(Initial(start), events);
            EvaluationsOf(DuplicatePo, threshold, db.world, db.reporting, db.clock, Supply([], map[]))
            == Some(Evaluations([], map[]))
  {
    var db := Run(Initial(start), events);
    assert Good(db.world) by { EveryRunOk(start, events); }
    NoDuplicatesIn(db.world, db.reporting, db.clock, threshold);
  }

  // ---- Receipts within any run ---------------------------------------------------------------------

  function AtMost(k: nat, advanced: int): nat {
    if advanced >= k then 0 else if advanced < 0 then k else k - advanced
  }

  lemma AfterFlowShape(db: Db, env: TickEnv) returns (n: nat, rep: Reporting)
    ensures n <= |CATEGORIES|
    ensures var after := AfterFlow(db, env);
            && after.clock == db.clock && after.world == db.world
            && after.flags == Evaluate(db.flags, n, db.world, rep, db.clock, env.rules)
  {
    n := if FailsAt(env, SyncStep) then 0 else Finished(env);
    rep := AfterFlow(db, env).reporting;
  }

  /** A tick either leaves clock, world and flags alone, or commits one date:
      the flow's own outcome, and the flags of the first n categories evaluated on it. */
  lemma CommittedShape(db: Db, env: TickEnv, outcome: Option<World>) returns (n: nat, rep: Reporting)
    ensures n <= |CATEGORIES|
    ensures var after := Committed(db, env, outcome);
            || (after.clock == db.clock && after.world == db.world && after.flags == db.flags)
            || (&& after.clock == db.clock + 1 && outcome == Some(after.world)
                && after.flags == Evaluate(db.flags, n, after.world, rep, after.clock, env.rules))
  {
    CommittedLeaves(db, env, outcome);
    n, rep := 0, db.reporting;
    if outcome.Some? {
      n, rep := AfterFlowShape(Ticked(db, outcome.value), env);
    }
  }

  /** From this date on the order is confirmed. */
  function ConfirmedBy(db: Db, i: nat): int
    requires i < |db.world.pos|
  {
    if db.world.pos[i].status == PoSubmitted then db.clock + 1 else db.clock
  }

  /** The last date before the order's first receiving tick: it is confirmed by
      then, and the next date is the expected one or later. */
  function ReadyBy(db: Db, i: nat): int
    requires i < |db.world.pos|
  {
    var confirmed, eve := ConfirmedBy(db, i), db.world.pos[i].expectedDay - 1;
    if confirmed >= eve then confirmed else eve
  }

  /** Where the order stands once the clock shows `today`. */
  predicate StandsAt(po: PurchaseOrder, confirmed: int, ready: int, today: int, k: nat) {
    && (today >= confirmed ==> po.status != PoSubmitted)
    && if today >= ready then DueWithin(po, AtMost(k, today - ready)) else Owes(po, k)
  }

  predicate OnTrack(before: Db, w: World, today: int, i: nat, k: nat)
    requires i < |before.world.pos|
  {
    && i < |w.pos| && w.pos[i].expectedDay == before.world.pos[i].expectedDay
    && StandsAt(w.pos[i], ConfirmedBy(before, i), ReadyBy(before, i), today, k)
  }

  lemma StepOnTrack(po: PurchaseOrder, confirmed: int, ready: int, today: int, k: nat, roll: Roll)
    requires StandsAt(po, confirmed, ready, today, k) && ready >= confirmed && ready >= po.expectedDay - 1
    ensures StandsAt(NextPo(po, today + 1, roll), confirmed, ready, today + 1, k)
  {
    if today >= ready {
      ReceivingHalves(po, AtMost(k, today - ready), today + 1, roll);
    } else {
      StepOwesNoMore(po, k, today + 1, roll);
    }
  }

  lemma FlowOnTrack(before: Db, w: World, today: int, env: TickEnv, i: nat, k: nat, r: Option<World>)
    requires i < |before.world.pos| && OnTrack(before, w, today, i, k)
    requires r == FlowOutcome(w, today + 1, env)
    ensures r.None? || OnTrack(before, r.value, today + 1, i, k)
  {
    TickFrame(w, today + 1, env.inputs);
    StepOnTrack(w.pos[i], ConfirmedBy(before, i), ReadyBy(before, i), today, k, env.inputs.rolls(i));
  }

  lemma CommittedOnTrack(before: Db, db: Db, env: TickEnv, outcome: Option<World>, i: nat, k: nat)
    requires i < |before.world.pos| && OnTrack(before, db.world, db.clock, i, k)
    requires outcome.None? || OnTrack(before, outcome.value, db.clock + 1, i, k)
    ensures var after := Committed(db, env, outcome); OnTrack(before, after.world, after.clock, i, k)
  {
    var n, rep := CommittedShape(db, env, outcome);
  }

  lemma {:induction false} StaysOnTrack(db: Db, events: seq<Event>, i: nat, k: nat)
    requires EventsOk(events) && i < |db.world.pos| && Owes(db.world.pos[i], k)
    ensures OnTrack(db, Run(db, events).world, Run(db, events).clock, i, k)
    decreases |events|
  {
    if events != [] {
      StaysOnTrack(db, events[..|events| - 1], i, k);
      if events[|events| - 1].TickEvent? {
        var before, env, outcome := LastTick(db, events);
        FlowOnTrack(db, before.world, before.clock, env, i, k, outcome);
        CommittedOnTrack(db, before, env, outcome, i, k);
      }
    }
  }

  /** In every run, an open order whose lines miss at most 2^(k-1) units each is
      received once k dates have been committed from its first receiving date on,
      however the receipts are rolled and however many ticks fail in between. */
  lemma EveryOrderIsReceived(start: int, first: seq<Event>, more: seq<Event>, i: nat, k: nat)
    requires EventsOk(first) && EventsOk(more) && k > 0
    requires i < |Run(Initial(start), first).world.pos|
    requires IsOpenPo(Run(Initial(start), first).world.pos[i].status)
    requires forall l :: l in Run(Initial(start), first).world.pos[i].lines ==> l.ordered - l.received <= Pow2(k - 1)
    ensures var db := Run(Initial(start), first);
            var after := Run(db, more);
            && i < |after.world.pos|
            && (after.clock >= ReadyBy(db, i) + k ==> after.world.pos[i].status == PoReceived)
  {
    var db := Run(Initial(start), first);
    assert PoOk(db.world.pos[i]) by { EveryRunOk(start, first); }
    StaysOnTrack(db, more, i, k);
  }

  // ---- What stored snapshots mean -----------------------------------------------------------------

  ghost predicate HistoryOk(w: World, clock: int) {
    DatedBy(w.ledger, clock) && SnapshotsExact(w)
  }

  lemma FlowKeepsHistory(w: World, today: int, env: TickEnv, r: Option<World>)
    requires Good(w) && SnapshotsUpTo(w.snapshots, today) && HistoryOk(w, today)
    requires r == FlowOutcome(w, today + 1, env)
    ensures r.None? || HistoryOk(r.value, today + 1)
  {
    TickKeepsSnapshotsExact(w, today + 1, env.inputs);
  }

  lemma CommittedKeepsHistory(db: Db, env: TickEnv, outcome: Option<World>)
    requires HistoryOk(db.world, db.clock)
    requires outcome.None? || HistoryOk(outcome.value, db.clock + 1)
    ensures var after := Committed(db, env, outcome); HistoryOk(after.world, after.clock)
  {
    var n, rep := CommittedShape(db, env, outcome);
  }

  /** In every run every stored snapshot is the ledger position of its pair over
      the rows dated up to its day, and no row is dated after the clock. */
  lemma {:induction false} SnapshotsInEveryRun(start: int, events: seq<Event>)
    requires EventsOk(events)
    ensures HistoryOk(Run(Initial(start), events).world, Run(Initial(start), events).clock)
    decreases |events|
  {
    if events != [] {
      SnapshotsInEveryRun(start, events[..|events| - 1]);
      if events[|events| - 1].TickEvent? {
        var before, env, outcome := LastTick(Initial(start), events);
        assert TablesOk(before.world, before.reporting, before.clock) by { EveryRunOk(start, events[..|events| - 1]); }
        FlowKeepsHistory(before.world, before.clock, env, outcome);
        CommittedKeepsHistory(before, env, outcome);
      }
    }
  }

  // ---- The record of every flag -------------------------------------------------------------------

  /** Over every run, whatever its thresholds, faults and pauses, a flag's
      category, entity, threshold and first-detected date never change, and
      neither does anything about a closed one. */
  lemma {:induction false} FlagHistoryInEveryRun(db: Db, events: seq<Event>)
    ensures KeepsHistory(db.flags, Run(db, events).flags)
    decreases |events|
  {
    if events != [] {
      FlagHistoryInEveryRun(db, events[..|events| - 1]);
      if events[|events| - 1].TickEvent? {
        var before, env, outcome := LastTick(db, events);
        var n, rep := CommittedShape(before, env, outcome);
        var after := Committed(before, env, outcome);
        if after.clock > before.clock {
          EvaluateKeepsHistory(before.flags, n, after.world, rep, after.clock, env.rules);
        }
      }
    }
  }

  // ---- Late-shipment flags are permanent -------------------------------------------------------------

  predicate ShipmentsOnSchedule(shipments: seq<Shipment>, today: int, delay: nat -> nat, grace: int) {
    forall i :: 0 <= i < |shipments| ==>
      && shipments[i].shipDay <= today
      && OnSchedule(shipments[i], today, delay(i))
      && FlagsSettle(shipments[i].promisedDay - shipments[i].shipDay, grace)
  }

  predicate IsFlaggedLate(f: Flag, shipments: seq<Shipment>, today: int, grace: int) {
    && f.key.shipment.Some?
    && f.key.shipment.value < |shipments|
    && f.key == ShipmentKey(f.key.shipment.value)
    && IsLate(shipments[f.key.shipment.value], today, grace)
  }

  /** Every open late-shipment flag names a shipment whose verdict is late today. */
  predicate LateFlagsHold(flags: seq<Flag>, shipments: seq<Shipment>, today: int, grace: int) {
    forall r :: 0 <= r < |flags| && IsOpenIn(flags[r], LateShipment) ==> IsFlaggedLate(flags[r], shipments, today, grace)
  }

  /** Carrier data fixed, the rule's threshold fixed, and the promise or the grace at least a day. */
  ghost predicate CarriersFixed(env: TickEnv, delay: nat -> nat, threshold: real) {
    && RulesOk(env.rules)
    && (forall i: nat :: env.inputs.delay(i) == delay(i))
    && (LateShipment in env.rules.thresholds ==> env.rules.thresholds[LateShipment] == threshold)
    && forall so: nat :: env.inputs.promisedTransit(so).Some? ==>
         FlagsSettle(env.inputs.promisedTransit(so).value, GraceDays(threshold))
  }

  lemma {:induction false} SalesShipmentsSettle(w: World, scan: seq<nat>, day: int, transit: nat -> Option<nat>, grace: int)
    requires forall so: nat :: transit(so).Some? ==> FlagsSettle(transit(so).value, grace)
    ensures var v := ProgressSales(w, scan, day, transit);
            && |w.shipments| <= |v.shipments|
            && forall i :: |w.shipments| <= i < |v.shipments| ==>
                 FlagsSettle(v.shipments[i].promisedDay - v.shipments[i].shipDay, grace)
    decreases |scan|
  {
    if scan != [] {
      SalesShipmentsSettle(w, scan[..|scan| - 1], day, transit, grace);
      var v, i := ProgressSales(w, scan[..|scan| - 1], day, transit), scan[|scan| - 1];
      if i < |v.sales| {
        ShipLinesFrame(v, i, |v.sales[i].lines|, day);
      }
    }
  }

  /** Up to the sales passes no shipment is touched. */
  lemma NewPosKeepShipments(w: World, day: int, inputs: TickInputs)
    ensures var r := CreatePos(BeforeNewPos(w, day, inputs), |inputs.products|, day, inputs);
            r.Some? ==> r.value.shipments == w.shipments
  {
    var w1 := ProgressPos(w, |w.pos|, day, inputs.rolls);
    var w2 := ProgressTransfers(w1, |w1.transfers|, day);
    assert w1.shipments == w.shipments by { ProgressPosFrame(w, |w.pos|, day, inputs.rolls); }
    assert w2.shipments == w1.shipments by { ProgressTransfersFrame(w1, |w1.transfers|, day); }
    CreateTransfersFrame(w2, inputs.products, inputs.warehouses, day);
    CreatePosOnlyAdds(BeforeNewPos(w, day, inputs), |inputs.products|, day, inputs);
  }

  lemma SalesPassesSettle(w: World, day: int, inputs: TickInputs, grace: int)
    requires forall so: nat :: inputs.promisedTransit(so).Some? ==> FlagsSettle(inputs.promisedTransit(so).value, grace)
    ensures forall i :: |w.shipments| <= i < |SalesPasses(w, day, inputs).shipments| ==>
      FlagsSettle(SalesPasses(w, day, inputs).shipments[i].promisedDay - SalesPasses(w, day, inputs).shipments[i].shipDay, grace)
  {
    var w5 := w.(shipments := ProgressShipments(w.shipments, |w.shipments|, day, inputs.delay));
    SalesShipmentsSettle(w5, inputs.salesScan, day, inputs.promisedTransit, grace);
  }

  lemma TickShipmentsSettle(w: World, day: int, inputs: TickInputs, grace: int)
    requires forall so: nat :: inputs.promisedTransit(so).Some? ==> FlagsSettle(inputs.promisedTransit(so).value, grace)
    ensures var r := Tick(w, day, inputs);
            r.Some? ==> forall i :: |w.shipments| <= i < |r.value.shipments| ==>
              FlagsSettle(r.value.shipments[i].promisedDay - r.value.shipments[i].shipDay, grace)
  {
    NewPosKeepShipments(w, day, inputs);
    var v := CreatePos(BeforeNewPos(w, day, inputs), |inputs.products|, day, inputs);
    if v.Some? {
      SalesPassesSettle(v.value, day, inputs, grace);
      assert AfterNewPos(v.value, day, inputs).shipments == SalesPasses(v.value, day, inputs).shipments;
    }
  }

  lemma OldShipmentsKeepLate(w: World, moved: seq<Shipment>, today: int, inputs: TickInputs, delay: nat -> nat, grace: int, i: nat)
    requires grace >= 0 && i < |w.shipments|
    requires ShipmentsOnSchedule(w.shipments, today, delay, grace)
    requires inputs.delay(i) == delay(i)
    requires moved == ProgressShipments(w.shipments, |w.shipments|, today + 1, inputs.delay)
    ensures moved[i].shipDay == w.shipments[i].shipDay && moved[i].promisedDay == w.shipments[i].promisedDay
    ensures OnSchedule(moved[i], today + 1, delay(i))
    ensures IsLate(w.shipments[i], today, grace) ==> IsLate(moved[i], today + 1, grace)
  {
    StaysOnSchedule(w.shipments[i], today, delay(i));
    if IsLate(w.shipments[i], today, grace) {
      LateStaysLate(w.shipments[i], today, delay(i), grace);
    }
  }

  lemma ShipmentsKeepLate(w: World, moved: seq<Shipment>, after: seq<Shipment>, flags: seq<Flag>, today: int, inputs: TickInputs,
                          delay: nat -> nat, grace: int)
    requires grace >= 0 && (forall i: nat :: inputs.delay(i) == delay(i))
    requires ShipmentsOnSchedule(w.shipments, today, delay, grace) && LateFlagsHold(flags, w.shipments, today, grace)
    requires moved == ProgressShipments(w.shipments, |w.shipments|, today + 1, inputs.delay)
    requires OnlyAddsShipments(moved, after, today + 1)
    requires forall i :: |moved| <= i < |after| ==> FlagsSettle(after[i].promisedDay - after[i].shipDay, grace)
    ensures ShipmentsOnSchedule(after, today + 1, delay, grace) && LateFlagsHold(flags, after, today + 1, grace)
  {
    forall i: nat | i < |moved|
      ensures after[i] == moved[i] && moved[i].shipDay <= today
      ensures FlagsSettle(moved[i].promisedDay - moved[i].shipDay, grace)
      ensures OnSchedule(moved[i], today + 1, delay(i))
      ensures IsLate(w.shipments[i], today, grace) ==> IsLate(moved[i], today + 1, grace)
    {
      assert after[i] == after[..|moved|][i];
      OldShipmentsKeepLate(w, moved, today, inputs, delay, grace, i);
    }
  }

  predicate LateHolds(flags: seq<Flag>, w: World, today: int, delay: nat -> nat, threshold: real) {
    && ShipmentsOnSchedule(w.shipments, today, delay, GraceDays(threshold))
    && LateFlagsHold(flags, w.shipments, today, GraceDays(threshold))
  }

  lemma TickKeepsLate(w: World, flags: seq<Flag>, today: int, env: TickEnv, delay: nat -> nat, threshold: real, r: Option<World>)
    requires threshold >= 0.0 && CarriersFixed(env, delay, threshold)
    requires LateHolds(flags, w, today, delay, threshold)
    requires r == FlowOutcome(w, today + 1, env)
    ensures r.None? || LateHolds(flags, r.value, today + 1, delay, threshold)
  {
    var grace, moved := GraceDays(threshold), ProgressShipments(w.shipments, |w.shipments|, today + 1, env.inputs.delay);
    if r.Some? {
      TickFrame(w, today + 1, env.inputs);
      TickShipmentsSettle(w, today + 1, env.inputs, grace);
      ShipmentsKeepLate(w, moved, r.value.shipments, flags, today, env.inputs, delay, grace);
    }
  }

  /** The late-shipment rule itself resolves no flag that is still late, and
      opens flags only for late shipments. */
  lemma LateRuleKeepsFlags(rows: seq<Flag>, shipments: seq<Shipment>, today: int, threshold: real, grace: int)
    requires LateFlagsHold(rows, shipments, today, grace)
    ensures var e := LateEvaluations(shipments, today, grace);
            var after := SyncFlags(rows, LateShipment, today, threshold, e);
            && LateFlagsHold(after, shipments, today, grace)
            && (forall r :: 0 <= r < |rows| && IsOpenIn(rows[r], LateShipment) ==> IsOpenIn(after[r], LateShipment))
  {
    var e := LateEvaluations(shipments, today, grace);
    var after := SyncFlags(rows, LateShipment, today, threshold, e);
    forall r | 0 <= r < |rows| && IsOpenIn(rows[r], LateShipment)
      ensures IsOpenIn(after[r], LateShipment) && after[r].key == rows[r].key
    {
      var i := rows[r].key.shipment.value;
      assert IsFlaggedLate(rows[r], shipments, today, grace);
      assert ShipmentKey(i) in e.verdicts;
      assert after[r] == NextFlag(rows[r], LateShipment, today, e);
    }
    forall r | |rows| <= r < |after| ensures IsFlaggedLate(after[r], shipments, today, grace) {
      var keys := NewKeys(rows, LateShipment, e, |e.order|);
      var key := keys[r - |rows|];
      assert after[r] == NewFlag(LateShipment, today, threshold, e, key);
      NewKeyMembers(rows, LateShipment, e, |e.order|, key);
      var i :| 0 <= i < |shipments| && key == ShipmentKey(i);
    }
    forall r | 0 <= r < |rows| && IsOpenIn(after[r], LateShipment)
      ensures IsFlaggedLate(after[r], shipments, today, grace)
    {
      SyncKeepsHistory(rows, LateShipment, today, threshold, e, r);
      assert IsFlaggedLate(rows[r], shipments, today, grace);
    }
  }

  lemma {:induction false} OtherRuleKeepsLate(rows: seq<Flag>, c: Category, today: int, threshold: real, e: Evaluations,
                           shipments: seq<Shipment>, grace: int)
    requires c != LateShipment && LateFlagsHold(rows, shipments, today, grace)
    ensures var after := SyncFlags(rows, c, today, threshold, e);
            && LateFlagsHold(after, shipments, today, grace)
            && (forall r :: 0 <= r < |rows| && IsOpenIn(rows[r], LateShipment) ==> after[r] == rows[r])
  {
    var after := SyncFlags(rows, c, today, threshold, e);
    forall r | 0 <= r < |after| && IsOpenIn(after[r], LateShipment)
      ensures r < |rows| && after[r] == rows[r]
    {
      if r < |rows| {
        SyncKeepsHistory(rows, c, today, threshold, e, r);
      }
    }
    forall r | 0 <= r < |rows| && IsOpenIn(rows[r], LateShipment) ensures after[r] == rows[r] {
      SyncKeepsHistory(rows, c, today, threshold, e, r);
    }
  }

  lemma {:induction false} EvaluationKeepsLate(rows: seq<Flag>, n: nat, w: World, rep: Reporting, today: int, rules: Rules, threshold: real)
    requires n <= |CATEGORIES| && LateFlagsHold(rows, w.shipments, today, GraceDays(threshold))
    requires LateShipment in rules.thresholds ==> rules.thresholds[LateShipment] == threshold
    ensures var after := Evaluate(rows, n, w, rep, today, rules);
            && |rows| <= |after|
            && LateFlagsHold(after, w.shipments, today, GraceDays(threshold))
            && (forall r :: 0 <= r < |rows| && IsOpenIn(rows[r], LateShipment) ==> IsOpenIn(after[r], LateShipment))
  {
    if n > 0 {
      EvaluationKeepsLate(rows, n - 1, w, rep, today, rules, threshold);
      var before, c := Evaluate(rows, n - 1, w, rep, today, rules), CATEGORIES[n - 1];
      if c in rules.thresholds {
        if c == LateShipment {
          LateRuleKeepsFlags(before, w.shipments, today, threshold, GraceDays(threshold));
        } else {
          var e := EvaluationsOf(c, rules.thresholds[c], w, rep, today, rules.supply);
          if e.Some? {
            OtherRuleKeepsLate(before, c, today, rules.thresholds[c], e.value, w.shipments, GraceDays(threshold));
          }
        }
      }
    }
  }

  predicate LateOk(db: Db, delay: nat -> nat, threshold: real) {
    LateHolds(db.flags, db.world, db.clock, delay, threshold)
  }

  predicate StillOpen(before: seq<Flag>, after: seq<Flag>) {
    && |before| <= |after|
    && forall r :: 0 <= r < |before| && IsOpenIn(before[r], LateShipment) ==> IsOpenIn(after[r], LateShipment)
  }

  lemma CommittedKeepsLate(db: Db, env: TickEnv, outcome: Option<World>, delay: nat -> nat, threshold: real)
    requires LateOk(db, delay, threshold)
    requires LateShipment in env.rules.thresholds ==> env.rules.thresholds[LateShipment] == threshold
    requires outcome.None? || LateHolds(db.flags, outcome.value, db.clock + 1, delay, threshold)
    ensures LateOk(Committed(db, env, outcome), delay, threshold)
    ensures StillOpen(db.flags, Committed(db, env, outcome).flags)
  {
    var after := Committed(db, env, outcome);
    var n, rep := CommittedShape(db, env, outcome);
    if after.clock > db.clock {
      EvaluationKeepsLate(db.flags, n, after.world, rep, after.clock, env.rules, threshold);
    }
  }

  lemma LastTickKeepsLate(db: Db, env: TickEnv, outcome: Option<World>, delay: nat -> nat, threshold: real)
    requires threshold >= 0.0 && LateOk(db, delay, threshold) && CarriersFixed(env, delay, threshold)
    requires outcome == FlowOutcome(db.world, db.clock + 1, env)
    ensures LateOk(Committed(db, env, outcome), delay, threshold)
    ensures StillOpen(db.flags, Committed(db, env, outcome).flags)
  {
    TickKeepsLate(db.world, db.flags, db.clock, env, delay, threshold, outcome);
    CommittedKeepsLate(db, env, outcome, delay, threshold);
  }

  /** From any database a run can reach, no later tick, evaluation, failure or
      delivery ever resolves an open late-shipment flag. */
  lemma {:induction false} LateFlagsArePermanent(db: Db, events: seq<Event>, delay: nat -> nat, threshold: real)
    requires LateOk(db, delay, threshold) && threshold >= 0.0
    requires forall i :: 0 <= i < |events| && events[i].TickEvent? ==> CarriersFixed(events[i].env, delay, threshold)
    ensures LateOk(Run(db, events), delay, threshold) && StillOpen(db.flags, Run(db, events).flags)
    decreases |events|
  {
    if events != [] {
      LateFlagsArePermanent(db, events[..|events| - 1], delay, threshold);
      if events[|events| - 1].TickEvent? {
        var before, env, outcome := LastTick(db, events);
        LastTickKeepsLate(before, env, outcome, delay, threshold);
      }
    }
  }

  /** In every run from the empty tables with fixed carriers and grace, a
      late-shipment flag that is open after the first events is open after all of them. */
  lemma LateFlagsNeverResolve(start: int, first: seq<Event>, more: seq<Event>, delay: nat -> nat, threshold: real)
    requires threshold >= 0.0
    requires forall i :: 0 <= i < |first| && first[i].TickEvent? ==> CarriersFixed(first[i].env, delay, threshold)
    requires forall i :: 0 <= i < |more| && more[i].TickEvent? ==> CarriersFixed(more[i].env, delay, threshold)
    ensures var db := Run(Initial(start), first); StillOpen(db.flags, Run(db, more).flags)
  {
    assert LateOk(Initial(start), delay, threshold);
    LateFlagsArePermanent(Initial(start), first, delay, threshold);
    LateFlagsArePermanent(Run(Initial(start), first), more, delay, threshold);
  }
}
