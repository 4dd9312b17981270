/** What the flow's rows do over whole runs: when a transfer arrives, and what a
    purchase order's and a sales order's status says. */
module FlowRuns {
  import opened ReplenishmentPolicy
  import opened FlowTables
  import opened FlowSpec
  import opened FlowKeeps
  import opened FlowGuarantees
  import opened SalesTurns
  import opened Scheduler
  import opened SchedulerJob
  import opened SchedulerRuns

  // ---- Statuses ------------------------------------------------------------------------------------

  lemma FlowTells(w: World, today: int, env: TickEnv, r: Option<World>)
    requires StatusesTell(w.sales) && r == FlowOutcome(w, today + 1, env)
    ensures r.None? || StatusesTell(r.value.sales)
  {
    TickTells(w, today + 1, env.inputs);
  }

  /** In every run an order with lines is shipped exactly when all its lines are
      full, partially shipped only with some full and some outstanding, and has
      nothing shipped while it is submitted or allocated. */
  lemma {:induction false} StatusesTellInEveryRun(start: int, events: seq<Event>)
    ensures StatusesTell(Run(Initial(start), events).world.sales)
    decreases |events|
  {
    if events != [] {
      StatusesTellInEveryRun(start, events[..|events| - 1]);
      if events[|events| - 1].TickEvent? {
        var before, env, outcome := LastTick(Initial(start), events);
        FlowTells(before.world, before.clock, env, outcome);
        var n, rep := CommittedShape(before, env, outcome);
      }
    }
  }

  // ---- Purchase orders -----------------------------------------------------------------------------

  predicate NothingReceived(po: PurchaseOrder) {
    forall j :: 0 <= j < |po.lines| ==> po.lines[j].received == 0
  }

  /** Nothing arrives before the expected day, and the status says how much has arrived. */
  predicate ReceiptsTell(po: PurchaseOrder, today: int) {
    && |po.lines| >= 1
    && (forall j :: 0 <= j < |po.lines| ==> 0 <= po.lines[j].received <= po.lines[j].ordered && po.lines[j].ordered >= 1)
    && match po.status
       case PoSubmitted => NothingReceived(po)
       case PoConfirmed => NothingReceived(po)
       case PoPartiallyReceived =>
         && po.expectedDay <= today && !NothingReceived(po)
         && exists j :: 0 <= j < |po.lines| && po.lines[j].received < po.lines[j].ordered
       case PoReceived =>
         po.expectedDay <= today && forall j :: 0 <= j < |po.lines| ==> po.lines[j].received == po.lines[j].ordered
       case _ => false
  }

  predicate OrdersTell(w: World, today: int) {
    forall i :: 0 <= i < |w.pos| ==> ReceiptsTell(w.pos[i], today)
  }

  lemma NextPoTells(po: PurchaseOrder, day: int, roll: Roll)
    requires ReceiptsTell(po, day - 1)
    ensures ReceiptsTell(NextPo(po, day, roll), day)
  {
    var after := NextPo(po, day, roll);
    if IsReceiving(po, day) {
      var j :| 0 <= j < |po.lines| && po.lines[j].received < po.lines[j].ordered;
      assert after.lines[j] == Receive(po.lines[j], roll);
    }
  }

  lemma NextOrdersTell(w: World, v: World, day: int, rolls: nat -> Roll)
    requires OrdersTell(w, day - 1) && |w.pos| <= |v.pos|
    requires forall i :: 0 <= i < |w.pos| ==> v.pos[i] == NextPo(w.pos[i], day, rolls(i))
    requires forall i :: |w.pos| <= i < |v.pos| ==> IsFreshPo(v.pos[i], day)
    ensures OrdersTell(v, day)
  {
    forall i | 0 <= i < |v.pos| ensures ReceiptsTell(v.pos[i], day) {
      if i < |w.pos| {
        NextPoTells(w.pos[i], day, rolls(i));
      }
    }
  }

  lemma FlowOrdersTell(w: World, today: int, env: TickEnv, r: Option<World>)
    requires OrdersTell(w, today) && r == FlowOutcome(w, today + 1, env)
    ensures r.None? || OrdersTell(r.value, today + 1)
  {
    if r.Some? {
      TickFrame(w, today + 1, env.inputs);
      NextOrdersTell(w, r.value, today + 1, env.inputs.rolls);
    }
  }

  /** In every run an order that is submitted or confirmed has received nothing,
      a partially received one something but not all, a received one all, and
      none of them a unit before its expected day. */
  lemma {:induction false} OrdersTellInEveryRun(start: int, events: seq<Event>)
    ensures var db := Run(Initial(start), events); OrdersTell(db.world, db.clock)
    decreases |events|
  {
    if events != [] {
      OrdersTellInEveryRun(start, events[..|events| - 1]);
      if events[|events| - 1].TickEvent? {
        var before, env, outcome := LastTick(Initial(start), events);
        FlowOrdersTell(before.world, before.clock, env, outcome);
        var n, rep := CommittedShape(before, env, outcome);
      }
    }
  }

  // ---- Transfers on the road -------------------------------------------------------------------------

  predicate Begins(before: seq<Transfer>, after: seq<Transfer>) {
    |before| <= |after| && forall i :: 0 <= i < |before| ==> after[i] == before[i]
  }

  lemma {:induction false} TransfersForBegins(w: World, p: nat, whs: seq<nat>, n: nat, day: int)
    requires n <= |whs|
    ensures Begins(w.transfers, TransfersFor(w, p, whs, n, day).transfers)
  {
    if n > 0 {
      TransfersForBegins(w, p, whs, n - 1, day);
      var donor, quantity := NewTransferStep(TransfersFor(w, p, whs, n - 1, day), p, whs[n - 1], whs, day);
    }
  }

  lemma {:induction false} CreateTransfersBegins(w: World, products: seq<nat>, whs: seq<nat>, day: int)
    ensures Begins(w.transfers, CreateTransfers(w, products, whs, day).transfers)
    decreases |products|
  {
    if products != [] {
      var front := products[..|products| - 1];
      CreateTransfersBegins(w, front, whs, day);
      TransfersForBegins(CreateTransfers(w, front, whs, day), products[|products| - 1], whs, |whs|, day);
    }
  }

  /** The row a day later: dispatched first, then delivered from two days after
      it was made. */
  predicate MovesTo(t: Transfer, u: Transfer, day: int) {
    && u == t.(status := u.status)
    && match t.status
       case TrPending => u.status == TrInTransit
       case TrInTransit => u.status == if day >= t.day + 2 then TrCompleted else TrInTransit
       case _ => u.status == t.status
  }

  lemma {:induction false} RowsMove(w: World, n: nat, day: int)
    requires n <= |w.transfers|
    ensures var v := ProgressTransfers(w, n, day);
            forall i :: 0 <= i < |w.transfers| ==>
              if i < n then MovesTo(w.transfers[i], v.transfers[i], day) else v.transfers[i] == w.transfers[i]
  {
    if n > 0 {
      RowsMove(w, n - 1, day);
    }
  }

  lemma TransfersMove(w: World, day: int, inputs: TickInputs)
    ensures var r := Tick(w, day, inputs);
            r.Some? ==>
              && |w.transfers| <= |r.value.transfers|
              && forall i :: 0 <= i < |w.transfers| ==> MovesTo(w.transfers[i], r.value.transfers[i], day)
  {
    var w1 := ProgressPos(w, |w.pos|, day, inputs.rolls);
    var w2 := ProgressTransfers(w1, |w1.transfers|, day);
    ProgressPosFrame(w, |w.pos|, day, inputs.rolls);
    RowsMove(w1, |w1.transfers|, day);
    CreateTransfersBegins(w2, inputs.products, inputs.warehouses, day);
    var w3 := BeforeNewPos(w, day, inputs);
    CreatePosOnlyAdds(w3, |inputs.products|, day, inputs);
    var r := CreatePos(w3, |inputs.products|, day, inputs);
    if r.Some? {
      SalesKeepTransfers(r.value, day, inputs);
    }
  }

  lemma SalesKeepTransfers(w: World, day: int, inputs: TickInputs)
    ensures SalesPasses(w, day, inputs).transfers == w.transfers
  {
    var w5 := w.(shipments := ProgressShipments(w.shipments, |w.shipments|, day, inputs.delay));
    ProgressSalesFrame(w5, inputs.salesScan, day, inputs.promisedTransit);
  }

  lemma FlowMoves(w: World, today: int, env: TickEnv, i: nat, r: Option<World>)
    requires i < |w.transfers| && r == FlowOutcome(w, today + 1, env)
    ensures r.None? || (i < |r.value.transfers| && MovesTo(w.transfers[i], r.value.transfers[i], today + 1))
  {
    TransfersMove(w, today + 1, env.inputs);
  }

  /** The date an open transfer is completed. */
  function ArrivesOn(t: Transfer, clock: int): int {
    var soonest := if t.status == TrPending then clock + 2 else clock + 1;
    if soonest >= t.day + 2 then soonest else t.day + 2
  }

  function StatusOn(t: Transfer, clock: int, today: int): TransferStatus {
    if today >= ArrivesOn(t, clock) then TrCompleted
    else if today > clock then TrInTransit
    else t.status
  }

  predicate OnTheRoad(db: Db, w: World, today: int, i: nat)
    requires i < |db.world.transfers|
  {
    && i < |w.transfers| && today >= db.clock
    && w.transfers[i] == db.world.transfers[i].(status := StatusOn(db.world.transfers[i], db.clock, today))
  }

  lemma CommittedOnTheRoad(db: Db, before: Db, env: TickEnv, outcome: Option<World>, i: nat)
    requires i < |db.world.transfers| && OnTheRoad(db, before.world, before.clock, i)
    requires db.world.transfers[i].status == TrPending || db.world.transfers[i].status == TrInTransit
    requires outcome.None? ||
      (i < |outcome.value.transfers| && MovesTo(before.world.transfers[i], outcome.value.transfers[i], before.clock + 1))
    ensures var after := Committed(before, env, outcome); OnTheRoad(db, after.world, after.clock, i)
  {
    var n, rep := CommittedShape(before, env, outcome);
  }

  /** In every run an open transfer is dispatched with the next committed date
      and completed exactly from its arrival date on, two days after it was made
      or as soon after as its steps allow; nothing else about the row changes. */
  lemma {:induction false} EveryTransferArrives(db: Db, events: seq<Event>, i: nat)
    requires i < |db.world.transfers|
    requires db.world.transfers[i].status == TrPending || db.world.transfers[i].status == TrInTransit
    ensures OnTheRoad(db, Run(db, events).world, Run(db, events).clock, i)
    decreases |events|
  {
    if events != [] {
      EveryTransferArrives(db, events[..|events| - 1], i);
      if events[|events| - 1].TickEvent? {
        var before, env, outcome := LastTick(db, events);
        FlowMoves(before.world, before.clock, env, i, outcome);
        CommittedOnTheRoad(db, before, env, outcome, i);
      }
    }
  }
}
