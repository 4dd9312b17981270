/** What a stored snapshot keeps meaning: the ledger position of its pair over
    the rows dated up to its day, however much is booked later. */
module SnapshotHistory {
  import opened Sums
  import opened ReplenishmentPolicy
  import opened FlowTables
  import opened FlowSpec
  import opened FlowInvariants
  import opened FlowKeeps
  import opened FlowGuarantees

  function AtPairUpTo(p: nat, wh: nat, day: int): Txn -> int {
    (t: Txn) => if t.product == p && t.warehouse == wh && t.day <= day then t.delta else 0
  }

  predicate DatedBy(ledger: seq<Txn>, today: int) {
    forall k :: 0 <= k < |ledger| ==> ledger[k].day <= today
  }

  ghost predicate SnapshotsExact(w: World) {
    forall key :: key in w.snapshots ==>
      w.snapshots[key].onHand == Sum(w.ledger, AtPairUpTo(key.product, key.warehouse, key.day))
  }

  // ---- Every pass books on its own day -------------------------------------------------------

  predicate AppendsOn(before: seq<Txn>, after: seq<Txn>, day: int) {
    && |before| <= |after| && after[..|before|] == before
    && forall k :: |before| <= k < |after| ==> after[k].day == day
  }

  lemma AppendsTwice(a: seq<Txn>, b: seq<Txn>, c: seq<Txn>, day: int)
    requires AppendsOn(a, b, day) && AppendsOn(b, c, day)
    ensures AppendsOn(a, c, day)
  {
    assert c[..|a|] == c[..|b|][..|a|];
    forall k | |a| <= k < |c| ensures c[k].day == day {
      if k < |b| {
        assert c[k] == c[..|b|][k];
      }
    }
  }

  lemma {:induction false} ReceiptRowsAreToday(lines: seq<PoLine>, id: nat, wh: nat, day: int, roll: Roll)
    ensures forall k :: 0 <= k < |ReceiptRows(lines, id, wh, day, roll)| ==> ReceiptRows(lines, id, wh, day, roll)[k].day == day
  {
    if lines != [] {
      ReceiptRowsAreToday(lines[..|lines| - 1], id, wh, day, roll);
    }
  }

  lemma {:induction false} ProgressPosAppends(w: World, n: nat, day: int, rolls: nat -> Roll)
    requires n <= |w.pos|
    ensures AppendsOn(w.ledger, ProgressPos(w, n, day, rolls).ledger, day)
  {
    if n > 0 {
      ProgressPosAppends(w, n - 1, day, rolls);
      var v := ProgressPos(w, n - 1, day, rolls);
      ReceiptRowsAreToday(v.pos[n - 1].lines, n - 1, v.pos[n - 1].warehouse, day, rolls(n - 1));
      AppendsTwice(w.ledger, v.ledger, StepPo(v, n - 1, day, rolls(n - 1)).ledger, day);
    }
  }

  lemma {:induction false} ProgressTransfersAppends(w: World, n: nat, day: int)
    requires n <= |w.transfers|
    ensures AppendsOn(w.ledger, ProgressTransfers(w, n, day).ledger, day)
  {
    if n > 0 {
      ProgressTransfersAppends(w, n - 1, day);
      var v := ProgressTransfers(w, n - 1, day);
      AppendsTwice(w.ledger, v.ledger, StepTransfer(v, n - 1, day).ledger, day);
    }
  }

  lemma StepNewTransferAppends(w: World, p: nat, wh: nat, whs: seq<nat>, day: int)
    ensures AppendsOn(w.ledger, StepNewTransfer(w, p, wh, whs, day).ledger, day)
  {
    var donor, quantity := NewTransferStep(w, p, wh, whs, day);
  }

  lemma {:induction false} TransfersForAppends(w: World, p: nat, whs: seq<nat>, n: nat, day: int)
    requires n <= |whs|
    ensures AppendsOn(w.ledger, TransfersFor(w, p, whs, n, day).ledger, day)
  {
    if n > 0 {
      TransfersForAppends(w, p, whs, n - 1, day);
      var v := TransfersFor(w, p, whs, n - 1, day);
      StepNewTransferAppends(v, p, whs[n - 1], whs, day);
      AppendsTwice(w.ledger, v.ledger, StepNewTransfer(v, p, whs[n - 1], whs, day).ledger, day);
    }
  }

  lemma {:induction false} CreateTransfersAppends(w: World, products: seq<nat>, whs: seq<nat>, day: int)
    ensures AppendsOn(w.ledger, CreateTransfers(w, products, whs, day).ledger, day)
    decreases |products|
  {
    if products != [] {
      var front, p := products[..|products| - 1], products[|products| - 1];
      CreateTransfersAppends(w, front, whs, day);
      var v := CreateTransfers(w, front, whs, day);
      TransfersForAppends(v, p, whs, |whs|, day);
      AppendsTwice(w.ledger, v.ledger, TransfersFor(v, p, whs, |whs|, day).ledger, day);
    }
  }

  lemma {:induction false} ShipLinesAppends(w: World, i: nat, n: nat, day: int)
    requires i < |w.sales| && n <= |w.sales[i].lines|
    ensures AppendsOn(w.ledger, ShipLines(w, i, n, day).ledger, day)
  {
    if n > 0 {
      ShipLinesAppends(w, i, n - 1, day);
      var v := ShipLines(w, i, n - 1, day);
      AppendsTwice(w.ledger, v.ledger, ShipLine(v, i, n - 1, day).ledger, day);
    }
  }

  lemma {:induction false} ProgressSalesAppends(w: World, scan: seq<nat>, day: int, transit: nat -> Option<nat>)
    ensures AppendsOn(w.ledger, ProgressSales(w, scan, day, transit).ledger, day)
    decreases |scan|
  {
    if scan != [] {
      var front, i := scan[..|scan| - 1], scan[|scan| - 1];
      ProgressSalesAppends(w, front, day, transit);
      var v := ProgressSales(w, front, day, transit);
      if i < |v.sales| {
        ShipLinesAppends(v, i, |v.sales[i].lines|, day);
      }
      AppendsTwice(w.ledger, v.ledger, StepSale(v, i, day, transit(i)).ledger, day);
    }
  }

  lemma BeforeNewPosAppends(w: World, day: int, inputs: TickInputs)
    ensures AppendsOn(w.ledger, BeforeNewPos(w, day, inputs).ledger, day)
    ensures BeforeNewPos(w, day, inputs).snapshots == w.snapshots
  {
    var w1 := ProgressPos(w, |w.pos|, day, inputs.rolls);
    var w2 := ProgressTransfers(w1, |w1.transfers|, day);
    ProgressPosAppends(w, |w.pos|, day, inputs.rolls);
    ProgressTransfersAppends(w1, |w1.transfers|, day);
    CreateTransfersAppends(w2, inputs.products, inputs.warehouses, day);
    AppendsTwice(w.ledger, w1.ledger, w2.ledger, day);
    AppendsTwice(w.ledger, w2.ledger, BeforeNewPos(w, day, inputs).ledger, day);
    ProgressPosFrame(w, |w.pos|, day, inputs.rolls);
    ProgressTransfersFrame(w1, |w1.transfers|, day);
    CreateTransfersFrame(w2, inputs.products, inputs.warehouses, day);
  }

  /** The tick's bookings are of its day, and so are its new snapshots, which are for active pairs. */
  lemma TickBooksToday(w: World, day: int, inputs: TickInputs)
    ensures var r := Tick(w, day, inputs);
            r.Some? ==>
              && AppendsOn(w.ledger, r.value.ledger, day)
              && forall key :: key in r.value.snapshots ==>
                   key in w.snapshots || (key.day == day && key.product in inputs.products && key.warehouse in inputs.warehouses)
  {
    var w3 := BeforeNewPos(w, day, inputs);
    BeforeNewPosAppends(w, day, inputs);
    CreatePosOnlyAdds(w3, |inputs.products|, day, inputs);
    var r := CreatePos(w3, |inputs.products|, day, inputs);
    if r.Some? {
      var w5 := r.value.(shipments := ProgressShipments(r.value.shipments, |r.value.shipments|, day, inputs.delay));
      ProgressSalesAppends(w5, inputs.salesScan, day, inputs.promisedTransit);
      ProgressSalesFrame(w5, inputs.salesScan, day, inputs.promisedTransit);
      AppendsTwice(w.ledger, w3.ledger, SalesPasses(r.value, day, inputs).ledger, day);
    }
  }

  // ---- A snapshot keeps its meaning -------------------------------------------------------------

  lemma LaterRowsDoNotCount(before: seq<Txn>, after: seq<Txn>, day: int, p: nat, wh: nat, upTo: int)
    requires AppendsOn(before, after, day) && upTo < day
    ensures Sum(after, AtPairUpTo(p, wh, upTo)) == Sum(before, AtPairUpTo(p, wh, upTo))
  {
    assert after == before + after[|before|..];
    SumConcat(before, after[|before|..], AtPairUpTo(p, wh, upTo));
    SumZero(after[|before|..], AtPairUpTo(p, wh, upTo));
  }

  lemma AllRowsCount(ledger: seq<Txn>, p: nat, wh: nat, today: int)
    requires DatedBy(ledger, today)
    ensures Sum(ledger, AtPairUpTo(p, wh, today)) == Sum(ledger, AtPair(p, wh))
  {
    SumPointwise(ledger, AtPairUpTo(p, wh, today), AtPair(p, wh));
  }

  /** A tick writes exact snapshots and leaves the stored ones exact. */
  lemma TickKeepsSnapshotsExact(w: World, day: int, inputs: TickInputs)
    requires Good(w) && DatedBy(w.ledger, day - 1) && SnapshotsExact(w)
    requires forall key :: key in w.snapshots ==> key.day < day
    ensures var r := Tick(w, day, inputs); r.Some? ==> DatedBy(r.value.ledger, day) && SnapshotsExact(r.value)
  {
    var r := Tick(w, day, inputs);
    if r.Some? {
      TickBooksToday(w, day, inputs);
      StillDated(w.ledger, r.value.ledger, day);
      forall key | key in r.value.snapshots
        ensures r.value.snapshots[key].onHand == Sum(r.value.ledger, AtPairUpTo(key.product, key.warehouse, key.day))
      {
        if key in w.snapshots {
          TickFrame(w, day, inputs);
          LaterRowsDoNotCount(w.ledger, r.value.ledger, day, key.product, key.warehouse, key.day);
        } else {
          SnapshotIsThePosition(w, day, inputs, key.product, key.warehouse);
          AllRowsCount(r.value.ledger, key.product, key.warehouse, day);
        }
      }
    }
  }

  lemma StillDated(before: seq<Txn>, after: seq<Txn>, day: int)
    requires DatedBy(before, day - 1) && AppendsOn(before, after, day)
    ensures DatedBy(after, day)
  {
    forall k | 0 <= k < |after| ensures after[k].day <= day {
      if k < |before| {
        assert after[k] == after[..|before|][k];
      }
    }
  }
}
