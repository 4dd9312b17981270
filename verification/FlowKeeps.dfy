/** The remaining passes keep the flow invariants, and so does a whole tick. */
module FlowKeeps {
  import opened Sums
  import opened ReplenishmentPolicy
  import opened FlowTables
  import opened FlowSpec
  import opened FlowInvariants

  lemma OtherRowsKeepReceiptBooks(w: World, rows: seq<Txn>)
    requires ReceiptsBooked(w)
    requires forall k :: 0 <= k < |rows| ==> !rows[k].ref.PoRef?
    ensures ReceiptsBooked(w.(ledger := w.ledger + rows))
  {
    forall i | 0 <= i < |w.pos|
      ensures Sum(w.ledger + rows, ReceiptOf(i)) == Sum(w.ledger, ReceiptOf(i))
    {
      SumConcat(w.ledger, rows, ReceiptOf(i));
      SumZero(rows, ReceiptOf(i));
    }
  }

  // ---- Pass 2: transfers in flight ---------------------------------------------

  lemma StepTransferBooks(w: World, i: nat, day: int)
    requires i < |w.transfers| && TransfersBooked(w)
    ensures TransfersBooked(StepTransfer(w, i, day))
  {
    var v, rows := StepTransfer(w, i, day), TransferTxns(w.transfers[i], i, day);
    forall j, kind | 0 <= j < |w.transfers|
      ensures Sum(v.ledger, BookedFor(j, kind))
           == Sum(w.ledger, BookedFor(j, kind)) + if rows != [] && j == i && kind == TransferIn then 1 else 0
    {
      SumConcat(w.ledger, rows, BookedFor(j, kind));
    }
    forall k | 0 <= k < |v.ledger|
      ensures BooksTransfer(v.ledger[k], v.transfers)
    {
      if k < |w.ledger| {
        assert BooksTransfer(w.ledger[k], w.transfers);
      }
    }
  }

  lemma StepTransferConserves(w: World, i: nat, day: int, p: nat)
    requires i < |w.transfers| && Conserved(w, p)
    ensures Conserved(StepTransfer(w, i, day), p)
  {
    var t := w.transfers[i];
    SumConcat(w.ledger, TransferTxns(t, i, day), OfProduct(p));
    SumUpdate(w.transfers, i, NextTransfer(t, day), InFlight(p));
  }

  lemma StepTransferGood(w: World, i: nat, day: int)
    requires i < |w.transfers| && Good(w)
    ensures Good(StepTransfer(w, i, day))
  {
    var v, rows := StepTransfer(w, i, day), TransferTxns(w.transfers[i], i, day);
    assert TransferOk(w.transfers[i]);
    assert RowsOk(v);
    ArrivalsKeepNonNegative(w.ledger, rows);
    OtherRowsKeepReceiptBooks(w, rows);
    StepTransferBooks(w, i, day);
    forall p: nat ensures Conserved(v, p) { StepTransferConserves(w, i, day, p); }
    forall p: nat, wh: nat ensures Replenishments(v, p, wh) <= 1 {
      SumUpdate(w.transfers, i, v.transfers[i], OpenInbound(p, wh));
      assert Replenishments(w, p, wh) <= 1;
    }
  }

  lemma {:induction false} ProgressTransfersGood(w: World, n: nat, day: int)
    requires n <= |w.transfers| && Good(w)
    ensures Good(ProgressTransfers(w, n, day))
  {
    if n > 0 {
      var v := ProgressTransfers(w, n - 1, day);
      assert Good(v) by { ProgressTransfersGood(w, n - 1, day); }
      assert Good(StepTransfer(v, n - 1, day)) by { StepTransferGood(v, n - 1, day); }
    }
  }

  // ---- Pass 3: new transfers --------------------------------------------------------

  lemma ReservedNonNegative(w: World, p: nat, wh: nat)
    requires SalesOk(w.sales)
    ensures Reserved(w, p, wh) >= 0
  {
    forall i | 0 <= i < |w.sales| ensures ReservedAt(p, wh)(w.sales[i]) >= 0 {
      assert SaleOk(w.sales[i]);
      SumNonNegative(w.sales[i].lines, Outstanding(p));
    }
    SumNonNegative(w.sales, ReservedAt(p, wh));
  }

  lemma ReplenishmentsNonNegative(w: World, p: nat, wh: nat)
    ensures OpenPoCount(w, p, wh) >= 0 && OpenInboundCount(w, p, wh) >= 0
  {
    forall i | 0 <= i < |w.pos| ensures OpenPoRows(p, wh)(w.pos[i]) >= 0 {
      SumNonNegative(w.pos[i].lines, PoLineOf(p));
    }
    SumNonNegative(w.pos, OpenPoRows(p, wh));
    SumNonNegative(w.transfers, OpenInbound(p, wh));
  }

  /** The transfer a recipient gets this step, if it gets one. */
  lemma NewTransferStep(w: World, p: nat, wh: nat, whs: seq<nat>, day: int) returns (donor: nat, quantity: int)
    ensures var v := StepNewTransfer(w, p, wh, whs, day);
            || v == w
            || (&& v == AddTransfer(w, p, donor, wh, quantity, day)
                && donor in whs && donor != wh
                && !HasOpenReplenishment(w, p, wh)
                && IsLow(w, p, wh, day)
                && 0 < quantity <= Surplus(w, p, donor, day))
  {
    donor, quantity := 0, 0;
    var deficit := Deficit(w, p, wh, day);
    var picked := PickTransferDonor(Donors(w, p, wh, whs, day));
    if picked.Some? {
      donor := picked.value.warehouse;
      quantity := if deficit < picked.value.surplus then deficit else picked.value.surplus;
    }
  }

  lemma AddTransferBooks(w: World, p: nat, source: nat, target: nat, quantity: int, day: int)
    requires TransfersBooked(w)
    ensures TransfersBooked(AddTransfer(w, p, source, target, quantity, day))
  {
    var v := AddTransfer(w, p, source, target, quantity, day);
    var n := |w.transfers|;
    var row := v.ledger[|w.ledger|];
    forall k | 0 <= k < |v.ledger|
      ensures BooksTransfer(v.ledger[k], v.transfers)
    {
      if k < |w.ledger| {
        assert BooksTransfer(w.ledger[k], w.transfers);
      }
    }
    forall i, kind | 0 <= i <= n
      ensures Sum(v.ledger, BookedFor(i, kind))
           == Sum(w.ledger, BookedFor(i, kind)) + if i == n && kind == TransferOut then 1 else 0
    {
      SumAppend(w.ledger, row, BookedFor(i, kind));
    }
    forall kind ensures Sum(w.ledger, BookedFor(n, kind)) == 0 {
      forall k | 0 <= k < |w.ledger| ensures BookedFor(n, kind)(w.ledger[k]) == 0 {
        assert BooksTransfer(w.ledger[k], w.transfers);
      }
      SumZero(w.ledger, BookedFor(n, kind));
    }
  }

  lemma AddTransferGood(w: World, p: nat, source: nat, target: nat, quantity: int, day: int)
    requires Good(w) && source != target && 0 < quantity <= Position(w, p, source)
    requires !HasOpenReplenishment(w, p, target)
    ensures Good(AddTransfer(w, p, source, target, quantity, day))
  {
    var v := AddTransfer(w, p, source, target, quantity, day);
    var row, t := v.ledger[|w.ledger|], v.transfers[|w.transfers|];
    assert RowsOk(v);
    AppendKeepsNonNegative(w.ledger, row);
    OtherRowsKeepReceiptBooks(w, [row]);
    AddTransferBooks(w, p, source, target, quantity, day);
    forall q: nat ensures Conserved(v, q) {
      assert Conserved(w, q);
      SumAppend(w.ledger, row, OfProduct(q));
      SumAppend(w.transfers, t, InFlight(q));
    }
    forall q: nat, wh: nat ensures Replenishments(v, q, wh) <= 1 {
      SumAppend(w.transfers, t, OpenInbound(q, wh));
      ReplenishmentsNonNegative(w, q, wh);
      assert Replenishments(w, q, wh) <= 1;
    }
  }

  lemma StepNewTransferGood(w: World, p: nat, wh: nat, whs: seq<nat>, day: int)
    requires Good(w)
    ensures Good(StepNewTransfer(w, p, wh, whs, day))
  {
    var donor, quantity := NewTransferStep(w, p, wh, whs, day);
    if StepNewTransfer(w, p, wh, whs, day) != w {
      ReservedNonNegative(w, p, donor);
      AddTransferGood(w, p, donor, wh, quantity, day);
    }
  }

  lemma {:induction false} TransfersForGood(w: World, p: nat, whs: seq<nat>, n: nat, day: int)
    requires n <= |whs| && Good(w)
    ensures Good(TransfersFor(w, p, whs, n, day))
  {
    if n > 0 {
      TransfersForGood(w, p, whs, n - 1, day);
      StepNewTransferGood(TransfersFor(w, p, whs, n - 1, day), p, whs[n - 1], whs, day);
    }
  }

  lemma {:induction false} CreateTransfersGood(w: World, products: seq<nat>, whs: seq<nat>, day: int)
    requires Good(w)
    ensures Good(CreateTransfers(w, products, whs, day))
    decreases |products|
  {
    if products != [] {
      var front := products[..|products| - 1];
      CreateTransfersGood(w, front, whs, day);
      TransfersForGood(CreateTransfers(w, front, whs, day), products[|products| - 1], whs, |whs|, day);
    }
  }

  // ---- Pass 4: new purchase orders ------------------------------------------------------

  lemma SingleLine(l: PoLine, f: PoLine -> int)
    ensures Sum([l], f) == f(l)
  {
    assert [] + [l] == [l];
    SumAppend([], l, f);
  }

  lemma StepNewPoGood(w: World, p: nat, wh: nat, day: int, inputs: TickInputs)
    requires Good(w)
    ensures var r := StepNewPo(w, p, wh, day, inputs); r.Some? ==> Good(r.value)
  {
    var r := StepNewPo(w, p, wh, day, inputs);
    if r.Some? && r.value != w {
      var v, n := r.value, |w.pos|;
      var po := v.pos[n];
      var l := po.lines[0];
      assert v == w.(pos := w.pos + [po]) && po.lines == [l];
      assert !(l.received >= l.ordered);
      assert RowsOk(v);
      SingleLine(l, AnyReceived());
      forall k | 0 <= k < |w.ledger| ensures ReceiptOf(n)(w.ledger[k]) == 0 {
        assert RefersToPo(w.ledger[k], n);
      }
      SumZero(w.ledger, ReceiptOf(n));
      assert ReceiptsBooked(v);
      forall q: nat ensures Conserved(v, q) {
        assert Conserved(w, q);
        SingleLine(l, ReceivedQty(q));
        SumAppend(w.pos, po, ReceivedOf(q));
      }
      forall q: nat, h: nat ensures Replenishments(v, q, h) <= 1 {
        SingleLine(l, PoLineOf(q));
        SumAppend(w.pos, po, OpenPoRows(q, h));
        ReplenishmentsNonNegative(w, q, h);
        assert Replenishments(w, q, h) <= 1;
      }
    }
  }

  lemma {:induction false} PosForGood(w: World, p: nat, n: nat, day: int, inputs: TickInputs)
    requires n <= |inputs.warehouses| && Good(w)
    ensures var r := PosFor(w, p, n, day, inputs); r.Some? ==> Good(r.value)
  {
    if n > 0 {
      PosForGood(w, p, n - 1, day, inputs);
      var r := PosFor(w, p, n - 1, day, inputs);
      if r.Some? {
        StepNewPoGood(r.value, p, inputs.warehouses[n - 1], day, inputs);
      }
    }
  }

  lemma {:induction false} CreatePosGood(w: World, n: nat, day: int, inputs: TickInputs)
    requires n <= |inputs.products| && Good(w)
    ensures var r := CreatePos(w, n, day, inputs); r.Some? ==> Good(r.value)
  {
    if n > 0 {
      CreatePosGood(w, n - 1, day, inputs);
      var r := CreatePos(w, n - 1, day, inputs);
      if r.Some? {
        PosForGood(r.value, inputs.products[n - 1], |inputs.warehouses|, day, inputs);
      }
    }
  }

  // ---- Pass 5: sales orders ---------------------------------------------------------------

  lemma ShipLineGood(w: World, i: nat, j: nat, day: int)
    requires i < |w.sales| && j < |w.sales[i].lines| && Good(w)
    ensures Good(ShipLine(w, i, j, day))
  {
    var v := ShipLine(w, i, j, day);
    var so := w.sales[i];
    var l := so.lines[j];
    if Ships(w, so, l) {
      var row := v.ledger[|w.ledger|];
      assert v.ledger == w.ledger + [row];
      assert SaleOk(so);
      assert RowsOk(v);
      AppendKeepsNonNegative(w.ledger, row);
      OtherRowsKeepReceiptBooks(w, [row]);
      OtherRowsKeepTransferBooks(w, [row]);
      forall p: nat ensures Conserved(v, p) {
        assert Conserved(w, p);
        SumAppend(w.ledger, row, OfProduct(p));
        SumUpdate(so.lines, j, l.(shipped := l.ordered), ShippedQty(p));
        SumUpdate(w.sales, i, v.sales[i], ShippedOf(p));
      }
      forall p: nat, wh: nat ensures Replenishments(v, p, wh) <= 1 {
        assert Replenishments(w, p, wh) <= 1;
      }
    }
  }

  lemma {:induction false} ShipLinesGood(w: World, i: nat, n: nat, day: int)
    requires i < |w.sales| && n <= |w.sales[i].lines| && Good(w)
    ensures Good(ShipLines(w, i, n, day))
  {
    if n > 0 {
      var v := ShipLines(w, i, n - 1, day);
      assert Good(v) by { ShipLinesGood(w, i, n - 1, day); }
      assert Good(ShipLine(v, i, n - 1, day)) by { ShipLineGood(v, i, n - 1, day); }
    }
  }

  /** Changing only an order's header, or only the shipments, changes no unit. */
  lemma HeaderChangeGood(w: World, i: nat, so: SalesOrder, shipments: seq<Shipment>)
    requires i < |w.sales| && so.lines == w.sales[i].lines && Good(w)
    ensures Good(w.(sales := w.sales[i := so], shipments := shipments))
  {
    var v := w.(sales := w.sales[i := so], shipments := shipments);
    assert SaleOk(w.sales[i]);
    assert RowsOk(v);
    forall p: nat ensures Conserved(v, p) {
      assert Conserved(w, p);
      SumUpdate(w.sales, i, so, ShippedOf(p));
    }
    forall p: nat, wh: nat ensures Replenishments(v, p, wh) <= 1 {
      assert Replenishments(w, p, wh) <= 1;
    }
  }

  lemma StepSaleGood(w: World, i: nat, day: int, transit: Option<nat>)
    requires Good(w)
    ensures Good(StepSale(w, i, day, transit))
  {
    var v := StepSale(w, i, day, transit);
    if v != w {
      var so := w.sales[i];
      if so.status == SoSubmitted {
        HeaderChangeGood(w, i, v.sales[i], w.shipments);
      } else {
        ShipLinesGood(w, i, |so.lines|, day);
        HeaderChangeGood(ShipLines(w, i, |so.lines|, day), i, v.sales[i], v.shipments);
      }
    }
  }

  lemma {:induction false} ProgressSalesGood(w: World, scan: seq<nat>, day: int, transit: nat -> Option<nat>)
    requires Good(w)
    ensures Good(ProgressSales(w, scan, day, transit))
    decreases |scan|
  {
    if scan != [] {
      var front, i := scan[..|scan| - 1], scan[|scan| - 1];
      ProgressSalesGood(w, front, day, transit);
      StepSaleGood(ProgressSales(w, front, day, transit), i, day, transit(i));
    }
  }

  // ---- Passes 6 and 7, and the tick ---------------------------------------------------------

  lemma {:induction false} CreateSalesGood(w: World, orders: seq<NewOrder>, day: int)
    requires Good(w)
    ensures Good(w.(sales := CreateSales(w.sales, orders, day)))
    decreases |orders|
  {
    if orders == [] {
      assert w.(sales := CreateSales(w.sales, orders, day)) == w;
    } else {
      var front := orders[..|orders| - 1];
      CreateSalesGood(w, front, day);
      var before := w.(sales := CreateSales(w.sales, front, day));
      var so := NewSale(orders[|orders| - 1], day);
      var v := before.(sales := before.sales + [so]);
      assert SaleOk(so);
      assert RowsOk(v);
      forall p: nat ensures Conserved(v, p) {
        assert Conserved(before, p);
        SumAppend(before.sales, so, ShippedOf(p));
        SumZero(so.lines, ShippedQty(p));
      }
      forall p: nat, wh: nat ensures Replenishments(v, p, wh) <= 1 {
        assert Replenishments(before, p, wh) <= 1;
      }
    }
  }

  /** Shipments and snapshots carry no units of their own. */
  lemma SideTablesGood(w: World, shipments: seq<Shipment>, snapshots: map<SnapshotKey, Snapshot>)
    requires Good(w)
    ensures Good(w.(shipments := shipments, snapshots := snapshots))
  {
    var v := w.(shipments := shipments, snapshots := snapshots);
    forall p: nat ensures Conserved(v, p) { assert Conserved(w, p); }
    forall p: nat, wh: nat ensures Replenishments(v, p, wh) <= 1 {
      assert Replenishments(w, p, wh) <= 1;
    }
  }

  lemma SalesPassesGood(w: World, day: int, inputs: TickInputs)
    requires Good(w)
    ensures Good(SalesPasses(w, day, inputs))
  {
    var shipments := ProgressShipments(w.shipments, |w.shipments|, day, inputs.delay);
    SideTablesGood(w, shipments, w.snapshots);
    var w5 := w.(shipments := shipments);
    assert w5 == w.(shipments := shipments, snapshots := w.snapshots);
    ProgressSalesGood(w5, inputs.salesScan, day, inputs.promisedTransit);
    CreateSalesGood(ProgressSales(w5, inputs.salesScan, day, inputs.promisedTransit), inputs.newOrders, day);
  }

  lemma BeforeNewPosGood(w: World, day: int, inputs: TickInputs)
    requires Good(w)
    ensures Good(BeforeNewPos(w, day, inputs))
  {
    ProgressPosGood(w, |w.pos|, day, inputs.rolls);
    var w1 := ProgressPos(w, |w.pos|, day, inputs.rolls);
    ProgressTransfersGood(w1, |w1.transfers|, day);
    CreateTransfersGood(ProgressTransfers(w1, |w1.transfers|, day), inputs.products, inputs.warehouses, day);
  }

  /** Whatever the draws, scan order and master data, a tick that does not
      raise keeps every flow invariant. */
  lemma TickGood(w: World, day: int, inputs: TickInputs)
    requires Good(w)
    ensures var r := Tick(w, day, inputs); r.Some? ==> Good(r.value)
  {
    BeforeNewPosGood(w, day, inputs);
    var w3 := BeforeNewPos(w, day, inputs);
    CreatePosGood(w3, |inputs.products|, day, inputs);
    var r := CreatePos(w3, |inputs.products|, day, inputs);
    if r.Some? {
      SalesPassesGood(r.value, day, inputs);
      var w7 := SalesPasses(r.value, day, inputs);
      SideTablesGood(w7, w7.shipments, AfterNewPos(r.value, day, inputs).snapshots);
    }
  }

  lemma EmptyWorldGood()
    ensures Good(EMPTY_WORLD)
  {
    forall p: nat ensures Conserved(EMPTY_WORLD, p) {}
    forall p: nat, wh: nat ensures Replenishments(EMPTY_WORLD, p, wh) <= 1 {}
  }
}
