/** The scheduled flow as the service runs it: loops that update the tables in
    place, append to the ledger and, when creating transfers, debit a local
    dictionary of positions instead of asking the ledger again
    (backend/app/services/scheduled_flow.py).  Each method is proved to leave
    exactly the tables FlowSpec describes. */
module Flow {
  import opened Sums
  import opened ReplenishmentPolicy
  import opened FlowTables
  import opened FlowSpec
  import opened FlowInvariants
  import opened FlowGuarantees

  /** The per-product dictionaries read once before the recipients are served. */
  datatype Stock = Stock(positions: map<nat, int>, reserved: map<nat, int>, demands: map<nat, real>)

  predicate Mirrors(stock: Stock, w: World, p: nat, whs: seq<nat>, day: int) {
    forall h :: h in whs ==>
      && h in stock.positions && stock.positions[h] == Position(w, p, h)
      && h in stock.reserved && stock.reserved[h] == Reserved(w, p, h)
      && h in stock.demands && stock.demands[h] == DailyDemand(w, p, h, day)
  }

  lemma DebitMirrors(stock: Stock, w: World, p: nat, donor: nat, target: nat, quantity: int, whs: seq<nat>, day: int)
    requires donor in whs && Mirrors(stock, w, p, whs, day)
    ensures Mirrors(stock.(positions := stock.positions[donor := stock.positions[donor] - quantity]),
                    AddTransfer(w, p, donor, target, quantity, day), p, whs, day)
  {
    forall h | h in whs
      ensures var v := AddTransfer(w, p, donor, target, quantity, day);
              && Position(v, p, h) == stock.positions[h] - (if h == donor then quantity else 0)
              && Reserved(v, p, h) == stock.reserved[h]
              && DailyDemand(v, p, h, day) == stock.demands[h]
    {
      AddTransferFrame(w, p, donor, target, quantity, day, p, h, day);
    }
  }

  class ScheduledFlow {
    var ledger: seq<Txn>
    var pos: seq<PurchaseOrder>
    var transfers: seq<Transfer>
    var sales: seq<SalesOrder>
    var shipments: seq<Shipment>
    var snapshots: map<SnapshotKey, Snapshot>

    constructor ()
      ensures State() == EMPTY_WORLD
    {
      ledger, pos, transfers, sales, shipments, snapshots := [], [], [], [], [], map[];
    }

    function State(): World
      reads this
    {
      World(ledger, pos, transfers, sales, shipments, snapshots)
    }

    /** What a rollback leaves. */
    method Restore(saved: World)
      modifies this
      ensures State() == saved
    {
      ledger, pos, transfers, sales, shipments, snapshots :=
        saved.ledger, saved.pos, saved.transfers, saved.sales, saved.shipments, saved.snapshots;
    }

    static method ReceiveLine(line: PoLine, id: nat, wh: nat, day: int, roll: Roll)
      returns (after: PoLine, rows: seq<Txn>, short: bool)
      ensures after == Receive(line, roll)
      ensures rows == LineReceipt(line, id, wh, day, roll)
      ensures short <==> after.received < after.ordered
    {
      after, rows, short := line, [], false;
      var remaining := line.ordered - line.received;
      if remaining > 0 {
        var quantity := ReceiveQuantity(remaining, roll);
        short := quantity < remaining;
        rows := [Txn(day, line.product, wh, Receipt, quantity, PoRef(id))];
        after := line.(received := line.received + quantity);
      }
    }

    /** The line loop of one receiving order: updated lines, receipts to book,
        and whether every line is now complete. */
    static method ReceiveOrderLines(po: PurchaseOrder, id: nat, day: int, roll: Roll)
      returns (lines: seq<PoLine>, rows: seq<Txn>, fullyReceived: bool)
      ensures lines == ReceiveLines(po.lines, roll)
      ensures rows == ReceiptRows(po.lines, id, po.warehouse, day, roll)
      ensures fullyReceived <==> AllReceived(lines)
    {
      lines, rows, fullyReceived := [], [], true;
      for j := 0 to |po.lines|
        invariant lines == ReceiveLines(po.lines[..j], roll)
        invariant rows == ReceiptRows(po.lines[..j], id, po.warehouse, day, roll)
        invariant fullyReceived <==> AllReceived(lines)
      {
        ReceiveOneMore(po.lines, j, id, po.warehouse, day, roll, lines, rows);
        var line, receipt, short := ReceiveLine(po.lines[j], id, po.warehouse, day, roll);
        if short {
          fullyReceived := false;
        }
        AllReceivedOneMore(lines, line);
        lines, rows := lines + [line], rows + receipt;
      }
      assert po.lines[..|po.lines|] == po.lines;
    }

    method ProgressPurchaseOrder(i: nat, day: int, roll: Roll)
      requires i < |pos|
      modifies this
      ensures State() == StepPo(old(State()), i, day, roll)
    {
      var po := pos[i];
      if po.status == PoSubmitted {
        pos := pos[i := po.(status := PoConfirmed)];
      } else if IsOpenPo(po.status) && day >= po.expectedDay {
        var lines, rows, fullyReceived := ReceiveOrderLines(po, i, day, roll);
        ledger := ledger + rows;
        pos := pos[i := po.(lines := lines, status := if fullyReceived then PoReceived else PoPartiallyReceived)];
      }
    }

    method ProgressPurchaseOrders(day: int, rolls: nat -> Roll)
      modifies this
      ensures State() == ProgressPos(old(State()), |old(pos)|, day, rolls)
    {
      for i := 0 to |pos|
        invariant |pos| == |old(pos)|
        invariant State() == ProgressPos(old(State()), i, day, rolls)
      {
        ProgressPurchaseOrder(i, day, rolls(i));
      }
    }

    method ProgressWarehouseTransfers(day: int)
      modifies this
      ensures State() == ProgressTransfers(old(State()), |old(transfers)|, day)
    {
      for i := 0 to |transfers|
        invariant |transfers| == |old(transfers)|
        invariant State() == ProgressTransfers(old(State()), i, day)
      {
        var t := transfers[i];
        if t.status == TrPending {
          transfers := transfers[i := t.(status := TrInTransit)];
        } else if t.status == TrInTransit && day >= t.day + WAREHOUSE_TRANSFER_TRANSIT_DAYS {
          transfers := transfers[i := t.(status := TrCompleted)];
          ledger := ledger + [Txn(day, t.product, t.target, TransferIn, t.quantity, TransferRef(i))];
        }
      }
    }

    /** The donor list, sized from the local dictionaries. */
    method DonorCandidates(p: nat, wh: nat, whs: seq<nat>, day: int, stock: Stock) returns (candidates: seq<Candidate>)
      requires Mirrors(stock, State(), p, whs, day)
      ensures candidates == Donors(State(), p, wh, whs, day)
    {
      candidates := [];
      for k := 0 to |whs|
        invariant candidates == Donors(State(), p, wh, whs[..k], day)
      {
        assert whs[..k + 1][..k] == whs[..k];
        var donor := whs[k];
        if donor != wh {
          candidates := candidates + [Candidate(donor,
            TransferableSurplus(stock.positions[donor], stock.reserved[donor], stock.demands[donor], REORDER_SAFETY_DAYS))];
        }
      }
      assert whs[..|whs|] == whs;
    }

    method AppendTransfer(p: nat, donor: nat, target: nat, quantity: int, day: int)
      modifies this
      ensures State() == AddTransfer(old(State()), p, donor, target, quantity, day)
    {
      ledger := ledger + [Txn(day, p, donor, TransferOut, -quantity, TransferRef(|transfers|))];
      transfers := transfers + [Transfer(p, donor, target, quantity, day, TrPending)];
    }

    /** One recipient against the donor pool; a donor is debited in the local
        dictionary, which stays equal to the live query. */
    method ServeRecipient(p: nat, wh: nat, whs: seq<nat>, day: int, stock: Stock) returns (debited: Stock)
      requires wh in whs && Mirrors(stock, State(), p, whs, day)
      modifies this
      ensures State() == StepNewTransfer(old(State()), p, wh, whs, day)
      ensures Mirrors(debited, State(), p, whs, day)
    {
      debited := stock;
      var deficit := WarehouseDeficit(stock.positions[wh], stock.demands[wh], REORDER_SAFETY_DAYS);
      if HasOpenReplenishment(State(), p, wh) || deficit <= 0 {
        return;
      }
      var candidates := DonorCandidates(p, wh, whs, day, stock);
      var picked := PickTransferDonor(candidates);
      if picked.Some? {
        var donor := picked.value.warehouse;
        var quantity := if deficit < picked.value.surplus then deficit else picked.value.surplus;
        AppendTransfer(p, donor, wh, quantity, day);
        debited := stock.(positions := stock.positions[donor := stock.positions[donor] - quantity]);
        assert Mirrors(debited, State(), p, whs, day) by {
          DebitMirrors(stock, old(State()), p, donor, wh, quantity, whs, day);
        }
      }
    }

    method CreateTransfersForProduct(p: nat, whs: seq<nat>, day: int)
      modifies this
      ensures State() == TransfersFor(old(State()), p, whs, |whs|, day)
    {
      var start := State();
      var stock := Stock(
        map h | h in whs :: Position(start, p, h),
        map h | h in whs :: Reserved(start, p, h),
        map h | h in whs :: DailyDemand(start, p, h, day));
      for n := 0 to |whs|
        invariant State() == TransfersFor(start, p, whs, n, day)
        invariant Mirrors(stock, State(), p, whs, day)
      {
        stock := ServeRecipient(p, whs[n], whs, day, stock);
      }
    }

    method CreateWarehouseTransfersIfNeeded(products: seq<nat>, whs: seq<nat>, day: int)
      modifies this
      ensures State() == CreateTransfers(old(State()), products, whs, day)
    {
      for k := 0 to |products|
        invariant State() == CreateTransfers(old(State()), products[..k], whs, day)
      {
        assert products[..k + 1][..k] == products[..k];
        CreateTransfersForProduct(products[k], whs, day);
      }
      assert products[..|products|] == products;
    }

    /** raised: the product needed an order and had no matching supplier. */
    method CreateOrdersForProduct(p: nat, day: int, inputs: TickInputs) returns (raised: bool)
      modifies this
      ensures var r := PosFor(old(State()), p, |inputs.warehouses|, day, inputs);
              if raised then r.None? else r == Some(State())
    {
      for n := 0 to |inputs.warehouses|
        invariant PosFor(old(State()), p, n, day, inputs) == Some(State())
      {
        var wh := inputs.warehouses[n];
        if !HasOpenReplenishment(State(), p, wh) {
          var demand := DailyDemand(State(), p, wh, day);
          if IsBelowReorderPoint(Position(State(), p, wh), demand, REORDER_SAFETY_DAYS) {
            var supplier := inputs.supplierFor(p);
            if supplier.None? {
              PosForRaises(old(State()), p, n + 1, |inputs.warehouses|, day, inputs);
              return true;
            }
            var quantity := ReorderQuantity(demand, REORDER_TARGET_DAYS_OF_SUPPLY);
            pos := pos + [PurchaseOrder(supplier.value, wh, day, day + inputs.leadTime(p, wh), PoSubmitted,
                                        [PoLine(p, quantity, 0)])];
          }
        }
      }
      return false;
    }

    method CreatePurchaseOrdersIfNeeded(day: int, inputs: TickInputs) returns (raised: bool)
      modifies this
      ensures var r := CreatePos(old(State()), |inputs.products|, day, inputs);
              if raised then r.None? else r == Some(State())
    {
      for k := 0 to |inputs.products|
        invariant CreatePos(old(State()), k, day, inputs) == Some(State())
      {
        raised := CreateOrdersForProduct(inputs.products[k], day, inputs);
        if raised {
          CreatePosRaises(old(State()), k + 1, |inputs.products|, day, inputs);
          return;
        }
      }
      return false;
    }

    method ProgressShipmentsPass(day: int, delay: nat -> nat)
      modifies this
      ensures State() == old(State()).(
                shipments := ProgressShipments(old(shipments), |old(shipments)|, day, delay))
    {
      for i := 0 to |shipments|
        invariant |shipments| == |old(shipments)|
        invariant shipments == ProgressShipments(old(shipments), i, day, delay)
        invariant State() == old(State()).(shipments := shipments)
      {
        var s := shipments[i];
        if s.status == ShPending {
          shipments := shipments[i := s.(status := ShInTransit)];
        } else if s.status == ShInTransit {
          var promisedTransit := s.promisedDay - s.shipDay;
          var actualDay := s.shipDay + (promisedTransit + delay(i));
          if day >= actualDay {
            shipments := shipments[i := s.(status := ShDelivered, actualDay := Some(actualDay))];
          }
        }
      }
    }

    method ShipOrderLines(i: nat, day: int) returns (shippedAnyLine: bool)
      requires i < |sales|
      modifies this
      ensures |sales| == |old(sales)| && State() == ShipLines(old(State()), i, |old(sales)[i].lines|, day)
      ensures shippedAnyLine <==> sales[i].lines != old(sales)[i].lines
      ensures !shippedAnyLine ==> State() == old(State())
    {
      ghost var start := State();
      shippedAnyLine := false;
      var count := |sales[i].lines|;
      for j := 0 to count
        invariant |sales| == |start.sales| && |sales[i].lines| == count
        invariant State() == ShipLines(start, i, j, day)
        invariant shippedAnyLine <==> sales[i].lines != start.sales[i].lines
      {
        ShippedGrows(start, i, j, day);
        var so := sales[i];
        var l := so.lines[j];
        var remaining := l.ordered - l.shipped;
        if remaining > 0 && Position(State(), l.product, so.warehouse) >= remaining {
          ledger := ledger + [Txn(day, l.product, so.warehouse, Shipped, -remaining, SoRef(i))];
          sales := sales[i := so.(lines := so.lines[j := l.(shipped := l.ordered)])];
          shippedAnyLine := true;
          assert sales[i].lines[j] != start.sales[i].lines[j];
        }
      }
      if !shippedAnyLine {
        NothingShipped(start, i, count, day);
      }
    }

    method ProgressSalesOrder(i: nat, day: int, transit: Option<nat>)
      requires i < |sales| && IsReserving(sales[i].status)
      modifies this
      ensures State() == StepSale(old(State()), i, day, transit)
    {
      var shippedAnyLine := ShipOrderLines(i, day);
      if shippedAnyLine {
        var so := sales[i];
        var fullyShipped := AllShipped(so.lines);
        sales := sales[i := so.(status := if fullyShipped then SoShipped else SoPartiallyShipped)];
        if fullyShipped && transit.Some? {
          shipments := shipments + [Shipment(i, so.warehouse, day, day + transit.value, None, ShPending)];
        }
      }
    }

    method ProgressSalesOrders(scan: seq<nat>, day: int, transit: nat -> Option<nat>)
      modifies this
      ensures State() == ProgressSales(old(State()), scan, day, transit)
    {
      for k := 0 to |scan|
        invariant State() == ProgressSales(old(State()), scan[..k], day, transit)
      {
        assert scan[..k + 1][..k] == scan[..k];
        var i := scan[k];
        if i < |sales| {
          var so := sales[i];
          if so.status == SoSubmitted {
            if AllAvailable(State(), so) {
              sales := sales[i := so.(status := SoAllocated, promisedDay := Some(day + GENERIC_PROMISE_DAYS))];
            }
          } else if IsReserving(so.status) {
            ProgressSalesOrder(i, day, transit(i));
          }
        }
      }
      assert scan[..|scan|] == scan;
    }

    method CreateSalesOrdersIfNeeded(orders: seq<NewOrder>, day: int)
      modifies this
      ensures State() == old(State()).(sales := CreateSales(old(sales), orders, day))
    {
      for k := 0 to |orders|
        invariant State() == old(State()).(sales := CreateSales(old(sales), orders[..k], day))
      {
        assert orders[..k + 1][..k] == orders[..k];
        sales := sales + [NewSale(orders[k], day)];
      }
      assert orders[..|orders|] == orders;
    }

    /** SELECT ... SUM(quantity_delta) ... GROUP BY product_id, warehouse_id. */
    method PositionsByKey() returns (byKey: map<(nat, nat), int>)
      ensures forall p: nat, wh: nat :: (if (p, wh) in byKey then byKey[(p, wh)] else 0) == Position(State(), p, wh)
    {
      byKey := map[];
      for k := 0 to |ledger|
        invariant forall p: nat, wh: nat :: (if (p, wh) in byKey then byKey[(p, wh)] else 0) == Sum(ledger[..k], AtPair(p, wh))
      {
        var t := ledger[k];
        var key := (t.product, t.warehouse);
        ghost var before := byKey;
        byKey := byKey[key := (if key in byKey then byKey[key] else 0) + t.delta];
        assert ledger[..k + 1] == ledger[..k] + [t];
        forall p: nat, wh: nat
          ensures (if (p, wh) in byKey then byKey[(p, wh)] else 0) == Sum(ledger[..k + 1], AtPair(p, wh))
        {
          SumAppend(ledger[..k], t, AtPair(p, wh));
          assert (if (p, wh) in before then before[(p, wh)] else 0) == Sum(ledger[..k], AtPair(p, wh));
        }
      }
      assert ledger[..|ledger|] == ledger;
    }

    method SnapshotInventoryPositions(products: seq<nat>, whs: seq<nat>, day: int)
      modifies this`snapshots
      ensures snapshots == old(snapshots) + TodaysSnapshots(old(State()), products, whs, day)
    {
      var byKey := PositionsByKey();
      var rows := map p, wh | p in products && wh in whs :: SnapshotKey(day, p, wh) :=
        Snapshot(AtLeastZero(if (p, wh) in byKey then byKey[(p, wh)] else 0), AtLeastZero(Reserved(State(), p, wh)));
      assert rows == TodaysSnapshots(State(), products, whs, day);
      snapshots := snapshots + rows;
    }

    /** All passes in order; when one raises, the transaction is rolled back. */
    method RunScheduledTick(day: int, inputs: TickInputs) returns (ok: bool)
      modifies this
      ensures var r := Tick(old(State()), day, inputs);
              if ok then r == Some(State()) else r.None? && State() == old(State())
    {
      var saved := State();
      ProgressPurchaseOrders(day, inputs.rolls);
      ProgressWarehouseTransfers(day);
      CreateWarehouseTransfersIfNeeded(inputs.products, inputs.warehouses, day);
      var raised := CreatePurchaseOrdersIfNeeded(day, inputs);
      if raised {
        Restore(saved);
        return false;
      }
      ProgressShipmentsPass(day, inputs.delay);
      ProgressSalesOrders(inputs.salesScan, day, inputs.promisedTransit);
      CreateSalesOrdersIfNeeded(inputs.newOrders, day);
      SnapshotInventoryPositions(inputs.products, inputs.warehouses, day);
      return true;
    }
  }

  lemma ReceiveOneMore(all: seq<PoLine>, j: nat, id: nat, wh: nat, day: int, roll: Roll, lines: seq<PoLine>, rows: seq<Txn>)
    requires j < |all|
    requires lines == ReceiveLines(all[..j], roll) && rows == ReceiptRows(all[..j], id, wh, day, roll)
    ensures lines + [Receive(all[j], roll)] == ReceiveLines(all[..j + 1], roll)
    ensures rows + LineReceipt(all[j], id, wh, day, roll) == ReceiptRows(all[..j + 1], id, wh, day, roll)
  {
    assert all[..j + 1][..j] == all[..j];
  }

  lemma AllReceivedOneMore(lines: seq<PoLine>, line: PoLine)
    ensures AllReceived(lines + [line]) <==> AllReceived(lines) && line.received >= line.ordered
  {
    assert (lines + [line])[|lines|] == line;
    assert forall k :: 0 <= k < |lines| ==> (lines + [line])[k] == lines[k];
  }

  lemma {:induction false} PosForRaises(w: World, p: nat, n: nat, m: nat, day: int, inputs: TickInputs)
    requires n <= m <= |inputs.warehouses| && PosFor(w, p, n, day, inputs).None?
    ensures PosFor(w, p, m, day, inputs).None?
    decreases m
  {
    if n < m {
      PosForRaises(w, p, n, m - 1, day, inputs);
    }
  }

  lemma {:induction false} CreatePosRaises(w: World, n: nat, m: nat, day: int, inputs: TickInputs)
    requires n <= m <= |inputs.products| && CreatePos(w, n, day, inputs).None?
    ensures CreatePos(w, m, day, inputs).None?
    decreases m
  {
    if n < m {
      CreatePosRaises(w, n, m - 1, day, inputs);
    }
  }

  /** An order whose lines did not move moved nothing else either. */
  lemma {:induction false} NothingShipped(w: World, i: nat, n: nat, day: int)
    requires i < |w.sales| && n <= |w.sales[i].lines|
    requires ShipLines(w, i, n, day).sales[i].lines == w.sales[i].lines
    ensures ShipLines(w, i, n, day) == w
  {
    if n > 0 {
      ShippedGrows(w, i, n - 1, day);
      var v := ShipLines(w, i, n - 1, day);
      assert v.sales[i].lines == w.sales[i].lines by {
        forall m | 0 <= m < |w.sales[i].lines| ensures v.sales[i].lines[m] == w.sales[i].lines[m] {}
      }
      NothingShipped(w, i, n - 1, day);
    }
  }

  lemma {:induction false} ShippedGrows(w: World, i: nat, n: nat, day: int)
    requires i < |w.sales| && n <= |w.sales[i].lines|
    ensures var v := ShipLines(w, i, n, day);
            && |v.sales| == |w.sales| && |v.sales[i].lines| == |w.sales[i].lines|
            && (forall m :: n <= m < |w.sales[i].lines| ==> v.sales[i].lines[m] == w.sales[i].lines[m])
            && (forall m :: 0 <= m < n ==>
                  (|| v.sales[i].lines[m] == w.sales[i].lines[m]
                   || v.sales[i].lines[m].shipped > w.sales[i].lines[m].shipped))
  {
    if n > 0 {
      ShippedGrows(w, i, n - 1, day);
    }
  }
}
