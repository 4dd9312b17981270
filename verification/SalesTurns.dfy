/** The sales pass order by order and line by line, what it reserves, and what
    an order's status says about its lines in every run. */
module SalesTurns {
  import opened Sums
  import opened ReplenishmentPolicy
  import opened FlowTables
  import opened FlowSpec
  import opened FlowInvariants
  import opened FlowKeeps
  import opened FlowGuarantees

  predicate IsFull(l: SoLine) {
    l.shipped == l.ordered
  }

  // ---- One line's turn ---------------------------------------------------------------------------

  /** An outstanding line ships in full exactly when the stock on hand covers it. */
  predicate LineTurn(v: World, u: World, i: nat, j: nat, day: int) {
    && i < |v.sales| && j < |v.sales[i].lines|
    && var so, l := v.sales[i], v.sales[i].lines[j];
       if l.shipped < l.ordered && Position(v, l.product, so.warehouse) >= l.ordered - l.shipped then
         u == v.(
           ledger := v.ledger + [Txn(day, l.product, so.warehouse, Shipped, -(l.ordered - l.shipped), SoRef(i))],
           sales := v.sales[i := so.(lines := so.lines[j := l.(shipped := l.ordered)])])
       else u == v
  }

  /** The lines of an order have their turns in sequence; each meets the line as
      the order brought it. */
  lemma LineTurns(w: World, i: nat, j: nat, day: int)
    requires i < |w.sales| && j < |w.sales[i].lines|
    ensures LineTurn(ShipLines(w, i, j, day), ShipLines(w, i, j + 1, day), i, j, day)
    ensures ShipLines(w, i, j, day).sales[i].lines[j] == w.sales[i].lines[j]
    ensures j == 0 ==> ShipLines(w, i, j, day) == w
  {
    LinesSoFar(w, i, j, day);
  }

  /** After n turns the first n lines are as they were or full, the others untouched. */
  lemma {:induction false} LinesSoFar(w: World, i: nat, n: nat, day: int)
    requires i < |w.sales| && n <= |w.sales[i].lines|
    ensures var v := ShipLines(w, i, n, day);
            && |v.sales| == |w.sales| && |v.sales[i].lines| == |w.sales[i].lines|
            && v.sales == w.sales[i := w.sales[i].(lines := v.sales[i].lines)]
            && (forall k :: n <= k < |w.sales[i].lines| ==> v.sales[i].lines[k] == w.sales[i].lines[k])
            && (forall k :: 0 <= k < n ==>
                  var l := w.sales[i].lines[k];
                  v.sales[i].lines[k] == l || (l.shipped < l.ordered && v.sales[i].lines[k] == l.(shipped := l.ordered)))
  {
    if n > 0 {
      LinesSoFar(w, i, n - 1, day);
    }
  }

  // ---- One order's turn --------------------------------------------------------------------------

  /** A submitted order is allocated exactly when every line is on hand. */
  predicate SubmittedTurn(v: World, u: World, i: nat, day: int)
    requires i < |v.sales|
  {
    var so := v.sales[i];
    if forall j :: 0 <= j < |so.lines| ==>
      Position(v, so.lines[j].product, so.warehouse) >= so.lines[j].ordered - so.lines[j].shipped
    then u == v.(sales := v.sales[i := so.(status := SoAllocated, promisedDay := Some(day + 2))])
    else u == v
  }

  /** From s, the tables after the line turns: shipped when every line is full,
      with one shipment if there is a carrier, and partially shipped otherwise. */
  predicate Settled(s: World, u: World, i: nat, day: int, transit: Option<nat>)
    requires i < |s.sales|
  {
    var so := s.sales[i];
    if forall j :: 0 <= j < |so.lines| ==> so.lines[j].shipped >= so.lines[j].ordered then
      u == s.(
        sales := s.sales[i := so.(status := SoShipped)],
        shipments := s.shipments +
          if transit.Some? then [Shipment(i, so.warehouse, day, day + transit.value, None, ShPending)] else [])
    else u == s.(sales := s.sales[i := so.(status := SoPartiallyShipped)])
  }

  predicate SaleTurn(v: World, u: World, i: nat, day: int, transit: Option<nat>) {
    if i >= |v.sales| then u == v
    else if v.sales[i].status == SoSubmitted then SubmittedTurn(v, u, i, day)
    else if v.sales[i].status == SoAllocated || v.sales[i].status == SoPartiallyShipped then
      var s := ShipLines(v, i, |v.sales[i].lines|, day);
      if s.sales[i].lines == v.sales[i].lines then u == v else Settled(s, u, i, day, transit)
    else u == v
  }

  lemma SettleSettles(s: World, i: nat, day: int, transit: Option<nat>)
    requires i < |s.sales|
    ensures Settled(s, SettleOrder(s, i, day, transit), i, day, transit)
  {
    assert s.shipments + [] == s.shipments;
  }

  lemma StepIsSaleTurn(w: World, i: nat, day: int, transit: Option<nat>)
    ensures SaleTurn(w, StepSale(w, i, day, transit), i, day, transit)
  {
    if i < |w.sales| && IsReserving(w.sales[i].status) {
      SettleSettles(ShipLines(w, i, |w.sales[i].lines|, day), i, day, transit);
    }
  }

  /** The sales pass is one such turn after the other, over the whole scan. */
  lemma SalesPassTurns(w: World, scan: seq<nat>, n: nat, day: int, transit: nat -> Option<nat>)
    requires n < |scan|
    ensures SaleTurn(ProgressSales(w, scan[..n], day, transit), ProgressSales(w, scan[..n + 1], day, transit), scan[n], day, transit(scan[n]))
    ensures n == 0 ==> ProgressSales(w, scan[..n], day, transit) == w
    ensures n == |scan| - 1 ==> ProgressSales(w, scan[..n + 1], day, transit) == ProgressSales(w, scan, day, transit)
  {
    assert scan[..n + 1][..n] == scan[..n];
    StepIsSaleTurn(ProgressSales(w, scan[..n], day, transit), scan[n], day, transit(scan[n]));
    if n == |scan| - 1 {
      assert scan[..n + 1] == scan;
    }
  }

  /** A new order: submitted, of the day, with every line as asked and nothing shipped. */
  predicate IsNewOrder(so: SalesOrder, o: NewOrder, day: int) {
    && so.customer == o.customer && so.warehouse == o.warehouse && so.orderDay == day
    && so.promisedDay.None? && so.status == SoSubmitted && |so.lines| == |o.asks|
    && forall k :: 0 <= k < |o.asks| ==> so.lines[k] == SoLine(o.asks[k].product, o.asks[k].quantity, 0)
  }

  lemma {:induction false} NewOrdersAppended(sales: seq<SalesOrder>, orders: seq<NewOrder>, day: int)
    ensures var r := CreateSales(sales, orders, day);
            && |r| == |sales| + |orders| && r[..|sales|] == sales
            && forall k :: 0 <= k < |orders| ==> IsNewOrder(r[|sales| + k], orders[k], day)
    decreases |orders|
  {
    if orders != [] {
      var front := orders[..|orders| - 1];
      NewOrdersAppended(sales, front, day);
      var r := CreateSales(sales, orders, day);
      assert r[..|sales|] == CreateSales(sales, front, day)[..|sales|];
      forall k | 0 <= k < |orders| ensures IsNewOrder(r[|sales| + k], orders[k], day) {
        if k < |front| {
          assert r[|sales| + k] == CreateSales(sales, front, day)[|sales| + k];
        }
      }
    }
  }

  // ---- Reservations ----------------------------------------------------------------------------------

  function Free(w: World, p: nat, wh: nat): int {
    Position(w, p, wh) - Reserved(w, p, wh)
  }

  /** Shipping a line takes exactly as much from the shelf as from the reservation. */
  lemma LineKeepsFree(w: World, i: nat, j: nat, day: int, p: nat, wh: nat)
    requires i < |w.sales| && j < |w.sales[i].lines|
    requires w.sales[i].status == SoAllocated || w.sales[i].status == SoPartiallyShipped
    ensures Free(ShipLine(w, i, j, day), p, wh) == Free(w, p, wh)
  {
    var so, l, v := w.sales[i], w.sales[i].lines[j], ShipLine(w, i, j, day);
    if v != w {
      var filled := l.(shipped := l.ordered);
      SumUpdate(so.lines, j, filled, Outstanding(p));
      SumUpdate(w.sales, i, so.(lines := so.lines[j := filled]), ReservedAt(p, wh));
      SumAppend(w.ledger, Txn(day, l.product, so.warehouse, Shipped, l.shipped - l.ordered, SoRef(i)), AtPair(p, wh));
    }
  }

  lemma {:induction false} LinesKeepFree(w: World, i: nat, n: nat, day: int, p: nat, wh: nat)
    requires i < |w.sales| && n <= |w.sales[i].lines|
    requires w.sales[i].status == SoAllocated || w.sales[i].status == SoPartiallyShipped
    ensures Free(ShipLines(w, i, n, day), p, wh) == Free(w, p, wh)
  {
    if n > 0 {
      LinesKeepFree(w, i, n - 1, day, p, wh);
      LineKeepsFree(ShipLines(w, i, n - 1, day), i, n - 1, day, p, wh);
    }
  }

  lemma FullOutstandsNothing(lines: seq<SoLine>, p: nat)
    requires forall j :: 0 <= j < |lines| ==> lines[j].shipped == lines[j].ordered
    ensures Sum(lines, Outstanding(p)) == 0
  {
    SumZero(lines, Outstanding(p));
  }

  /** Settling an order frees and reserves nothing. */
  lemma SettleKeepsFree(w: World, i: nat, day: int, transit: Option<nat>, p: nat, wh: nat)
    requires i < |w.sales| && SaleOk(w.sales[i])
    requires w.sales[i].status == SoAllocated || w.sales[i].status == SoPartiallyShipped
    ensures Free(SettleOrder(w, i, day, transit), p, wh) == Free(w, p, wh)
  {
    var so := w.sales[i];
    var after := SettleOrder(w, i, day, transit).sales[i];
    SumUpdate(w.sales, i, after, ReservedAt(p, wh));
    if AllShipped(so.lines) {
      FullOutstandsNothing(so.lines, p);
    }
  }

  /** The turn of an allocated or partially shipped order leaves the free stock
      of every pair alone; allocating an order reserves exactly its outstanding units. */
  lemma TurnReserves(w: World, i: nat, day: int, transit: Option<nat>, p: nat, wh: nat)
    requires i < |w.sales| && SalesOk(w.sales)
    ensures var u, so := StepSale(w, i, day, transit), w.sales[i];
            Free(u, p, wh) == Free(w, p, wh) -
              if so.status == SoSubmitted && u.sales[i].status == SoAllocated && so.warehouse == wh then Sum(so.lines, Outstanding(p)) else 0
  {
    var so := w.sales[i];
    if so.status == SoSubmitted {
      SumUpdate(w.sales, i, so.(status := SoAllocated, promisedDay := Some(day + GENERIC_PROMISE_DAYS)), ReservedAt(p, wh));
    } else if IsReserving(so.status) {
      var s := ShipLines(w, i, |so.lines|, day);
      LinesKeepFree(w, i, |so.lines|, day, p, wh);
      LinesSoFar(w, i, |so.lines|, day);
      SettleKeepsFree(s, i, day, transit, p, wh);
    }
  }

  // ---- What a status says ----------------------------------------------------------------------------

  /** Lines are all or nothing, and the status tells which: nothing shipped
      before and after allocation, some and not all when partially shipped, all
      exactly when shipped. */
  predicate StatusTells(so: SalesOrder) {
    && (so.status == SoSubmitted || so.status == SoAllocated || so.status == SoPartiallyShipped || so.status == SoShipped)
    && (forall j :: 0 <= j < |so.lines| ==> so.lines[j].ordered >= 1 && (so.lines[j].shipped == 0 || IsFull(so.lines[j])))
    && (so.status == SoSubmitted || so.status == SoAllocated ==> forall j :: 0 <= j < |so.lines| ==> so.lines[j].shipped == 0)
    && (so.status == SoPartiallyShipped ==>
          && (exists j :: 0 <= j < |so.lines| && IsFull(so.lines[j]))
          && (exists j :: 0 <= j < |so.lines| && !IsFull(so.lines[j])))
    && (|so.lines| > 0 ==> (so.status == SoShipped <==> forall j :: 0 <= j < |so.lines| ==> IsFull(so.lines[j])))
  }

  predicate StatusesTell(sales: seq<SalesOrder>) {
    forall i :: 0 <= i < |sales| ==> StatusTells(sales[i])
  }

  lemma SettledTells(before: SalesOrder, lines: seq<SoLine>, after: SalesOrder)
    requires StatusTells(before) && (before.status == SoAllocated || before.status == SoPartiallyShipped)
    requires |lines| == |before.lines| && lines != before.lines
    requires forall k :: 0 <= k < |lines| ==>
      lines[k] == before.lines[k] || lines[k] == before.lines[k].(shipped := before.lines[k].ordered)
    requires after == before.(lines := lines, status := if AllShipped(lines) then SoShipped else SoPartiallyShipped)
    ensures StatusTells(after)
  {
    var k :| 0 <= k < |lines| && lines[k] != before.lines[k];
    assert IsFull(lines[k]);
    if !AllShipped(lines) {
      var j :| 0 <= j < |lines| && lines[j].shipped < lines[j].ordered;
      assert !IsFull(lines[j]);
    }
  }

  lemma TurnTells(w: World, i: nat, day: int, transit: Option<nat>)
    requires StatusesTell(w.sales)
    ensures StatusesTell(StepSale(w, i, day, transit).sales)
  {
    if i < |w.sales| && IsReserving(w.sales[i].status) {
      var so, s := w.sales[i], ShipLines(w, i, |w.sales[i].lines|, day);
      LinesSoFar(w, i, |so.lines|, day);
      if s.sales[i].lines != so.lines {
        SettledTells(so, s.sales[i].lines, StepSale(w, i, day, transit).sales[i]);
      }
    }
  }

  lemma {:induction false} SalesPassTells(w: World, scan: seq<nat>, day: int, transit: nat -> Option<nat>)
    requires StatusesTell(w.sales)
    ensures StatusesTell(ProgressSales(w, scan, day, transit).sales)
    decreases |scan|
  {
    if scan != [] {
      var front, i := scan[..|scan| - 1], scan[|scan| - 1];
      SalesPassTells(w, front, day, transit);
      TurnTells(ProgressSales(w, front, day, transit), i, day, transit(i));
    }
  }

  lemma NewOrderTells(so: SalesOrder, o: NewOrder, day: int)
    requires IsNewOrder(so, o, day)
    ensures StatusTells(so)
  {
    if |so.lines| > 0 {
      assert !IsFull(so.lines[0]);
    }
  }

  lemma NewOrdersTell(sales: seq<SalesOrder>, orders: seq<NewOrder>, day: int)
    requires StatusesTell(sales)
    ensures StatusesTell(CreateSales(sales, orders, day))
  {
    NewOrdersAppended(sales, orders, day);
    var r := CreateSales(sales, orders, day);
    forall i | 0 <= i < |r| ensures StatusTells(r[i]) {
      if i < |sales| {
        assert r[i] == r[..|sales|][i];
      } else {
        NewOrderTells(r[i], orders[i - |sales|], day);
      }
    }
  }

  /** A tick keeps what statuses tell. */
  lemma TickTells(w: World, day: int, inputs: TickInputs)
    requires StatusesTell(w.sales)
    ensures var r := Tick(w, day, inputs); r.Some? ==> StatusesTell(r.value.sales)
  {
    var w1 := ProgressPos(w, |w.pos|, day, inputs.rolls);
    ProgressPosFrame(w, |w.pos|, day, inputs.rolls);
    ProgressTransfersFrame(w1, |w1.transfers|, day);
    CreateTransfersFrame(ProgressTransfers(w1, |w1.transfers|, day), inputs.products, inputs.warehouses, day);
    var w3 := BeforeNewPos(w, day, inputs);
    CreatePosOnlyAdds(w3, |inputs.products|, day, inputs);
    var r := CreatePos(w3, |inputs.products|, day, inputs);
    if r.Some? {
      SalesTell(r.value, day, inputs);
    }
  }

  lemma SalesTell(w: World, day: int, inputs: TickInputs)
    requires StatusesTell(w.sales)
    ensures StatusesTell(SalesPasses(w, day, inputs).sales)
  {
    var w5 := w.(shipments := ProgressShipments(w.shipments, |w.shipments|, day, inputs.delay));
    SalesPassTells(w5, inputs.salesScan, day, inputs.promisedTransit);
    NewOrdersTell(ProgressSales(w5, inputs.salesScan, day, inputs.promisedTransit).sales, inputs.newOrders, day);
  }
}
