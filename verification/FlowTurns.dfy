/** The creation passes turn by turn: which transfer and which order each pair
    gets, against the tables just before its turn. */
module FlowTurns {
  import opened Sums
  import opened ReplenishmentPolicy
  import opened FlowTables
  import opened FlowSpec
  import opened FlowInvariants
  import opened FlowKeeps
  import opened FlowGuarantees

  predicate IsShort(w: World, p: nat, wh: nat, day: int) {
    Position(w, p, wh) as real < Threshold(w, p, wh, day)
  }

  /** No open order has a line for the pair and no transfer is on its way to it. */
  predicate NothingOpen(w: World, p: nat, wh: nat) {
    && (forall i, j :: 0 <= i < |w.pos| && 0 <= j < |w.pos[i].lines| && w.pos[i].warehouse == wh && w.pos[i].lines[j].product == p ==>
          w.pos[i].status != PoSubmitted && w.pos[i].status != PoConfirmed && w.pos[i].status != PoPartiallyReceived)
    && (forall i :: 0 <= i < |w.transfers| && w.transfers[i].product == p && w.transfers[i].target == wh ==>
          w.transfers[i].status != TrPending && w.transfers[i].status != TrInTransit)
  }

  /** A unit of the warehouse's unreserved stock lies above its own threshold. */
  predicate CanGive(w: World, p: nat, wh: nat, day: int) {
    (Position(w, p, wh) - Reserved(w, p, wh) - 1) as real >= Threshold(w, p, wh, day)
  }

  // ---- The threshold in units ---------------------------------------------------------------------

  /** The reorder threshold is what the pair shipped in the last 14 days, or 10 if that is more. */
  lemma ThresholdIsRecentShipments(w: World, p: nat, wh: nat, day: int)
    ensures var shipped := Sum(w.ledger, ShippedSince(p, wh, day - 14));
            Threshold(w, p, wh, day) == if shipped > 10 then shipped as real else 10.0
  {
  }

  /** A ledger row counts as recent demand exactly when it ships the pair's
      product and is at most 14 days old. */
  lemma DemandCounts(ledger: seq<Txn>, t: Txn, p: nat, wh: nat, day: int)
    ensures Sum(ledger + [t], ShippedSince(p, wh, day - 14)) == Sum(ledger, ShippedSince(p, wh, day - 14)) +
            if t.kind == Shipped && t.product == p && t.warehouse == wh && day - t.day <= 14 then -t.delta else 0
  {
    SumAppend(ledger, t, ShippedSince(p, wh, day - 14));
  }

  // ---- Counting and looking agree --------------------------------------------------------------

  lemma {:induction false} SumPositiveIff<T>(s: seq<T>, f: T -> int)
    requires forall i :: 0 <= i < |s| ==> f(s[i]) >= 0
    ensures Sum(s, f) >= 0
    ensures Sum(s, f) > 0 <==> exists i :: 0 <= i < |s| && f(s[i]) > 0
    decreases |s|
  {
    if s != [] {
      var front := s[..|s| - 1];
      SumPositiveIff(front, f);
      if Sum(front, f) > 0 {
        var i :| 0 <= i < |front| && f(front[i]) > 0;
        assert f(s[i]) > 0;
      }
    }
  }

  lemma OpenPoPositive(po: PurchaseOrder, p: nat, wh: nat)
    ensures OpenPoRows(p, wh)(po) >= 0
    ensures OpenPoRows(p, wh)(po) > 0 <==>
      && (po.status == PoSubmitted || po.status == PoConfirmed || po.status == PoPartiallyReceived)
      && po.warehouse == wh && exists j :: 0 <= j < |po.lines| && po.lines[j].product == p
  {
    SumPositiveIff(po.lines, PoLineOf(p));
    if exists j :: 0 <= j < |po.lines| && po.lines[j].product == p {
      var j :| 0 <= j < |po.lines| && po.lines[j].product == p;
      assert PoLineOf(p)(po.lines[j]) > 0;
    }
  }

  lemma NoOpenOrderIff(w: World, p: nat, wh: nat)
    ensures OpenPoCount(w, p, wh) == 0 <==>
      forall i, j :: 0 <= i < |w.pos| && 0 <= j < |w.pos[i].lines| && w.pos[i].warehouse == wh && w.pos[i].lines[j].product == p ==>
        w.pos[i].status != PoSubmitted && w.pos[i].status != PoConfirmed && w.pos[i].status != PoPartiallyReceived
    ensures OpenPoCount(w, p, wh) >= 0
  {
    forall i | 0 <= i < |w.pos| ensures OpenPoRows(p, wh)(w.pos[i]) >= 0 {
      OpenPoPositive(w.pos[i], p, wh);
    }
    SumPositiveIff(w.pos, OpenPoRows(p, wh));
    if OpenPoCount(w, p, wh) > 0 {
      var i :| 0 <= i < |w.pos| && OpenPoRows(p, wh)(w.pos[i]) > 0;
      OpenPoPositive(w.pos[i], p, wh);
    } else {
      forall i, j | 0 <= i < |w.pos| && 0 <= j < |w.pos[i].lines| && w.pos[i].warehouse == wh && w.pos[i].lines[j].product == p
        ensures w.pos[i].status != PoSubmitted && w.pos[i].status != PoConfirmed && w.pos[i].status != PoPartiallyReceived
      {
        OpenPoPositive(w.pos[i], p, wh);
      }
    }
  }

  lemma NoInboundIff(w: World, p: nat, wh: nat)
    ensures OpenInboundCount(w, p, wh) == 0 <==>
      forall i :: 0 <= i < |w.transfers| && w.transfers[i].product == p && w.transfers[i].target == wh ==>
        w.transfers[i].status != TrPending && w.transfers[i].status != TrInTransit
    ensures OpenInboundCount(w, p, wh) >= 0
  {
    SumPositiveIff(w.transfers, OpenInbound(p, wh));
    if OpenInboundCount(w, p, wh) > 0 {
      var i :| 0 <= i < |w.transfers| && OpenInbound(p, wh)(w.transfers[i]) > 0;
    } else {
      forall i | 0 <= i < |w.transfers| && w.transfers[i].product == p && w.transfers[i].target == wh
        ensures w.transfers[i].status != TrPending && w.transfers[i].status != TrInTransit
      {
        assert !(OpenInbound(p, wh)(w.transfers[i]) > 0);
      }
    }
  }

  lemma NothingOpenIff(w: World, p: nat, wh: nat)
    ensures NothingOpen(w, p, wh) <==> !HasOpenReplenishment(w, p, wh)
  {
    NoOpenOrderIff(w, p, wh);
    NoInboundIff(w, p, wh);
  }

  // ---- One recipient's turn ----------------------------------------------------------------------

  /** The lesser of what the recipient lacks and what the donor can spare. */
  predicate RightlySized(v: World, u: World, t: Transfer, day: int) {
    && (Position(v, t.product, t.target) + t.quantity - 1) as real < Threshold(v, t.product, t.target, day)
    && (Position(u, t.product, t.source) - Reserved(u, t.product, t.source)) as real >= Threshold(u, t.product, t.source, day)
    && ((Position(v, t.product, t.target) + t.quantity) as real >= Threshold(v, t.product, t.target, day)
        || !CanGive(u, t.product, t.source, day))
  }

  /** No other warehouse has more to spare, and none with as much has a lesser id. */
  predicate RightlyChosen(v: World, t: Transfer, whs: seq<nat>, day: int) {
    && t.source in whs && t.source != t.target && CanGive(v, t.product, t.source, day)
    && forall d :: d in whs && d != t.target && CanGive(v, t.product, d, day) ==>
         || Surplus(v, t.product, d, day) < Surplus(v, t.product, t.source, day)
         || (Surplus(v, t.product, d, day) == Surplus(v, t.product, t.source, day) && t.source <= d)
  }

  predicate TransferMade(v: World, u: World, t: Transfer, p: nat, wh: nat, day: int) {
    && t == Transfer(p, t.source, wh, t.quantity, day, TrPending) && t.quantity > 0
    && u == v.(transfers := v.transfers + [t],
               ledger := v.ledger + [Txn(day, p, t.source, TransferOut, -t.quantity, TransferRef(|v.transfers|))])
  }

  /** What the turn of (p, wh) does: a short pair with nothing open gets a
      transfer exactly when some other active warehouse can give. */
  predicate TransferTurn(v: World, u: World, p: nat, wh: nat, whs: seq<nat>, day: int) {
    if IsShort(v, p, wh, day) && NothingOpen(v, p, wh) && exists d :: d in whs && d != wh && CanGive(v, p, d, day) then
      && |u.transfers| == |v.transfers| + 1
      && TransferMade(v, u, u.transfers[|v.transfers|], p, wh, day)
      && RightlySized(v, u, u.transfers[|v.transfers|], day)
      && RightlyChosen(v, u.transfers[|v.transfers|], whs, day)
    else u == v
  }

  lemma CanGiveIff(w: World, p: nat, wh: nat, day: int)
    ensures CanGive(w, p, wh, day) <==> Surplus(w, p, wh, day) > 0
  {
    var surplus := Surplus(w, p, wh, day);
    assert surplus > 0 ==> (Position(w, p, wh) - Reserved(w, p, wh) - surplus) as real >= Threshold(w, p, wh, day);
  }

  lemma ShortIff(w: World, p: nat, wh: nat, day: int)
    ensures IsShort(w, p, wh, day) <==> Deficit(w, p, wh, day) > 0
  {
  }

  /** The candidate picked among the donors, and that one is picked when there is one. */
  lemma PickedIsRight(w: World, p: nat, wh: nat, whs: seq<nat>, day: int)
    ensures var picked := PickTransferDonor(Donors(w, p, wh, whs, day));
            && (picked.Some? <==> exists d :: d in whs && d != wh && CanGive(w, p, d, day))
            && (picked.Some? ==>
                  && picked.value.surplus == Surplus(w, p, picked.value.warehouse, day)
                  && RightlyChosen(w, Transfer(p, picked.value.warehouse, wh, 1, day, TrPending), whs, day))
  {
    var donors := Donors(w, p, wh, whs, day);
    var picked := PickTransferDonor(donors);
    forall d | d in whs && d != wh && CanGive(w, p, d, day)
      ensures picked.Some?
      ensures || Surplus(w, p, d, day) < picked.value.surplus
              || (Surplus(w, p, d, day) == picked.value.surplus && picked.value.warehouse <= d)
    {
      CanGiveIff(w, p, d, day);
      assert Candidate(d, Surplus(w, p, d, day)) in donors;
    }
    if picked.Some? {
      CanGiveIff(w, p, picked.value.warehouse, day);
    }
  }

  /** The lesser of deficit and surplus in numbers. */
  lemma LesserIsRight(position: int, threshold: real, free: int, floor: real, deficit: int, surplus: int, quantity: int)
    requires deficit > 0 && surplus > 0 && quantity == if deficit < surplus then deficit else surplus
    requires (position + deficit) as real >= threshold && (position + deficit - 1) as real < threshold
    requires (free - surplus) as real >= floor && (free - surplus - 1) as real < floor
    ensures (position + quantity - 1) as real < threshold && (free - quantity) as real >= floor
    ensures (position + quantity) as real >= threshold || (free - quantity - 1) as real < floor
  {
  }

  lemma AddedIsRight(v: World, p: nat, wh: nat, c: Candidate, quantity: int, day: int)
    requires c.warehouse != wh && c.surplus == Surplus(v, p, c.warehouse, day) > 0
    requires IsShort(v, p, wh, day) && quantity == if Deficit(v, p, wh, day) < c.surplus then Deficit(v, p, wh, day) else c.surplus
    ensures var u := AddTransfer(v, p, c.warehouse, wh, quantity, day);
            TransferMade(v, u, u.transfers[|v.transfers|], p, wh, day) && RightlySized(v, u, u.transfers[|v.transfers|], day)
  {
    var u, deficit := AddTransfer(v, p, c.warehouse, wh, quantity, day), Deficit(v, p, wh, day);
    var position, free := Position(v, p, wh), Position(v, p, c.warehouse) - Reserved(v, p, c.warehouse);
    ShortIff(v, p, wh, day);
    LesserIsRight(position, Threshold(v, p, wh, day), free, Threshold(v, p, c.warehouse, day), deficit, c.surplus, quantity);
    assert Position(u, p, c.warehouse) - Reserved(u, p, c.warehouse) == free - quantity
        && Threshold(u, p, c.warehouse, day) == Threshold(v, p, c.warehouse, day) by {
      AddTransferFrame(v, p, c.warehouse, wh, quantity, day, p, c.warehouse, day);
    }
  }

  lemma StepIsTurn(w: World, p: nat, wh: nat, whs: seq<nat>, day: int)
    ensures TransferTurn(w, StepNewTransfer(w, p, wh, whs, day), p, wh, whs, day)
  {
    NothingOpenIff(w, p, wh);
    ShortIff(w, p, wh, day);
    PickedIsRight(w, p, wh, whs, day);
    var picked := PickTransferDonor(Donors(w, p, wh, whs, day));
    if IsShort(w, p, wh, day) && NothingOpen(w, p, wh) && picked.Some? {
      var deficit, c := Deficit(w, p, wh, day), picked.value;
      AddedIsRight(w, p, wh, c, if deficit < c.surplus then deficit else c.surplus, day);
    }
  }

  // ---- The whole transfer pass ----------------------------------------------------------------------

  /** The tables when the pass comes to warehouse b for product a. */
  function BeforeTurn(w: World, products: seq<nat>, whs: seq<nat>, a: nat, b: nat, day: int): World
    requires a < |products| && b <= |whs|
  {
    TransfersFor(CreateTransfers(w, products[..a], whs, day), products[a], whs, b, day)
  }

  /** The transfer pass is one turn after the other: from w, over every active
      warehouse for every active product, to what the pass leaves. */
  lemma TransferPassTurns(w: World, products: seq<nat>, whs: seq<nat>, a: nat, b: nat, day: int)
    requires a < |products| && b <= |whs|
    ensures b < |whs| ==>
      TransferTurn(BeforeTurn(w, products, whs, a, b, day), BeforeTurn(w, products, whs, a, b + 1, day), products[a], whs[b], whs, day)
    ensures b == 0 ==>
      BeforeTurn(w, products, whs, a, b, day) == if a == 0 then w else BeforeTurn(w, products, whs, a - 1, |whs|, day)
    ensures a == |products| - 1 && b == |whs| ==>
      BeforeTurn(w, products, whs, a, b, day) == CreateTransfers(w, products, whs, day)
  {
    if b < |whs| {
      StepIsTurn(BeforeTurn(w, products, whs, a, b, day), products[a], whs[b], whs, day);
    }
    if a > 0 {
      assert products[..a][..a - 1] == products[..a - 1];
    }
  }

  // ---- One pair's turn in the order pass ---------------------------------------------------------------

  /** The least quantity of at least 20 that covers 30 days of demand. */
  predicate CoversDemand(quantity: int, demand: real) {
    && quantity >= 20 && quantity as real >= demand * 30.0
    && (quantity > 20 ==> (quantity - 1) as real < demand * 30.0)
  }

  predicate OrderPlaced(v: World, po: PurchaseOrder, p: nat, wh: nat, day: int, inputs: TickInputs) {
    && inputs.supplierFor(p) == Some(po.supplier)
    && po.warehouse == wh && po.orderDay == day && po.expectedDay == day + inputs.leadTime(p, wh)
    && po.status == PoSubmitted && |po.lines| == 1
    && po.lines[0] == PoLine(p, po.lines[0].ordered, 0)
    && CoversDemand(po.lines[0].ordered, DailyDemand(v, p, wh, day))
  }

  /** A short pair with nothing open gets one order; every other pair gets none. */
  predicate OrderTurn(v: World, u: World, p: nat, wh: nat, day: int, inputs: TickInputs) {
    if IsShort(v, p, wh, day) && NothingOpen(v, p, wh) then
      && |u.pos| == |v.pos| + 1 && u == v.(pos := v.pos + [u.pos[|v.pos|]])
      && OrderPlaced(v, u.pos[|v.pos|], p, wh, day, inputs)
    else u == v
  }

  lemma StepIsOrderTurn(w: World, p: nat, wh: nat, day: int, inputs: TickInputs)
    ensures var r := StepNewPo(w, p, wh, day, inputs);
            && (r.Some? ==> OrderTurn(w, r.value, p, wh, day, inputs))
            && (r.None? <==> IsShort(w, p, wh, day) && NothingOpen(w, p, wh) && inputs.supplierFor(p).None?)
  {
    NothingOpenIff(w, p, wh);
  }

  /** A short pair with nothing open whose product has no supplier. */
  predicate IsStuck(w: World, p: nat, wh: nat, day: int, inputs: TickInputs) {
    IsShort(w, p, wh, day) && NothingOpen(w, p, wh) && inputs.supplierFor(p).None?
  }

  /** The tables when the pass comes to warehouse b for product a, if it gets there. */
  function BeforeOrder(w: World, a: nat, b: nat, day: int, inputs: TickInputs): Option<World>
    requires a < |inputs.products| && b <= |inputs.warehouses|
  {
    match CreatePos(w, a, day, inputs)
    case None => None
    case Some(v) => PosFor(v, inputs.products[a], b, day, inputs)
  }

  /** So is the order pass, up to the first stuck pair, where it raises, and
      nowhere else. */
  lemma OrderPassTurns(w: World, a: nat, b: nat, day: int, inputs: TickInputs)
    requires a < |inputs.products| && b <= |inputs.warehouses| && BeforeOrder(w, a, b, day, inputs).Some?
    ensures b < |inputs.warehouses| ==>
      var before, after := BeforeOrder(w, a, b, day, inputs).value, BeforeOrder(w, a, b + 1, day, inputs);
      if IsStuck(before, inputs.products[a], inputs.warehouses[b], day, inputs) then after.None?
      else after.Some? && OrderTurn(before, after.value, inputs.products[a], inputs.warehouses[b], day, inputs)
    ensures b == 0 ==>
      BeforeOrder(w, a, b, day, inputs) == if a == 0 then Some(w) else BeforeOrder(w, a - 1, |inputs.warehouses|, day, inputs)
    ensures a == |inputs.products| - 1 && b == |inputs.warehouses| ==>
      BeforeOrder(w, a, b, day, inputs) == CreatePos(w, |inputs.products|, day, inputs)
  {
    if b < |inputs.warehouses| {
      StepIsOrderTurn(BeforeOrder(w, a, b, day, inputs).value, inputs.products[a], inputs.warehouses[b], day, inputs);
    }
  }

  lemma {:induction false} ProductRaises(w: World, p: nat, n: nat, day: int, inputs: TickInputs) returns (b: nat)
    requires n <= |inputs.warehouses| && PosFor(w, p, n, day, inputs).None?
    ensures b < n && PosFor(w, p, b, day, inputs).Some?
    ensures IsStuck(PosFor(w, p, b, day, inputs).value, p, inputs.warehouses[b], day, inputs)
  {
    var before := PosFor(w, p, n - 1, day, inputs);
    if before.None? {
      b := ProductRaises(w, p, n - 1, day, inputs);
    } else {
      b := n - 1;
      StepIsOrderTurn(before.value, p, inputs.warehouses[b], day, inputs);
    }
  }

  /** A pass that raises came to a stuck pair. */
  lemma {:induction false} OrderPassRaises(w: World, n: nat, day: int, inputs: TickInputs) returns (a: nat, b: nat)
    requires n <= |inputs.products| && CreatePos(w, n, day, inputs).None?
    ensures a < n && b < |inputs.warehouses| && BeforeOrder(w, a, b, day, inputs).Some?
    ensures IsStuck(BeforeOrder(w, a, b, day, inputs).value, inputs.products[a], inputs.warehouses[b], day, inputs)
  {
    var before := CreatePos(w, n - 1, day, inputs);
    if before.None? {
      a, b := OrderPassRaises(w, n - 1, day, inputs);
    } else {
      a := n - 1;
      b := ProductRaises(before.value, inputs.products[a], |inputs.warehouses|, day, inputs);
    }
  }
}
