/** What one tick of the flow guarantees beyond the invariants: every shortfall
    is covered, donors keep their own safety stock, receipts finish in
    logarithmic time, and the daily snapshot is the ledger's own position. */
module FlowGuarantees {
  import opened Sums
  import opened ReplenishmentPolicy
  import opened FlowTables
  import opened FlowSpec
  import opened FlowInvariants
  import opened FlowKeeps

  // ---- Positions over all warehouses ------------------------------------------

  function PositionsOver(ledger: seq<Txn>, p: nat, whs: seq<nat>): int {
    if whs == [] then 0
    else PositionsOver(ledger, p, whs[..|whs| - 1]) + Sum(ledger, AtPair(p, whs[|whs| - 1]))
  }

  predicate Distinct(s: seq<nat>) {
    forall i, j :: 0 <= i < j < |s| ==> s[i] != s[j]
  }

  lemma {:induction false} PositionsOverAppend(ledger: seq<Txn>, t: Txn, p: nat, whs: seq<nat>)
    requires Distinct(whs)
    ensures PositionsOver(ledger + [t], p, whs)
         == PositionsOver(ledger, p, whs) + if t.product == p && t.warehouse in whs then t.delta else 0
    decreases |whs|
  {
    if whs != [] {
      var front, last := whs[..|whs| - 1], whs[|whs| - 1];
      PositionsOverAppend(ledger, t, p, front);
      SumAppend(ledger, t, AtPair(p, last));
      assert forall h :: h in whs <==> h in front || h == last;
      assert last !in front;
    }
  }

  lemma {:induction false} EmptyLedgerPositions(p: nat, whs: seq<nat>)
    ensures PositionsOver([], p, whs) == 0
    decreases |whs|
  {
    if whs != [] {
      EmptyLedgerPositions(p, whs[..|whs| - 1]);
    }
  }

  lemma {:induction false} PositionsOverAll(ledger: seq<Txn>, p: nat, whs: seq<nat>)
    requires Distinct(whs) && forall k :: 0 <= k < |ledger| ==> ledger[k].warehouse in whs
    ensures PositionsOver(ledger, p, whs) == Sum(ledger, OfProduct(p))
    decreases |ledger|
  {
    if ledger == [] {
      EmptyLedgerPositions(p, whs);
    } else {
      var front, last := ledger[..|ledger| - 1], ledger[|ledger| - 1];
      PositionsOverAll(front, p, whs);
      PositionsOverAppend(front, last, p, whs);
      assert ledger == front + [last];
    }
  }

  /** Units on hand over all warehouses plus units on the road equal units
      received minus units shipped. */
  lemma UnitsAreConserved(w: World, p: nat, whs: seq<nat>)
    requires Good(w)
    requires Distinct(whs) && forall k :: 0 <= k < |w.ledger| ==> w.ledger[k].warehouse in whs
    ensures PositionsOver(w.ledger, p, whs) + Sum(w.transfers, InFlight(p))
         == Sum(w.pos, ReceivedOf(p)) - Sum(w.sales, ShippedOf(p))
  {
    PositionsOverAll(w.ledger, p, whs);
    assert Conserved(w, p);
  }

  // ---- Donor safety ---------------------------------------------------------------

  /** The donor's unreserved stock is still at or above its own threshold. */
  predicate DonorKept(w: World, p: nat, donor: nat, day: int) {
    (Position(w, p, donor) - Reserved(w, p, donor)) as real >= Threshold(w, p, donor, day)
  }

  lemma DonorIsNotLow(w: World, p: nat, donor: nat, day: int)
    requires SalesOk(w.sales) && DonorKept(w, p, donor, day)
    ensures !IsLow(w, p, donor, day)
  {
    ReservedNonNegative(w, p, donor);
  }

  /** A transfer moves the donor's position and nothing else the pass reads. */
  lemma AddTransferFrame(w: World, p: nat, source: nat, target: nat, quantity: int, day: int, q: nat, wh: nat, now: int)
    ensures var v := AddTransfer(w, p, source, target, quantity, day);
            && Position(v, q, wh) == Position(w, q, wh) - (if q == p && wh == source then quantity else 0)
            && DailyDemand(v, q, wh, now) == DailyDemand(w, q, wh, now)
            && Reserved(v, q, wh) == Reserved(w, q, wh)
            && OpenPoCount(v, q, wh) == OpenPoCount(w, q, wh)
            && OpenInboundCount(v, q, wh) == OpenInboundCount(w, q, wh) + if q == p && wh == target then 1 else 0
  {
    var v := AddTransfer(w, p, source, target, quantity, day);
    SumAppend(w.ledger, v.ledger[|w.ledger|], AtPair(q, wh));
    SumAppend(w.ledger, v.ledger[|w.ledger|], ShippedSince(q, wh, now - DEMAND_LOOKBACK_DAYS));
    SumAppend(w.transfers, v.transfers[|w.transfers|], OpenInbound(q, wh));
  }

  /** Every transfer created since row n left its donor at its threshold and
      went to a warehouse that is itself still short. */
  predicate DonorsSafe(w: World, n: nat, day: int) {
    forall i :: n <= i < |w.transfers| ==>
      && DonorKept(w, w.transfers[i].product, w.transfers[i].source, day)
      && IsLow(w, w.transfers[i].product, w.transfers[i].target, day)
  }

  lemma AddTransferSafe(w: World, p: nat, donor: nat, target: nat, quantity: int, day: int, n: nat)
    requires SalesOk(w.sales) && n <= |w.transfers| && DonorsSafe(w, n, day)
    requires donor != target && IsLow(w, p, target, day) && 0 < quantity <= Surplus(w, p, donor, day)
    ensures DonorsSafe(AddTransfer(w, p, donor, target, quantity, day), n, day)
  {
    var v := AddTransfer(w, p, donor, target, quantity, day);
    assert DonorKept(w, p, donor, day);
    DonorIsNotLow(w, p, donor, day);
    forall i | n <= i < |v.transfers|
      ensures DonorKept(v, v.transfers[i].product, v.transfers[i].source, day)
      ensures IsLow(v, v.transfers[i].product, v.transfers[i].target, day)
    {
      var t := v.transfers[i];
      assert i < |w.transfers| ==> t == w.transfers[i];
      AddTransferFrame(w, p, donor, target, quantity, day, t.product, t.source, day);
      AddTransferFrame(w, p, donor, target, quantity, day, t.product, t.target, day);
    }
  }

  lemma StepNewTransferSafe(w: World, p: nat, wh: nat, whs: seq<nat>, day: int, n: nat)
    requires SalesOk(w.sales) && n <= |w.transfers| && DonorsSafe(w, n, day)
    ensures var v := StepNewTransfer(w, p, wh, whs, day); n <= |v.transfers| && DonorsSafe(v, n, day)
  {
    var donor, quantity := NewTransferStep(w, p, wh, whs, day);
    if StepNewTransfer(w, p, wh, whs, day) != w {
      AddTransferSafe(w, p, donor, wh, quantity, day, n);
    }
  }

  lemma {:induction false} TransfersForSafe(w: World, p: nat, whs: seq<nat>, k: nat, day: int, n: nat)
    requires k <= |whs| && SalesOk(w.sales) && n <= |w.transfers| && DonorsSafe(w, n, day)
    ensures var v := TransfersFor(w, p, whs, k, day); n <= |v.transfers| && DonorsSafe(v, n, day)
  {
    if k > 0 {
      var v := TransfersFor(w, p, whs, k - 1, day);
      assert n <= |v.transfers| && DonorsSafe(v, n, day) by { TransfersForSafe(w, p, whs, k - 1, day, n); }
      assert v.sales == w.sales by { TransfersForFrame(w, p, whs, k - 1, day); }
      StepNewTransferSafe(v, p, whs[k - 1], whs, day, n);
    }
  }

  lemma {:induction false} CreateTransfersSafe(w: World, products: seq<nat>, whs: seq<nat>, day: int, n: nat)
    requires SalesOk(w.sales) && n == |w.transfers|
    ensures var v := CreateTransfers(w, products, whs, day); n <= |v.transfers| && DonorsSafe(v, n, day)
    decreases |products|
  {
    if products != [] {
      var front := products[..|products| - 1];
      CreateTransfersSafe(w, front, whs, day, n);
      CreateTransfersFrame(w, front, whs, day);
      TransfersForSafe(CreateTransfers(w, front, whs, day), products[|products| - 1], whs, |whs|, day, n);
    }
  }

  // ---- What the purchase-order pass adds ---------------------------------------------

  predicate IsFreshPo(po: PurchaseOrder, day: int) {
    && po.status == PoSubmitted && po.orderDay == day && po.expectedDay > day
    && |po.lines| == 1 && po.lines[0].ordered >= 1 && po.lines[0].received == 0
  }

  predicate PlacedForShortfall(w: World, po: PurchaseOrder, day: int) {
    IsFreshPo(po, day) && IsLow(w, po.lines[0].product, po.warehouse, day)
  }

  /** v is w with orders appended, each for a pair that was short. */
  predicate OnlyAddsPos(w: World, v: World, day: int) {
    && v == w.(pos := v.pos)
    && |w.pos| <= |v.pos|
    && v.pos[..|w.pos|] == w.pos
    && forall i :: |w.pos| <= i < |v.pos| ==> PlacedForShortfall(w, v.pos[i], day)
  }

  lemma StepNewPoOnlyAdds(w: World, p: nat, wh: nat, day: int, inputs: TickInputs)
    ensures var r := StepNewPo(w, p, wh, day, inputs); r.Some? ==> OnlyAddsPos(w, r.value, day)
  {
  }

  lemma {:induction false} PosForOnlyAdds(w: World, p: nat, n: nat, day: int, inputs: TickInputs)
    requires n <= |inputs.warehouses|
    ensures var r := PosFor(w, p, n, day, inputs); r.Some? ==> OnlyAddsPos(w, r.value, day)
  {
    if n > 0 {
      PosForOnlyAdds(w, p, n - 1, day, inputs);
      var s := PosFor(w, p, n - 1, day, inputs);
      if s.Some? {
        StepNewPoOnlyAdds(s.value, p, inputs.warehouses[n - 1], day, inputs);
        var r := PosFor(w, p, n, day, inputs);
        if r.Some? {
          ComposeAdds(w, s.value, r.value, day);
        }
      }
    }
  }

  lemma {:induction false} CreatePosOnlyAdds(w: World, n: nat, day: int, inputs: TickInputs)
    requires n <= |inputs.products|
    ensures var r := CreatePos(w, n, day, inputs); r.Some? ==> OnlyAddsPos(w, r.value, day)
  {
    if n > 0 {
      CreatePosOnlyAdds(w, n - 1, day, inputs);
      var r := CreatePos(w, n - 1, day, inputs);
      if r.Some? {
        PosForOnlyAdds(r.value, inputs.products[n - 1], |inputs.warehouses|, day, inputs);
        var s := PosFor(r.value, inputs.products[n - 1], |inputs.warehouses|, day, inputs);
        if s.Some? {
          ComposeAdds(w, r.value, s.value, day);
        }
      }
    }
  }

  lemma ComposeAdds(w: World, v: World, u: World, day: int)
    requires OnlyAddsPos(w, v, day) && OnlyAddsPos(v, u, day)
    ensures OnlyAddsPos(w, u, day)
  {
    assert u.pos[..|w.pos|] == u.pos[..|v.pos|][..|w.pos|];
    forall i | |w.pos| <= i < |u.pos| ensures PlacedForShortfall(w, u.pos[i], day) {
      if i < |v.pos| {
        assert u.pos[i] == u.pos[..|v.pos|][i];
      } else {
        assert PlacedForShortfall(v, u.pos[i], day);
      }
    }
  }

  /** Over all recipients of all products in one tick: every donor keeps its
      unreserved threshold, no warehouse both gives and gets a product, and
      giving never makes a warehouse order the product the same day. */
  lemma DonorSafety(w: World, day: int, inputs: TickInputs)
    requires Good(w)
    ensures var n, w3 := |w.transfers|, BeforeNewPos(w, day, inputs);
            && n <= |w3.transfers|
            && (forall i :: n <= i < |w3.transfers| ==>
                  DonorKept(w3, w3.transfers[i].product, w3.transfers[i].source, day))
            && (forall i, j :: n <= i < |w3.transfers| && n <= j < |w3.transfers| ==>
                  w3.transfers[i].product == w3.transfers[j].product ==>
                  w3.transfers[i].source != w3.transfers[j].target)
            && var r := CreatePos(w3, |inputs.products|, day, inputs);
               r.Some? ==>
                 && |w3.pos| <= |r.value.pos|
                 && forall i, k :: n <= i < |w3.transfers| && |w3.pos| <= k < |r.value.pos| ==>
                      && |r.value.pos[k].lines| == 1
                      && !(&& r.value.pos[k].warehouse == w3.transfers[i].source
                           && r.value.pos[k].lines[0].product == w3.transfers[i].product)
  {
    var n, w3 := |w.transfers|, BeforeNewPos(w, day, inputs);
    SafeAfterTransfers(w, day, inputs);
    BeforeNewPosGood(w, day, inputs);
    forall i | n <= i < |w3.transfers|
      ensures !IsLow(w3, w3.transfers[i].product, w3.transfers[i].source, day)
    {
      DonorIsNotLow(w3, w3.transfers[i].product, w3.transfers[i].source, day);
    }
    CreatePosOnlyAdds(w3, |inputs.products|, day, inputs);
  }

  lemma SafeAfterTransfers(w: World, day: int, inputs: TickInputs)
    requires SalesOk(w.sales)
    ensures |w.transfers| <= |BeforeNewPos(w, day, inputs).transfers|
    ensures DonorsSafe(BeforeNewPos(w, day, inputs), |w.transfers|, day)
  {
    var w1 := ProgressPos(w, |w.pos|, day, inputs.rolls);
    ProgressPosFrame(w, |w.pos|, day, inputs.rolls);
    ProgressTransfersFrame(w1, |w1.transfers|, day);
    var w2 := ProgressTransfers(w1, |w1.transfers|, day);
    CreateTransfersSafe(w2, inputs.products, inputs.warehouses, day, |w2.transfers|);
  }

  /** From w to v the first n orders moved one step and nothing but the ledger changed besides. */
  predicate OrdersMoved(w: World, v: World, n: nat, day: int, rolls: nat -> Roll) {
    && v == w.(ledger := v.ledger, pos := v.pos) && |v.pos| == |w.pos|
    && forall i :: 0 <= i < |w.pos| ==> v.pos[i] == if i < n then NextPo(w.pos[i], day, rolls(i)) else w.pos[i]
  }

  lemma StepPoMoves(w: World, v: World, n: nat, day: int, rolls: nat -> Roll)
    requires n < |w.pos| && OrdersMoved(w, v, n, day, rolls)
    ensures OrdersMoved(w, StepPo(v, n, day, rolls(n)), n + 1, day, rolls)
  {
    var u, row := StepPo(v, n, day, rolls(n)), NextPo(w.pos[n], day, rolls(n));
    assert u.pos == v.pos[n := row];
  }

  lemma {:induction false} ProgressPosFrame(w: World, n: nat, day: int, rolls: nat -> Roll)
    requires n <= |w.pos|
    ensures OrdersMoved(w, ProgressPos(w, n, day, rolls), n, day, rolls)
  {
    if n > 0 {
      ProgressPosFrame(w, n - 1, day, rolls);
      StepPoMoves(w, ProgressPos(w, n - 1, day, rolls), n - 1, day, rolls);
    }
  }

  // ---- Every shortfall is covered -------------------------------------------------------

  predicate CoveredIfLow(w: World, p: nat, wh: nat, day: int) {
    IsLow(w, p, wh, day) ==> HasOpenReplenishment(w, p, wh)
  }

  lemma {:induction false} AddedPosKeepCover(w: World, v: World, p: nat, wh: nat, day: int)
    requires OnlyAddsPos(w, v, day) && CoveredIfLow(w, p, wh, day)
    ensures CoveredIfLow(v, p, wh, day)
  {
    var extra := v.pos[|w.pos|..];
    assert v.pos == w.pos + extra;
    SumConcat(w.pos, extra, OpenPoRows(p, wh));
    forall i | 0 <= i < |extra| ensures OpenPoRows(p, wh)(extra[i]) >= 0 {
      SumNonNegative(extra[i].lines, PoLineOf(p));
    }
    SumNonNegative(extra, OpenPoRows(p, wh));
  }

  lemma StepNewPoCovers(w: World, p: nat, wh: nat, day: int, inputs: TickInputs)
    ensures var r := StepNewPo(w, p, wh, day, inputs);
            r.Some? ==> OnlyAddsPos(w, r.value, day) && CoveredIfLow(r.value, p, wh, day)
  {
    var r := StepNewPo(w, p, wh, day, inputs);
    if r.Some? && NeedsPo(w, p, wh, day) {
      var po := r.value.pos[|w.pos|];
      SingleLine(po.lines[0], PoLineOf(p));
      SumAppend(w.pos, po, OpenPoRows(p, wh));
      ReplenishmentsNonNegative(w, p, wh);
    }
  }

  lemma {:induction false} PosForCovers(w: World, p: nat, n: nat, day: int, inputs: TickInputs)
    requires n <= |inputs.warehouses|
    ensures var r := PosFor(w, p, n, day, inputs);
            r.Some? ==> forall k :: 0 <= k < n ==> CoveredIfLow(r.value, p, inputs.warehouses[k], day)
  {
    if n > 0 {
      PosForCovers(w, p, n - 1, day, inputs);
      var r := PosFor(w, p, n - 1, day, inputs);
      if r.Some? {
        var wh := inputs.warehouses[n - 1];
        StepNewPoCovers(r.value, p, wh, day, inputs);
        var s := StepNewPo(r.value, p, wh, day, inputs);
        if s.Some? {
          forall k | 0 <= k < n ensures CoveredIfLow(s.value, p, inputs.warehouses[k], day) {
            if k < n - 1 {
              AddedPosKeepCover(r.value, s.value, p, inputs.warehouses[k], day);
            }
          }
        }
      }
    }
  }

  lemma {:induction false} CreatePosCovers(w: World, n: nat, day: int, inputs: TickInputs)
    requires n <= |inputs.products|
    ensures var r := CreatePos(w, n, day, inputs);
            r.Some? ==> forall j, k :: 0 <= j < n && 0 <= k < |inputs.warehouses| ==>
                          CoveredIfLow(r.value, inputs.products[j], inputs.warehouses[k], day)
  {
    if n > 0 {
      CreatePosCovers(w, n - 1, day, inputs);
      var r := CreatePos(w, n - 1, day, inputs);
      if r.Some? {
        var p := inputs.products[n - 1];
        var s := PosFor(r.value, p, |inputs.warehouses|, day, inputs);
        PosForCovers(r.value, p, |inputs.warehouses|, day, inputs);
        PosForOnlyAdds(r.value, p, |inputs.warehouses|, day, inputs);
        if s.Some? {
          forall j, k | 0 <= j < n && 0 <= k < |inputs.warehouses|
            ensures CoveredIfLow(s.value, inputs.products[j], inputs.warehouses[k], day)
          {
            if j < n - 1 {
              AddedPosKeepCover(r.value, s.value, inputs.products[j], inputs.warehouses[k], day);
            }
          }
        }
      }
    }
  }

  /** After the two creation passes every active pair below its reorder point
      has exactly one open order or inbound transfer, and every other pair at
      most one. */
  lemma ReplenishmentUniqueAndComplete(w: World, day: int, inputs: TickInputs, p: nat, wh: nat)
    requires Good(w) && p in inputs.products && wh in inputs.warehouses
    ensures var r := CreatePos(BeforeNewPos(w, day, inputs), |inputs.products|, day, inputs);
            r.Some? ==> && (IsLow(r.value, p, wh, day) ==> Replenishments(r.value, p, wh) == 1)
                        && 0 <= Replenishments(r.value, p, wh) <= 1
  {
    var w3 := BeforeNewPos(w, day, inputs);
    BeforeNewPosGood(w, day, inputs);
    CreatePosGood(w3, |inputs.products|, day, inputs);
    CreatePosCovers(w3, |inputs.products|, day, inputs);
    var r := CreatePos(w3, |inputs.products|, day, inputs);
    if r.Some? {
      var j :| 0 <= j < |inputs.products| && inputs.products[j] == p;
      var k :| 0 <= k < |inputs.warehouses| && inputs.warehouses[k] == wh;
      assert CoveredIfLow(r.value, inputs.products[j], inputs.warehouses[k], day);
      ReplenishmentsNonNegative(r.value, p, wh);
      assert Replenishments(r.value, p, wh) <= 1;
    }
  }

  // ---- Receipts finish in logarithmic time --------------------------------------------------

  function Pow2(n: nat): (r: int)
    ensures r >= 1
  {
    if n == 0 then 1 else 2 * Pow2(n - 1)
  }

  /** An order that is still open, missing at most 2^(k-1) units per line, or received. */
  predicate Owes(po: PurchaseOrder, k: nat) {
    || po.status == PoReceived
    || (&& k > 0 && PoOk(po) && IsOpenPo(po.status)
        && forall j :: 0 <= j < |po.lines| ==> po.lines[j].ordered - po.lines[j].received <= Pow2(k - 1))
  }

  /** The order is received after at most k more receiving ticks. */
  predicate DueWithin(po: PurchaseOrder, k: nat) {
    Owes(po, k) && po.status != PoSubmitted
  }

  /** Any tick confirms a submitted order, and none makes an order owe more. */
  lemma StepOwesNoMore(po: PurchaseOrder, k: nat, day: int, roll: Roll)
    requires Owes(po, k)
    ensures DueWithin(NextPo(po, day, roll), k)
  {
    if po.status != PoReceived {
      NextPoRow(po, day, roll, 0, 0);
      var after := NextPo(po, day, roll);
      forall j | 0 <= j < |po.lines|
        ensures after.lines[j].ordered - after.lines[j].received <= Pow2(k - 1)
      {
        assert after.lines[j] == po.lines[j] || after.lines[j] == Receive(po.lines[j], roll);
      }
    }
  }

  /** Each receiving tick, whatever it rolls, at least halves what is missing. */
  lemma ReceivingHalves(po: PurchaseOrder, k: nat, day: int, roll: Roll)
    requires DueWithin(po, k) && day >= po.expectedDay
    ensures DueWithin(NextPo(po, day, roll), if k == 0 then 0 else k - 1)
  {
    if po.status != PoReceived {
      NextPoRow(po, day, roll, 0, 0);
      var after := NextPo(po, day, roll);
      forall j | 0 <= j < |po.lines|
        ensures var left := after.lines[j].ordered - after.lines[j].received;
                if k == 1 then left <= 0 else left <= Pow2(k - 2)
      {
        assert after.lines[j] == Receive(po.lines[j], roll);
        assert k > 1 ==> Pow2(k - 1) == 2 * Pow2(k - 2);
      }
    }
  }

  /** Receiving on consecutive days from `day` on with the given rolls. */
  function ReceiveFor(po: PurchaseOrder, day: int, rolls: seq<Roll>): PurchaseOrder
    decreases |rolls|
  {
    if rolls == [] then po else ReceiveFor(NextPo(po, day, rolls[0]), day + 1, rolls[1..])
  }

  /** A due, confirmed order whose lines miss at most 2^n units each is
      received within n + 1 receiving ticks, for all rolls. */
  lemma {:induction false} ReceivedWithin(po: PurchaseOrder, k: nat, day: int, rolls: seq<Roll>)
    requires DueWithin(po, k) && day >= po.expectedDay && |rolls| >= k
    ensures ReceiveFor(po, day, rolls).status == PoReceived
    decreases |rolls|
  {
    if rolls != [] {
      ReceivingHalves(po, k, day, rolls[0]);
      ReceivedWithin(NextPo(po, day, rolls[0]), if k == 0 then 0 else k - 1, day + 1, rolls[1..]);
    }
  }

  function HalfRolls(n: nat): (r: seq<Roll>)
    ensures |r| == n && forall i :: 0 <= i < n ==> r[i] == Partial(0)
  {
    if n == 0 then [] else [Partial(0)] + HalfRolls(n - 1)
  }

  /** The bound is exact: a line of 2^n units that always rolls one half is
      still open after n receiving ticks. */
  lemma {:induction false} ReceiptBoundIsTight(po: PurchaseOrder, n: nat, day: int)
    requires PoOk(po) && IsReceiving(po, day) && |po.lines| == 1
    requires po.lines[0].ordered - po.lines[0].received == Pow2(n)
    ensures ReceiveFor(po, day, HalfRolls(n)).status != PoReceived
    decreases n
  {
    if n > 0 {
      var after := NextPo(po, day, Partial(0));
      NextPoRow(po, day, Partial(0), 0, 0);
      assert after.lines[0] == Receive(po.lines[0], Partial(0));
      assert Pow2(n) == 2 * Pow2(n - 1);
      assert HalfRolls(n)[1..] == HalfRolls(n - 1);
      ReceiptBoundIsTight(after, n - 1, day + 1);
    }
  }

  // ---- What a tick does to the order, shipment and snapshot tables ------------------------

  lemma {:induction false} ProgressTransfersFrame(w: World, n: nat, day: int)
    requires n <= |w.transfers|
    ensures var v := ProgressTransfers(w, n, day); v == w.(ledger := v.ledger, transfers := v.transfers)
  {
    if n > 0 {
      ProgressTransfersFrame(w, n - 1, day);
    }
  }

  lemma {:induction false} TransfersForFrame(w: World, p: nat, whs: seq<nat>, n: nat, day: int)
    requires n <= |whs|
    ensures var v := TransfersFor(w, p, whs, n, day); v == w.(ledger := v.ledger, transfers := v.transfers)
  {
    if n > 0 {
      TransfersForFrame(w, p, whs, n - 1, day);
    }
  }

  lemma {:induction false} CreateTransfersFrame(w: World, products: seq<nat>, whs: seq<nat>, day: int)
    ensures var v := CreateTransfers(w, products, whs, day); v == w.(ledger := v.ledger, transfers := v.transfers)
    decreases |products|
  {
    if products != [] {
      var front := products[..|products| - 1];
      CreateTransfersFrame(w, front, whs, day);
      TransfersForFrame(CreateTransfers(w, front, whs, day), products[|products| - 1], whs, |whs|, day);
    }
  }

  /** Sales progress only ever appends pending shipments dated today. */
  predicate OnlyAddsShipments(before: seq<Shipment>, after: seq<Shipment>, day: int) {
    && |before| <= |after|
    && after[..|before|] == before
    && forall i :: |before| <= i < |after| ==>
         after[i].status == ShPending && after[i].shipDay == day && after[i].promisedDay >= day
  }

  lemma {:induction false} ShipLinesFrame(w: World, i: nat, n: nat, day: int)
    requires i < |w.sales| && n <= |w.sales[i].lines|
    ensures var v := ShipLines(w, i, n, day); v == w.(ledger := v.ledger, sales := v.sales)
  {
    if n > 0 {
      ShipLinesFrame(w, i, n - 1, day);
    }
  }

  lemma StepSaleFrame(w: World, i: nat, day: int, transit: Option<nat>)
    ensures var v := StepSale(w, i, day, transit);
            v.pos == w.pos && v.transfers == w.transfers && v.snapshots == w.snapshots
            && OnlyAddsShipments(w.shipments, v.shipments, day)
  {
    if i < |w.sales| {
      ShipLinesFrame(w, i, |w.sales[i].lines|, day);
    }
  }

  lemma {:induction false} ProgressSalesFrame(w: World, scan: seq<nat>, day: int, transit: nat -> Option<nat>)
    ensures var v := ProgressSales(w, scan, day, transit);
            v.pos == w.pos && v.transfers == w.transfers && v.snapshots == w.snapshots
            && OnlyAddsShipments(w.shipments, v.shipments, day)
    decreases |scan|
  {
    if scan != [] {
      var front, i := scan[..|scan| - 1], scan[|scan| - 1];
      ProgressSalesFrame(w, front, day, transit);
      var v := ProgressSales(w, front, day, transit);
      StepSaleFrame(v, i, day, transit(i));
      var u := StepSale(v, i, day, transit(i));
      assert u.shipments[..|w.shipments|] == u.shipments[..|v.shipments|][..|w.shipments|];
      forall j | |w.shipments| <= j < |u.shipments|
        ensures u.shipments[j].status == ShPending && u.shipments[j].shipDay == day && u.shipments[j].promisedDay >= day
      {
        if j < |v.shipments| {
          assert u.shipments[j] == u.shipments[..|v.shipments|][j];
        }
      }
    }
  }

  /** A tick moves each order and shipment row one step, appends new ones, and
      writes snapshots for its own date only. */
  lemma TickFrame(w: World, day: int, inputs: TickInputs)
    ensures var r := Tick(w, day, inputs);
            r.Some? ==>
              && |w.pos| <= |r.value.pos|
              && (forall i :: 0 <= i < |w.pos| ==> r.value.pos[i] == NextPo(w.pos[i], day, inputs.rolls(i)))
              && (forall i :: |w.pos| <= i < |r.value.pos| ==> IsFreshPo(r.value.pos[i], day))
              && OnlyAddsShipments(ProgressShipments(w.shipments, |w.shipments|, day, inputs.delay), r.value.shipments, day)
              && (forall key :: key in r.value.snapshots && key.day != day ==>
                    key in w.snapshots && r.value.snapshots[key] == w.snapshots[key])
              && (forall key :: key in w.snapshots ==> key in r.value.snapshots)
  {
    var w1 := ProgressPos(w, |w.pos|, day, inputs.rolls);
    ProgressPosFrame(w, |w.pos|, day, inputs.rolls);
    ProgressTransfersFrame(w1, |w1.transfers|, day);
    var w2 := ProgressTransfers(w1, |w1.transfers|, day);
    CreateTransfersFrame(w2, inputs.products, inputs.warehouses, day);
    var w3 := BeforeNewPos(w, day, inputs);
    CreatePosOnlyAdds(w3, |inputs.products|, day, inputs);
    var r := CreatePos(w3, |inputs.products|, day, inputs);
    if r.Some? {
      var w5 := r.value.(shipments := ProgressShipments(w.shipments, |w.shipments|, day, inputs.delay));
      ProgressSalesFrame(w5, inputs.salesScan, day, inputs.promisedTransit);
      assert forall i :: 0 <= i < |w3.pos| ==> r.value.pos[i] == r.value.pos[..|w3.pos|][i];
    }
  }

  /** The clamp never changes a value: each snapshot of the day is the ledger
      position and the reserved quantity themselves, for every active pair. */
  lemma SnapshotIsThePosition(w: World, day: int, inputs: TickInputs, p: nat, wh: nat)
    requires Good(w) && p in inputs.products && wh in inputs.warehouses
    ensures var r := Tick(w, day, inputs);
            r.Some? ==>
              && SnapshotKey(day, p, wh) in r.value.snapshots
              && r.value.snapshots[SnapshotKey(day, p, wh)]
                 == Snapshot(Position(r.value, p, wh), Reserved(r.value, p, wh))
              && Position(r.value, p, wh) >= 0
  {
    TickGood(w, day, inputs);
    var r := Tick(w, day, inputs);
    if r.Some? {
      CurrentNonNegative(r.value, p, wh);
      ReservedNonNegative(r.value, p, wh);
    }
  }
}
