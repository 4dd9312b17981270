/** What every pass of the flow keeps: units are conserved, no ledger prefix
    ever shows negative stock, receipts and transfers are booked exactly once,
    and no shortfall is replenished twice. */
module FlowInvariants {
  import opened Sums
  import opened ReplenishmentPolicy
  import opened FlowTables
  import opened FlowSpec

  // ---- Measures used only in the invariants ---------------------------------

  function ReceivedQty(p: nat): PoLine -> int {
    (l: PoLine) => if l.product == p then l.received else 0
  }

  function AnyReceived(): PoLine -> int {
    (l: PoLine) => l.received
  }

  function ReceivedOf(p: nat): PurchaseOrder -> int {
    (po: PurchaseOrder) => Sum(po.lines, ReceivedQty(p))
  }

  function ShippedQty(p: nat): SoLine -> int {
    (l: SoLine) => if l.product == p then l.shipped else 0
  }

  function ShippedOf(p: nat): SalesOrder -> int {
    (so: SalesOrder) => Sum(so.lines, ShippedQty(p))
  }

  function InFlight(p: nat): Transfer -> int {
    (t: Transfer) => if IsOpenTransfer(t.status) && t.product == p then t.quantity else 0
  }

  function ReceiptOf(i: nat): Txn -> int {
    (t: Txn) => if t.ref == PoRef(i) then t.delta else 0
  }

  function BookedFor(i: nat, kind: TxnKind): Txn -> int {
    (t: Txn) => if t.ref == TransferRef(i) && t.kind == kind then 1 else 0
  }

  // ---- The invariants ---------------------------------------------------------

  predicate PoOk(po: PurchaseOrder) {
    && |po.lines| >= 1
    && (forall j :: 0 <= j < |po.lines| ==>
      0 <= po.lines[j].received <= po.lines[j].ordered && po.lines[j].ordered >= 1)
    && (po.status == PoReceived <==> AllReceived(po.lines))
  }

  predicate TransferOk(t: Transfer) {
    t.quantity > 0 && t.source != t.target
  }

  predicate SaleOk(so: SalesOrder) {
    forall j :: 0 <= j < |so.lines| ==> 0 <= so.lines[j].shipped <= so.lines[j].ordered && so.lines[j].ordered >= 1
  }

  predicate SalesOk(sales: seq<SalesOrder>) {
    forall i :: 0 <= i < |sales| ==> SaleOk(sales[i])
  }

  predicate RowsOk(w: World) {
    && (forall i :: 0 <= i < |w.pos| ==> PoOk(w.pos[i]))
    && (forall i :: 0 <= i < |w.transfers| ==> TransferOk(w.transfers[i]))
    && SalesOk(w.sales)
  }

  /** Stock on hand everywhere plus stock on the road is what came in minus what went out. */
  predicate Conserved(w: World, p: nat) {
    Sum(w.ledger, OfProduct(p)) + Sum(w.transfers, InFlight(p))
    == Sum(w.pos, ReceivedOf(p)) - Sum(w.sales, ShippedOf(p))
  }

  /** No append, at any point of the ledger's history, left a pair below zero. */
  ghost predicate NeverNegative(ledger: seq<Txn>) {
    forall k: nat, p: nat, wh: nat :: k <= |ledger| ==> Sum(ledger[..k], AtPair(p, wh)) >= 0
  }

  predicate RefersToPo(t: Txn, pos: nat) {
    t.ref.PoRef? ==> t.ref.po < pos
  }

  /** The receipts booked against an order add up to what its lines received. */
  predicate ReceiptsBooked(w: World) {
    && (forall k :: 0 <= k < |w.ledger| ==> RefersToPo(w.ledger[k], |w.pos|))
    && (forall i :: 0 <= i < |w.pos| ==> Sum(w.ledger, ReceiptOf(i)) == Sum(w.pos[i].lines, AnyReceived()))
  }

  predicate BooksTransfer(t: Txn, transfers: seq<Transfer>) {
    t.ref.TransferRef? ==>
      && t.ref.transfer < |transfers|
      && var tr := transfers[t.ref.transfer];
         && t.product == tr.product
         && (t.kind == TransferOut || t.kind == TransferIn)
         && (t.kind == TransferOut ==> t.warehouse == tr.source && t.delta == -tr.quantity)
         && (t.kind == TransferIn ==> t.warehouse == tr.target && t.delta == tr.quantity)
  }

  /** Each transfer debits its donor exactly once, and credits its recipient
      exactly once if completed and never before. */
  predicate TransfersBooked(w: World) {
    && (forall k :: 0 <= k < |w.ledger| ==> BooksTransfer(w.ledger[k], w.transfers))
    && (forall i :: 0 <= i < |w.transfers| ==>
      && Sum(w.ledger, BookedFor(i, TransferOut)) == 1
      && Sum(w.ledger, BookedFor(i, TransferIn)) == if w.transfers[i].status == TrCompleted then 1 else 0)
  }

  function Replenishments(w: World, p: nat, wh: nat): int {
    OpenPoCount(w, p, wh) + OpenInboundCount(w, p, wh)
  }

  ghost predicate ReplenishedOnce(w: World) {
    forall p: nat, wh: nat :: Replenishments(w, p, wh) <= 1
  }

  ghost predicate Good(w: World) {
    && RowsOk(w)
    && NeverNegative(w.ledger)
    && ReceiptsBooked(w)
    && TransfersBooked(w)
    && (forall p: nat :: Conserved(w, p))
    && ReplenishedOnce(w)
  }

  // ---- Ledger appends ------------------------------------------------------------

  lemma AppendKeepsNonNegative(ledger: seq<Txn>, t: Txn)
    requires NeverNegative(ledger)
    requires Sum(ledger, AtPair(t.product, t.warehouse)) + t.delta >= 0
    ensures NeverNegative(ledger + [t])
  {
    forall k: nat, p: nat, wh: nat | k <= |ledger| + 1
      ensures Sum((ledger + [t])[..k], AtPair(p, wh)) >= 0
    {
      if k <= |ledger| {
        assert (ledger + [t])[..k] == ledger[..k];
      } else {
        assert (ledger + [t])[..k] == ledger + [t];
        assert ledger[..|ledger|] == ledger;
        SumAppend(ledger, t, AtPair(p, wh));
        assert Sum(ledger[..|ledger|], AtPair(p, wh)) >= 0;
      }
    }
  }

  lemma CurrentNonNegative(w: World, p: nat, wh: nat)
    requires NeverNegative(w.ledger)
    ensures Position(w, p, wh) >= 0
  {
    assert w.ledger[..|w.ledger|] == w.ledger;
    assert Sum(w.ledger[..|w.ledger|], AtPair(p, wh)) >= 0;
  }

  lemma {:induction false} ArrivalsKeepNonNegative(ledger: seq<Txn>, rows: seq<Txn>)
    requires NeverNegative(ledger)
    requires forall k :: 0 <= k < |rows| ==> rows[k].delta >= 0
    ensures NeverNegative(ledger + rows)
    decreases |rows|
  {
    if rows == [] {
      assert ledger + rows == ledger;
    } else {
      var front, last := rows[..|rows| - 1], rows[|rows| - 1];
      ArrivalsKeepNonNegative(ledger, front);
      var before := ledger + front;
      assert before[..|before|] == before;
      assert Sum(before[..|before|], AtPair(last.product, last.warehouse)) >= 0;
      AppendKeepsNonNegative(before, last);
      assert ledger + rows == before + [last];
    }
  }

  // ---- Pass 1: purchase orders -----------------------------------------------------

  predicate IsReceiptFor(t: Txn, id: nat, wh: nat) {
    t.kind == Receipt && t.ref == PoRef(id) && t.warehouse == wh && t.delta >= 1
  }

  predicate AreReceiptsFor(rows: seq<Txn>, id: nat, wh: nat) {
    forall k :: 0 <= k < |rows| ==> IsReceiptFor(rows[k], id, wh)
  }

  lemma {:induction false} ReceiptRowsShape(lines: seq<PoLine>, id: nat, wh: nat, day: int, roll: Roll)
    ensures AreReceiptsFor(ReceiptRows(lines, id, wh, day, roll), id, wh)
    decreases |lines|
  {
    if lines != [] {
      ReceiptRowsShape(lines[..|lines| - 1], id, wh, day, roll);
    }
  }

  lemma {:induction false} ReceiptRowsAddUp(lines: seq<PoLine>, id: nat, wh: nat, day: int, roll: Roll, p: nat)
    ensures var rows, after := ReceiptRows(lines, id, wh, day, roll), ReceiveLines(lines, roll);
            && Sum(rows, OfProduct(p)) == Sum(after, ReceivedQty(p)) - Sum(lines, ReceivedQty(p))
            && Sum(rows, ReceiptOf(id)) == Sum(after, AnyReceived()) - Sum(lines, AnyReceived())
    decreases |lines|
  {
    if lines != [] {
      var front, last := lines[..|lines| - 1], lines[|lines| - 1];
      ReceiptRowsAddUp(front, id, wh, day, roll, p);
      var rows, row := ReceiptRows(front, id, wh, day, roll), LineReceipt(last, id, wh, day, roll);
      SumConcat(rows, row, OfProduct(p));
      SumConcat(rows, row, ReceiptOf(id));
      SumAppend(ReceiveLines(front, roll), Receive(last, roll), ReceivedQty(p));
      SumAppend(ReceiveLines(front, roll), Receive(last, roll), AnyReceived());
    }
  }

  lemma PoTxnsShape(po: PurchaseOrder, id: nat, day: int, roll: Roll)
    ensures AreReceiptsFor(PoTxns(po, id, day, roll), id, po.warehouse)
  {
    ReceiptRowsShape(po.lines, id, po.warehouse, day, roll);
  }

  lemma PoTxnsAddUp(po: PurchaseOrder, id: nat, day: int, roll: Roll, p: nat)
    ensures var rows, after := PoTxns(po, id, day, roll), NextPo(po, day, roll);
            && Sum(rows, OfProduct(p)) == Sum(after.lines, ReceivedQty(p)) - Sum(po.lines, ReceivedQty(p))
            && Sum(rows, ReceiptOf(id)) == Sum(after.lines, AnyReceived()) - Sum(po.lines, AnyReceived())
  {
    ReceiptRowsAddUp(po.lines, id, po.warehouse, day, roll, p);
  }

  /** A step never reopens an order or changes what it orders. */
  lemma NextPoRow(po: PurchaseOrder, day: int, roll: Roll, p: nat, wh: nat)
    requires PoOk(po)
    ensures PoOk(NextPo(po, day, roll))
    ensures OpenPoRows(p, wh)(NextPo(po, day, roll)) <= OpenPoRows(p, wh)(po)
  {
    var after := NextPo(po, day, roll);
    assert forall j :: 0 <= j < |po.lines| ==>
      after.lines[j] == po.lines[j] || after.lines[j] == Receive(po.lines[j], roll);
    assert Sum(after.lines, PoLineOf(p)) == Sum(po.lines, PoLineOf(p)) by {
      SumRowwise(po.lines, after.lines, PoLineOf(p));
    }
    SumNonNegative(po.lines, PoLineOf(p));
  }

  lemma StepPoConserves(w: World, i: nat, day: int, roll: Roll, p: nat)
    requires i < |w.pos| && Conserved(w, p)
    ensures Conserved(StepPo(w, i, day, roll), p)
  {
    var po := w.pos[i];
    PoTxnsAddUp(po, i, day, roll, p);
    SumConcat(w.ledger, PoTxns(po, i, day, roll), OfProduct(p));
    SumUpdate(w.pos, i, NextPo(po, day, roll), ReceivedOf(p));
  }

  lemma StepPoBooksReceipts(w: World, i: nat, day: int, roll: Roll)
    requires i < |w.pos| && ReceiptsBooked(w)
    ensures ReceiptsBooked(StepPo(w, i, day, roll))
  {
    var v, rows := StepPo(w, i, day, roll), PoTxns(w.pos[i], i, day, roll);
    PoTxnsShape(w.pos[i], i, day, roll);
    forall j | 0 <= j < |v.pos|
      ensures Sum(v.ledger, ReceiptOf(j)) == Sum(v.pos[j].lines, AnyReceived())
    {
      SumConcat(w.ledger, rows, ReceiptOf(j));
      if j == i {
        PoTxnsAddUp(w.pos[i], i, day, roll, 0);
      } else {
        SumZero(rows, ReceiptOf(j));
      }
    }
  }

  /** Rows that are not about transfers leave the transfer books as they are. */
  lemma OtherRowsKeepTransferBooks(w: World, rows: seq<Txn>)
    requires TransfersBooked(w)
    requires forall k :: 0 <= k < |rows| ==> !rows[k].ref.TransferRef?
    ensures TransfersBooked(w.(ledger := w.ledger + rows))
  {
    forall i, kind | 0 <= i < |w.transfers|
      ensures Sum(w.ledger + rows, BookedFor(i, kind)) == Sum(w.ledger, BookedFor(i, kind))
    {
      SumConcat(w.ledger, rows, BookedFor(i, kind));
      SumZero(rows, BookedFor(i, kind));
    }
  }

  lemma StepPoGood(w: World, i: nat, day: int, roll: Roll)
    requires i < |w.pos| && Good(w)
    ensures Good(StepPo(w, i, day, roll))
  {
    var v, rows := StepPo(w, i, day, roll), PoTxns(w.pos[i], i, day, roll);
    PoTxnsShape(w.pos[i], i, day, roll);
    NextPoRow(w.pos[i], day, roll, 0, 0);
    assert RowsOk(v);
    ArrivalsKeepNonNegative(w.ledger, rows);
    StepPoBooksReceipts(w, i, day, roll);
    OtherRowsKeepTransferBooks(w, rows);
    forall p: nat ensures Conserved(v, p) { StepPoConserves(w, i, day, roll, p); }
    forall p: nat, wh: nat ensures Replenishments(v, p, wh) <= 1 {
      NextPoRow(w.pos[i], day, roll, p, wh);
      SumUpdate(w.pos, i, v.pos[i], OpenPoRows(p, wh));
      assert Replenishments(w, p, wh) <= 1;
    }
  }

  lemma {:induction false} ProgressPosGood(w: World, n: nat, day: int, rolls: nat -> Roll)
    requires n <= |w.pos| && Good(w)
    ensures Good(ProgressPos(w, n, day, rolls))
  {
    if n > 0 {
      ProgressPosGood(w, n - 1, day, rolls);
      StepPoGood(ProgressPos(w, n - 1, day, rolls), n - 1, day, rolls(n - 1));
    }
  }
}
