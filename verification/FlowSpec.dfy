/** What each pass of one scheduled tick does to the tables, row by row, and
    the tick as the seven passes in order
    (backend/app/services/scheduled_flow.py).  Every query is re-evaluated on
    the current tables here; the class in Flow.dfy keeps the original's local
    dictionaries and is proved equal to this. */
module FlowSpec {
  import opened Sums
  import opened ReplenishmentPolicy
  import opened FlowTables

  const WAREHOUSE_TRANSFER_TRANSIT_DAYS := 2
  const GENERIC_PROMISE_DAYS := 2

  type LeadTime = d: int | d >= 1 witness 1
  type DemandQuantity = q: int | 1 <= q <= 20 witness 1

  datatype Ask = Ask(product: nat, quantity: DemandQuantity)
  datatype NewOrder = NewOrder(customer: nat, warehouse: nat, asks: seq<Ask>)

  /** Everything a tick reads from outside the tables it maintains: active
      master data, random draws, and the scan order of the sales-order query. */
  datatype TickInputs = TickInputs(
    products: seq<nat>,
    warehouses: seq<nat>,
    rolls: nat -> Roll,                   // per purchase order
    supplierFor: nat -> Option<nat>,      // per product; None: no matching supplier
    leadTime: (nat, nat) -> LeadTime,     // per product and warehouse
    salesScan: seq<nat>,
    promisedTransit: nat -> Option<nat>,  // per sales order; None: no active carrier
    delay: nat -> nat,                    // per shipment: days later than promised
    newOrders: seq<NewOrder>)

  // ---- Pass 1: purchase orders ---------------------------------------------

  function Receive(l: PoLine, roll: Roll): PoLine {
    var remaining := l.ordered - l.received;
    if remaining <= 0 then l else l.(received := l.received + ReceiveQuantity(remaining, roll))
  }

  function ReceiveLines(lines: seq<PoLine>, roll: Roll): (r: seq<PoLine>)
    ensures |r| == |lines|
    ensures forall i :: 0 <= i < |r| ==> r[i] == Receive(lines[i], roll)
  {
    if lines == [] then [] else ReceiveLines(lines[..|lines| - 1], roll) + [Receive(lines[|lines| - 1], roll)]
  }

  function LineReceipt(l: PoLine, id: nat, wh: nat, day: int, roll: Roll): seq<Txn> {
    var remaining := l.ordered - l.received;
    if remaining <= 0 then []
    else [Txn(day, l.product, wh, Receipt, ReceiveQuantity(remaining, roll), PoRef(id))]
  }

  function ReceiptRows(lines: seq<PoLine>, id: nat, wh: nat, day: int, roll: Roll): seq<Txn> {
    if lines == [] then []
    else ReceiptRows(lines[..|lines| - 1], id, wh, day, roll) + LineReceipt(lines[|lines| - 1], id, wh, day, roll)
  }

  predicate AllReceived(lines: seq<PoLine>) {
    forall i :: 0 <= i < |lines| ==> lines[i].received >= lines[i].ordered
  }

  predicate IsReceiving(po: PurchaseOrder, day: int) {
    (po.status == PoConfirmed || po.status == PoPartiallyReceived) && day >= po.expectedDay
  }

  function NextPo(po: PurchaseOrder, day: int, roll: Roll): PurchaseOrder {
    if po.status == PoSubmitted then po.(status := PoConfirmed)
    else if IsReceiving(po, day) then
      var lines := ReceiveLines(po.lines, roll);
      po.(lines := lines, status := if AllReceived(lines) then PoReceived else PoPartiallyReceived)
    else po
  }

  function PoTxns(po: PurchaseOrder, id: nat, day: int, roll: Roll): seq<Txn> {
    if IsReceiving(po, day) then ReceiptRows(po.lines, id, po.warehouse, day, roll) else []
  }

  function StepPo(w: World, i: nat, day: int, roll: Roll): World
    requires i < |w.pos|
  {
    w.(ledger := w.ledger + PoTxns(w.pos[i], i, day, roll), pos := w.pos[i := NextPo(w.pos[i], day, roll)])
  }

  function ProgressPos(w: World, n: nat, day: int, rolls: nat -> Roll): (r: World)
    requires n <= |w.pos|
    ensures |r.pos| == |w.pos|
  {
    if n == 0 then w else StepPo(ProgressPos(w, n - 1, day, rolls), n - 1, day, rolls(n - 1))
  }

  // ---- Pass 2: transfers in flight -------------------------------------------

  predicate IsArriving(t: Transfer, day: int) {
    t.status == TrInTransit && day >= t.day + WAREHOUSE_TRANSFER_TRANSIT_DAYS
  }

  function NextTransfer(t: Transfer, day: int): Transfer {
    if t.status == TrPending then t.(status := TrInTransit)
    else if IsArriving(t, day) then t.(status := TrCompleted)
    else t
  }

  function TransferTxns(t: Transfer, id: nat, day: int): seq<Txn> {
    if IsArriving(t, day) then [Txn(day, t.product, t.target, TransferIn, t.quantity, TransferRef(id))] else []
  }

  function StepTransfer(w: World, i: nat, day: int): World
    requires i < |w.transfers|
  {
    w.(ledger := w.ledger + TransferTxns(w.transfers[i], i, day),
       transfers := w.transfers[i := NextTransfer(w.transfers[i], day)])
  }

  function ProgressTransfers(w: World, n: nat, day: int): (r: World)
    requires n <= |w.transfers|
    ensures |r.transfers| == |w.transfers|
  {
    if n == 0 then w else StepTransfer(ProgressTransfers(w, n - 1, day), n - 1, day)
  }

  // ---- Pass 3: new transfers -------------------------------------------------

  function Donors(w: World, p: nat, wh: nat, whs: seq<nat>, day: int): (r: seq<Candidate>)
    ensures forall c :: c in r ==> c.warehouse in whs && c.warehouse != wh && c.surplus == Surplus(w, p, c.warehouse, day)
    ensures forall d :: d in whs && d != wh ==> Candidate(d, Surplus(w, p, d, day)) in r
  {
    if whs == [] then []
    else
      var donor := whs[|whs| - 1];
      var front := Donors(w, p, wh, whs[..|whs| - 1], day);
      assert forall d :: d in whs <==> d in whs[..|whs| - 1] || d == donor;
      if donor == wh then front else front + [Candidate(donor, Surplus(w, p, donor, day))]
  }

  function AddTransfer(w: World, p: nat, source: nat, target: nat, quantity: int, day: int): World {
    w.(transfers := w.transfers + [Transfer(p, source, target, quantity, day, TrPending)],
       ledger := w.ledger + [Txn(day, p, source, TransferOut, -quantity, TransferRef(|w.transfers|))])
  }

  function StepNewTransfer(w: World, p: nat, wh: nat, whs: seq<nat>, day: int): World {
    var deficit := Deficit(w, p, wh, day);
    if HasOpenReplenishment(w, p, wh) || deficit <= 0 then w
    else match PickTransferDonor(Donors(w, p, wh, whs, day))
         case None => w
         case Some(c) => AddTransfer(w, p, c.warehouse, wh, if deficit < c.surplus then deficit else c.surplus, day)
  }

  /** One product: the first n warehouses have been considered as recipients. */
  function TransfersFor(w: World, p: nat, whs: seq<nat>, n: nat, day: int): World
    requires n <= |whs|
  {
    if n == 0 then w else StepNewTransfer(TransfersFor(w, p, whs, n - 1, day), p, whs[n - 1], whs, day)
  }

  function CreateTransfers(w: World, products: seq<nat>, whs: seq<nat>, day: int): World {
    if products == [] then w
    else TransfersFor(CreateTransfers(w, products[..|products| - 1], whs, day), products[|products| - 1], whs, |whs|, day)
  }

  // ---- Pass 4: new purchase orders -------------------------------------------

  predicate NeedsPo(w: World, p: nat, wh: nat, day: int) {
    !HasOpenReplenishment(w, p, wh) && IsLow(w, p, wh, day)
  }

  function NewPo(w: World, p: nat, wh: nat, day: int, supplier: nat, lead: LeadTime): PurchaseOrder {
    var quantity := ReorderQuantity(DailyDemand(w, p, wh, day), REORDER_TARGET_DAYS_OF_SUPPLY);
    PurchaseOrder(supplier, wh, day, day + lead, PoSubmitted, [PoLine(p, quantity, 0)])
  }

  /** None: the product has no matching supplier, and the pass raises. */
  function StepNewPo(w: World, p: nat, wh: nat, day: int, inputs: TickInputs): Option<World> {
    if !NeedsPo(w, p, wh, day) then Some(w)
    else match inputs.supplierFor(p)
         case None => None
         case Some(s) => Some(w.(pos := w.pos + [NewPo(w, p, wh, day, s, inputs.leadTime(p, wh))]))
  }

  function PosFor(w: World, p: nat, n: nat, day: int, inputs: TickInputs): Option<World>
    requires n <= |inputs.warehouses|
  {
    if n == 0 then Some(w)
    else match PosFor(w, p, n - 1, day, inputs)
         case None => None
         case Some(v) => StepNewPo(v, p, inputs.warehouses[n - 1], day, inputs)
  }

  function CreatePos(w: World, n: nat, day: int, inputs: TickInputs): Option<World>
    requires n <= |inputs.products|
  {
    if n == 0 then Some(w)
    else match CreatePos(w, n - 1, day, inputs)
         case None => None
         case Some(v) => PosFor(v, inputs.products[n - 1], |inputs.warehouses|, day, inputs)
  }

  // ---- Pass 5: shipments and sales orders --------------------------------------

  function TransitEnd(s: Shipment, delay: nat): int {
    s.promisedDay + delay
  }

  function NextShipment(s: Shipment, day: int, delay: nat): Shipment {
    if s.status == ShPending then s.(status := ShInTransit)
    else if s.status == ShInTransit && day >= TransitEnd(s, delay) then
      s.(status := ShDelivered, actualDay := Some(TransitEnd(s, delay)))
    else s
  }

  function ProgressShipments(shipments: seq<Shipment>, n: nat, day: int, delay: nat -> nat): (r: seq<Shipment>)
    requires n <= |shipments|
    ensures |r| == |shipments|
    ensures forall i :: 0 <= i < |r| ==> r[i] == if i < n then NextShipment(shipments[i], day, delay(i)) else shipments[i]
  {
    if n == 0 then shipments
    else
      var r := ProgressShipments(shipments, n - 1, day, delay);
      r[n - 1 := NextShipment(r[n - 1], day, delay(n - 1))]
  }

  predicate LineAvailable(w: World, so: SalesOrder, l: SoLine) {
    Position(w, l.product, so.warehouse) >= l.ordered - l.shipped
  }

  predicate AllAvailable(w: World, so: SalesOrder) {
    forall j :: 0 <= j < |so.lines| ==> LineAvailable(w, so, so.lines[j])
  }

  predicate Ships(w: World, so: SalesOrder, l: SoLine) {
    l.shipped < l.ordered && LineAvailable(w, so, l)
  }

  /** Ships line j of order i in full, when it is outstanding and on hand. */
  function ShipLine(w: World, i: nat, j: nat, day: int): World
    requires i < |w.sales| && j < |w.sales[i].lines|
  {
    var so := w.sales[i];
    var l := so.lines[j];
    if !Ships(w, so, l) then w
    else
      w.(ledger := w.ledger + [Txn(day, l.product, so.warehouse, Shipped, l.shipped - l.ordered, SoRef(i))],
         sales := w.sales[i := so.(lines := so.lines[j := l.(shipped := l.ordered)])])
  }

  function ShipLines(w: World, i: nat, n: nat, day: int): (r: World)
    requires i < |w.sales| && n <= |w.sales[i].lines|
    ensures |r.sales| == |w.sales| && |r.sales[i].lines| == |w.sales[i].lines|
    ensures r.sales[i] == w.sales[i].(lines := r.sales[i].lines)
  {
    if n == 0 then w else ShipLine(ShipLines(w, i, n - 1, day), i, n - 1, day)
  }

  predicate AllShipped(lines: seq<SoLine>) {
    forall j :: 0 <= j < |lines| ==> lines[j].shipped >= lines[j].ordered
  }

  /** Settles an order some of whose lines have just shipped. */
  function SettleOrder(w: World, i: nat, day: int, transit: Option<nat>): World
    requires i < |w.sales|
  {
    var so := w.sales[i];
    var full := AllShipped(so.lines);
    var v := w.(sales := w.sales[i := so.(status := if full then SoShipped else SoPartiallyShipped)]);
    if full && transit.Some? then
      v.(shipments := v.shipments + [Shipment(i, so.warehouse, day, day + transit.value, None, ShPending)])
    else v
  }

  function StepSale(w: World, i: nat, day: int, transit: Option<nat>): World {
    if i >= |w.sales| then w
    else
      var so := w.sales[i];
      if so.status == SoSubmitted then
        if AllAvailable(w, so) then
          w.(sales := w.sales[i := so.(status := SoAllocated, promisedDay := Some(day + GENERIC_PROMISE_DAYS))])
        else w
      else if IsReserving(so.status) then
        var shipped := ShipLines(w, i, |so.lines|, day);
        if shipped.sales[i].lines == so.lines then w else SettleOrder(shipped, i, day, transit)
      else w
  }

  function ProgressSales(w: World, scan: seq<nat>, day: int, transit: nat -> Option<nat>): World {
    if scan == [] then w
    else
      var i := scan[|scan| - 1];
      StepSale(ProgressSales(w, scan[..|scan| - 1], day, transit), i, day, transit(i))
  }

  // ---- Pass 6: new sales orders --------------------------------------------------

  function NewLines(asks: seq<Ask>): (r: seq<SoLine>)
    ensures |r| == |asks|
    ensures forall i :: 0 <= i < |r| ==> r[i] == SoLine(asks[i].product, asks[i].quantity, 0)
  {
    if asks == [] then []
    else
      var last := asks[|asks| - 1];
      NewLines(asks[..|asks| - 1]) + [SoLine(last.product, last.quantity, 0)]
  }

  function NewSale(o: NewOrder, day: int): SalesOrder {
    SalesOrder(o.customer, o.warehouse, day, None, SoSubmitted, NewLines(o.asks))
  }

  function CreateSales(sales: seq<SalesOrder>, orders: seq<NewOrder>, day: int): seq<SalesOrder> {
    if orders == [] then sales
    else CreateSales(sales, orders[..|orders| - 1], day) + [NewSale(orders[|orders| - 1], day)]
  }

  // ---- Pass 7: the daily snapshot --------------------------------------------------

  function AtLeastZero(x: int): int {
    if x > 0 then x else 0
  }

  function ClampedSnapshot(w: World, p: nat, wh: nat): Snapshot {
    Snapshot(AtLeastZero(Position(w, p, wh)), AtLeastZero(Reserved(w, p, wh)))
  }

  function TodaysSnapshots(w: World, products: seq<nat>, whs: seq<nat>, day: int): map<SnapshotKey, Snapshot> {
    map p, wh | p in products && wh in whs :: SnapshotKey(day, p, wh) := ClampedSnapshot(w, p, wh)
  }

  // ---- The tick --------------------------------------------------------------------

  /** Passes 1 to 3, and passes 5 to 7 around the one pass that can raise. */
  function BeforeNewPos(w: World, day: int, inputs: TickInputs): World {
    var w1 := ProgressPos(w, |w.pos|, day, inputs.rolls);
    var w2 := ProgressTransfers(w1, |w1.transfers|, day);
    CreateTransfers(w2, inputs.products, inputs.warehouses, day)
  }

  function SalesPasses(w: World, day: int, inputs: TickInputs): World {
    var w5 := w.(shipments := ProgressShipments(w.shipments, |w.shipments|, day, inputs.delay));
    var w6 := ProgressSales(w5, inputs.salesScan, day, inputs.promisedTransit);
    w6.(sales := CreateSales(w6.sales, inputs.newOrders, day))
  }

  function AfterNewPos(w: World, day: int, inputs: TickInputs): World {
    var w7 := SalesPasses(w, day, inputs);
    w7.(snapshots := w7.snapshots + TodaysSnapshots(w7, inputs.products, inputs.warehouses, day))
  }

  /** None: the flow raised. */
  function Tick(w: World, day: int, inputs: TickInputs): Option<World> {
    match CreatePos(BeforeNewPos(w, day, inputs), |inputs.products|, day, inputs)
    case None => None
    case Some(v) => Some(AfterNewPos(v, day, inputs))
  }
}
