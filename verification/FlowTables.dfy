/** The operational tables the daily flow reads and writes, and the queries it
    runs over them (backend/app/db/facts.py and the read helpers of
    backend/app/services/scheduled_flow.py).  Ids are numbers that keep the
    order of the original string ids; a row's own id is its index in its table,
    since rows are never deleted.  Dates are day numbers. */
module FlowTables {
  import opened Sums
  import opened ReplenishmentPolicy

  datatype TxnKind = Receipt | Shipped | TransferIn | TransferOut
  datatype Reference = PoRef(po: nat) | SoRef(so: nat) | TransferRef(transfer: nat)
  datatype Txn = Txn(day: int, product: nat, warehouse: nat, kind: TxnKind, delta: int, ref: Reference)

  datatype PoStatus = PoDraft | PoSubmitted | PoConfirmed | PoPartiallyReceived | PoReceived | PoCancelled
  datatype PoLine = PoLine(product: nat, ordered: int, received: int)
  datatype PurchaseOrder = PurchaseOrder(
    supplier: nat, warehouse: nat, orderDay: int, expectedDay: int, status: PoStatus, lines: seq<PoLine>)

  datatype TransferStatus = TrPending | TrInTransit | TrCompleted | TrCancelled
  datatype Transfer = Transfer(
    product: nat, source: nat, target: nat, quantity: int, day: int, status: TransferStatus)

  datatype SoStatus = SoDraft | SoSubmitted | SoAllocated | SoPartiallyShipped | SoShipped | SoCancelled
  datatype SoLine = SoLine(product: nat, ordered: int, shipped: int)
  datatype SalesOrder = SalesOrder(
    customer: nat, warehouse: nat, orderDay: int, promisedDay: Option<int>, status: SoStatus, lines: seq<SoLine>)

  datatype ShipmentStatus = ShPending | ShInTransit | ShDelivered | ShException
  datatype Shipment = Shipment(
    so: nat, warehouse: nat, shipDay: int, promisedDay: int, actualDay: Option<int>, status: ShipmentStatus)

  datatype SnapshotKey = SnapshotKey(day: int, product: nat, warehouse: nat)
  datatype Snapshot = Snapshot(onHand: int, reserved: int)

  datatype World = World(
    ledger: seq<Txn>,
    pos: seq<PurchaseOrder>,
    transfers: seq<Transfer>,
    sales: seq<SalesOrder>,
    shipments: seq<Shipment>,
    snapshots: map<SnapshotKey, Snapshot>)

  const EMPTY_WORLD := World([], [], [], [], [], map[])

  // ---- Row measures ----------------------------------------------------

  function AtPair(p: nat, wh: nat): Txn -> int {
    (t: Txn) => if t.product == p && t.warehouse == wh then t.delta else 0
  }

  function OfProduct(p: nat): Txn -> int {
    (t: Txn) => if t.product == p then t.delta else 0
  }

  function ShippedSince(p: nat, wh: nat, start: int): Txn -> int {
    (t: Txn) =>
      if t.product == p && t.warehouse == wh && t.kind == Shipped && t.day >= start then -t.delta else 0
  }

  predicate IsOpenPo(s: PoStatus) {
    s == PoSubmitted || s == PoConfirmed || s == PoPartiallyReceived
  }

  predicate IsOpenTransfer(s: TransferStatus) {
    s == TrPending || s == TrInTransit
  }

  predicate IsReserving(s: SoStatus) {
    s == SoAllocated || s == SoPartiallyShipped
  }

  function PoLineOf(p: nat): PoLine -> int {
    (l: PoLine) => if l.product == p then 1 else 0
  }

  function OpenPoRows(p: nat, wh: nat): PurchaseOrder -> int {
    (po: PurchaseOrder) => if IsOpenPo(po.status) && po.warehouse == wh then Sum(po.lines, PoLineOf(p)) else 0
  }

  function OpenInbound(p: nat, wh: nat): Transfer -> int {
    (t: Transfer) => if IsOpenTransfer(t.status) && t.product == p && t.target == wh then 1 else 0
  }

  function Outstanding(p: nat): SoLine -> int {
    (l: SoLine) => if l.product == p then l.ordered - l.shipped else 0
  }

  function ReservedAt(p: nat, wh: nat): SalesOrder -> int {
    (so: SalesOrder) => if IsReserving(so.status) && so.warehouse == wh then Sum(so.lines, Outstanding(p)) else 0
  }

  // ---- Queries -----------------------------------------------------------

  function Position(w: World, p: nat, wh: nat): int {
    Sum(w.ledger, AtPair(p, wh))
  }

  function DailyDemand(w: World, p: nat, wh: nat, day: int): real {
    Sum(w.ledger, ShippedSince(p, wh, day - DEMAND_LOOKBACK_DAYS)) as real / DEMAND_LOOKBACK_DAYS as real
  }

  function Reserved(w: World, p: nat, wh: nat): int {
    Sum(w.sales, ReservedAt(p, wh))
  }

  function OpenPoCount(w: World, p: nat, wh: nat): int {
    Sum(w.pos, OpenPoRows(p, wh))
  }

  function OpenInboundCount(w: World, p: nat, wh: nat): int {
    Sum(w.transfers, OpenInbound(p, wh))
  }

  /** An open purchase order or inbound transfer already covers the pair. */
  predicate HasOpenReplenishment(w: World, p: nat, wh: nat) {
    OpenPoCount(w, p, wh) > 0 || OpenInboundCount(w, p, wh) > 0
  }

  predicate IsLow(w: World, p: nat, wh: nat, day: int) {
    IsBelowReorderPoint(Position(w, p, wh), DailyDemand(w, p, wh, day), REORDER_SAFETY_DAYS)
  }

  function Threshold(w: World, p: nat, wh: nat, day: int): real {
    ReorderThreshold(DailyDemand(w, p, wh, day), REORDER_SAFETY_DAYS)
  }

  function Deficit(w: World, p: nat, wh: nat, day: int): int {
    WarehouseDeficit(Position(w, p, wh), DailyDemand(w, p, wh, day), REORDER_SAFETY_DAYS)
  }

  function Surplus(w: World, p: nat, wh: nat, day: int): int {
    TransferableSurplus(Position(w, p, wh), Reserved(w, p, wh), DailyDemand(w, p, wh, day), REORDER_SAFETY_DAYS)
  }
}
