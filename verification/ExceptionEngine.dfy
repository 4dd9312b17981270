/** The six exception categories evaluated after each tick
    (evaluate_exceptions and its evaluation builders in
    backend/app/services/exception_engine.py, verdicts in
    backend/app/domain/exception_engine.py). */
module ExceptionEngine {
  import opened Sums
  import opened ReplenishmentPolicy
  import opened FlowTables
  import opened FlowInvariants
  import opened ReportingSync
  import opened ExceptionFlags

  // ---- Verdicts -----------------------------------------------------------------

  predicate IsAtRisk(po: PurchaseOrder, today: int, grace: int) {
    po.status != PoReceived && po.status != PoCancelled && today - po.expectedDay > grace
  }

  predicate IsLate(s: Shipment, today: int, grace: int) {
    if s.status == ShDelivered then s.actualDay.Some? && s.actualDay.value - s.promisedDay > grace
    else today - s.promisedDay > grace
  }

  function DaysLate(s: Shipment, today: int): int {
    (if s.status == ShDelivered && s.actualDay.Some? then s.actualDay.value else today) - s.promisedDay
  }

  /** int(round(threshold)): ties go to the even neighbour. */
  function GraceDays(threshold: real): (g: int)
    ensures -0.5 <= threshold - g as real <= 0.5
  {
    var floor := threshold.Floor;
    var fraction := threshold - floor as real;
    if fraction < 0.5 || (fraction == 0.5 && floor % 2 == 0) then floor else floor + 1
  }

  function ToVerdict(flagged: bool): Verdict {
    if flagged then Flagged else NotFlagged
  }

  // ---- Evaluation builders ----------------------------------------------------------

  const NO_ENTITY := Key(None, None, None, None)

  function PoKey(i: nat): Key {
    Key(None, None, Some(i), None)
  }

  function ShipmentKey(i: nat): Key {
    Key(None, None, None, Some(i))
  }

  /** Days of supply per entity, as the KPI query returns them; None is SQL NULL. */
  datatype Supply = Supply(order: seq<Key>, days: map<Key, Option<real>>)

  function LowStockEvaluations(supply: Supply, threshold: real): Evaluations {
    Evaluations(supply.order, map key | key in supply.days :: Evaluation(
      if supply.days[key].None? then Inconclusive else ToVerdict(supply.days[key].value < threshold),
      supply.days[key]))
  }

  function AtRiskEvaluations(pos: seq<PurchaseOrder>, today: int, grace: int): Evaluations {
    Evaluations(
      seq(|pos|, i requires 0 <= i < |pos| => PoKey(i)),
      map i | 0 <= i < |pos| :: PoKey(i) :=
        Evaluation(ToVerdict(IsAtRisk(pos[i], today, grace)), Some((today - pos[i].expectedDay) as real)))
  }

  function LateEvaluations(shipments: seq<Shipment>, today: int, grace: int): Evaluations {
    Evaluations(
      seq(|shipments|, i requires 0 <= i < |shipments| => ShipmentKey(i)),
      map i | 0 <= i < |shipments| :: ShipmentKey(i) :=
        Evaluation(ToVerdict(IsLate(shipments[i], today, grace)), Some(DaysLate(shipments[i], today) as real)))
  }

  function SingleEvaluation(key: Key, e: Evaluation): Evaluations {
    Evaluations([key], map[key := e])
  }

  /** A row of the open-order join: one per line of an open purchase order. */
  datatype OpenLine = OpenLine(po: nat, supplier: nat, warehouse: nat, expectedDay: int, orderDay: int, product: nat)

  function OpenLinesOf(id: nat, po: PurchaseOrder, n: nat): seq<OpenLine>
    requires n <= |po.lines|
  {
    if n == 0 || !IsOpenPo(po.status) then []
    else OpenLinesOf(id, po, n - 1)
         + [OpenLine(id, po.supplier, po.warehouse, po.expectedDay, po.orderDay, po.lines[n - 1].product)]
  }

  function OpenLines(pos: seq<PurchaseOrder>): seq<OpenLine> {
    if pos == [] then []
    else
      var n := |pos| - 1;
      OpenLines(pos[..n]) + OpenLinesOf(n, pos[n], |pos[n].lines|)
  }

  predicate SameGroup(a: OpenLine, b: OpenLine) {
    a.supplier == b.supplier && a.warehouse == b.warehouse && a.expectedDay == b.expectedDay && a.product == b.product
  }

  function InGroupOf(a: OpenLine): OpenLine -> int {
    (b: OpenLine) => if SameGroup(a, b) then 1 else 0
  }

  /** Row j comes before row i in its group's stable sort by (order date, id). */
  predicate SortedBefore(rows: seq<OpenLine>, j: nat, i: nat)
    requires i < |rows| && j < |rows|
  {
    || rows[j].orderDay < rows[i].orderDay
    || (rows[j].orderDay == rows[i].orderDay && (rows[j].po < rows[i].po || (rows[j].po == rows[i].po && j < i)))
  }

  /** In a group of more than threshold rows, every row but the first placed. */
  predicate IsDuplicate(rows: seq<OpenLine>, i: nat, threshold: int)
    requires i < |rows|
  {
    && Sum(rows, InGroupOf(rows[i])) > threshold
    && exists j: nat :: j < |rows| && SameGroup(rows[i], rows[j]) && SortedBefore(rows, j, i)
  }

  function DuplicateEvaluations(rows: seq<OpenLine>, n: nat, threshold: int): Evaluations
    requires n <= |rows|
  {
    if n == 0 then Evaluations([], map[])
    else
      var front, key := DuplicateEvaluations(rows, n - 1, threshold), PoKey(rows[n - 1].po);
      if IsDuplicate(rows, n - 1, threshold) then
        Evaluations(if key in front.verdicts then front.order else front.order + [key],
                    front.verdicts[key := Evaluation(Flagged, Some(Sum(rows, InGroupOf(rows[n - 1])) as real))])
      else front
  }

  /** What one category evaluates; None when there is nothing to evaluate yet. */
  function EvaluationsOf(c: Category, threshold: real, w: World, rep: Reporting, today: int, supply: Supply): Option<Evaluations> {
    match c
    case LowStock => Some(LowStockEvaluations(supply, threshold))
    case AtRiskPo => Some(AtRiskEvaluations(w.pos, today, GraceDays(threshold)))
    case LateShipment => Some(LateEvaluations(w.shipments, today, GraceDays(threshold)))
    case LagStale =>
      var measured := if rep.lastSynced.Some? then Some((today - rep.lastSynced.value) as real) else None;
      Some(SingleEvaluation(NO_ENTITY, Evaluation(ToVerdict(IsLagStale(today, rep.lastSynced, GraceDays(threshold))), measured)))
    case ReportingConflict =>
      (match CheckReportingConflict(rep.replica, w.snapshots, threshold)
       case None => None
       case Some(check) =>
         Some(SingleEvaluation(Key(Some(check.entity.product), Some(check.entity.warehouse), None, None),
                               Evaluation(ToVerdict(check.isFlagged), Some(check.variance as real)))))
    case DuplicatePo =>
      var rows := OpenLines(w.pos);
      Some(DuplicateEvaluations(rows, |rows|, threshold.Floor))
  }

  // ---- One evaluation call -----------------------------------------------------------

  const CATEGORIES := [LowStock, AtRiskPo, LateShipment, LagStale, ReportingConflict, DuplicatePo]

  /** The active thresholds and the days-of-supply rows of one call. */
  datatype Rules = Rules(thresholds: map<Category, real>, supply: Supply)

  ghost predicate RulesOk(rules: Rules) {
    && WellFormed(LowStockEvaluations(rules.supply, 0.0))
    && forall c :: c in rules.thresholds ==> rules.thresholds[c] >= 0.0
  }

  /** An inactive category is skipped: its flags are left as they are. */
  function Reconcile(rows: seq<Flag>, c: Category, w: World, rep: Reporting, today: int, rules: Rules): seq<Flag> {
    if c !in rules.thresholds then rows
    else match EvaluationsOf(c, rules.thresholds[c], w, rep, today, rules.supply)
         case None => rows
         case Some(e) => SyncFlags(rows, c, today, rules.thresholds[c], e)
  }

  function Evaluate(rows: seq<Flag>, n: nat, w: World, rep: Reporting, today: int, rules: Rules): seq<Flag>
    requires n <= |CATEGORIES|
  {
    if n == 0 then rows
    else Reconcile(Evaluate(rows, n - 1, w, rep, today, rules), CATEGORIES[n - 1], w, rep, today, rules)
  }

  function EvaluateExceptions(rows: seq<Flag>, w: World, rep: Reporting, today: int, rules: Rules): seq<Flag> {
    Evaluate(rows, |CATEGORIES|, w, rep, today, rules)
  }

  lemma {:induction false} DuplicateEvaluationsWellFormed(rows: seq<OpenLine>, n: nat, threshold: int)
    requires n <= |rows|
    ensures WellFormed(DuplicateEvaluations(rows, n, threshold))
  {
    if n > 0 {
      DuplicateEvaluationsWellFormed(rows, n - 1, threshold);
    }
  }

  lemma RowEvaluationsWellFormed(w: World, today: int, grace: int)
    ensures WellFormed(AtRiskEvaluations(w.pos, today, grace))
    ensures WellFormed(LateEvaluations(w.shipments, today, grace))
  {
    var e := AtRiskEvaluations(w.pos, today, grace);
    forall key | key in e.verdicts ensures key in e.order {
      var i :| 0 <= i < |w.pos| && key == PoKey(i);
      assert e.order[i] == key;
    }
    var l := LateEvaluations(w.shipments, today, grace);
    forall key | key in l.verdicts ensures key in l.order {
      var i :| 0 <= i < |w.shipments| && key == ShipmentKey(i);
      assert l.order[i] == key;
    }
  }

  lemma EvaluationsWellFormed(c: Category, threshold: real, w: World, rep: Reporting, today: int, supply: Supply)
    requires WellFormed(LowStockEvaluations(supply, 0.0))
    ensures var e := EvaluationsOf(c, threshold, w, rep, today, supply); e.Some? ==> WellFormed(e.value)
  {
    RowEvaluationsWellFormed(w, today, GraceDays(threshold));
    var rows := OpenLines(w.pos);
    DuplicateEvaluationsWellFormed(rows, |rows|, threshold.Floor);
    assert LowStockEvaluations(supply, threshold).verdicts.Keys == LowStockEvaluations(supply, 0.0).verdicts.Keys;
  }

  /** One category of the call: what it opened and what it resolved. */
  method ReconcileCategory(table: FlagTable, c: Category, w: World, rep: Reporting, today: int, rules: Rules)
    returns (openCount: int, resolveCount: int)
    requires RulesOk(rules) && OneOpenPerEntity(table.rows)
    modifies table
    ensures table.rows == Reconcile(old(table.rows), c, w, rep, today, rules)
    ensures OneOpenPerEntity(table.rows)
    ensures openCount == |table.rows| - |old(table.rows)|
    ensures openCount - resolveCount == Sum(table.rows, CountsOpen()) - Sum(old(table.rows), CountsOpen())
  {
    openCount, resolveCount := 0, 0;
    if c in rules.thresholds {
      var threshold := rules.thresholds[c];
      var e := EvaluationsOf(c, threshold, w, rep, today, rules.supply);
      if e.Some? {
        EvaluationsWellFormed(c, threshold, w, rep, today, rules.supply);
        openCount, resolveCount := table.SyncFlagsFor(c, today, threshold, e.value);
        SyncKeepsOneOpen(old(table.rows), c, today, threshold, e.value);
        OpenedMinusResolved(old(table.rows), c, today, threshold, e.value);
      }
    }
  }

  /** The first n categories in order. */
  method EvaluateFirst(table: FlagTable, n: nat, w: World, rep: Reporting, today: int, rules: Rules)
    returns (openCount: int, resolveCount: int)
    requires RulesOk(rules) && OneOpenPerEntity(table.rows) && n <= |CATEGORIES|
    modifies table
    ensures table.rows == Evaluate(old(table.rows), n, w, rep, today, rules)
    ensures OneOpenPerEntity(table.rows)
    ensures openCount == |table.rows| - |old(table.rows)|
    ensures openCount - resolveCount == Sum(table.rows, CountsOpen()) - Sum(old(table.rows), CountsOpen())
  {
    openCount, resolveCount := 0, 0;
    for i := 0 to n
      invariant table.rows == Evaluate(old(table.rows), i, w, rep, today, rules)
      invariant OneOpenPerEntity(table.rows)
      invariant openCount == |table.rows| - |old(table.rows)|
      invariant openCount - resolveCount == Sum(table.rows, CountsOpen()) - Sum(old(table.rows), CountsOpen())
    {
      var o, r := ReconcileCategory(table, CATEGORIES[i], w, rep, today, rules);
      openCount, resolveCount := openCount + o, resolveCount + r;
    }
  }

  /** The whole call and its totals: rows opened, flags resolved, flags still open. */
  method EvaluateAll(table: FlagTable, w: World, rep: Reporting, today: int, rules: Rules)
    returns (openCount: int, resolveCount: int, stillOpen: int)
    requires RulesOk(rules) && OneOpenPerEntity(table.rows)
    modifies table
    ensures table.rows == EvaluateExceptions(old(table.rows), w, rep, today, rules)
    ensures OneOpenPerEntity(table.rows)
    ensures openCount == |table.rows| - |old(table.rows)|
    ensures stillOpen == Sum(table.rows, CountsOpen())
    ensures resolveCount == openCount + Sum(old(table.rows), CountsOpen()) - stillOpen
  {
    openCount, resolveCount := EvaluateFirst(table, |CATEGORIES|, w, rep, today, rules);
    stillOpen := Sum(table.rows, CountsOpen());
  }

  /** No call rewrites what a flag recorded when it was opened, or touches a closed one. */
  lemma {:induction false} EvaluateKeepsHistory(rows: seq<Flag>, n: nat, w: World, rep: Reporting, today: int, rules: Rules)
    requires n <= |CATEGORIES|
    ensures KeepsHistory(rows, Evaluate(rows, n, w, rep, today, rules))
  {
    if n > 0 {
      EvaluateKeepsHistory(rows, n - 1, w, rep, today, rules);
      var before, c := Evaluate(rows, n - 1, w, rep, today, rules), CATEGORIES[n - 1];
      if c in rules.thresholds {
        var e := EvaluationsOf(c, rules.thresholds[c], w, rep, today, rules.supply);
        if e.Some? {
          SyncKeepsAllHistory(before, c, today, rules.thresholds[c], e.value);
        }
      }
    }
  }

  // ---- The duplicate rule never fires on flow-created orders ----------------------------

  function RowFor(p: nat, wh: nat): OpenLine -> int {
    (r: OpenLine) => if r.product == p && r.warehouse == wh then 1 else 0
  }

  lemma {:induction false} OpenLinesOfCount(id: nat, po: PurchaseOrder, n: nat, p: nat, wh: nat)
    requires n <= |po.lines|
    ensures Sum(OpenLinesOf(id, po, n), RowFor(p, wh))
         == if IsOpenPo(po.status) && po.warehouse == wh then Sum(po.lines[..n], PoLineOf(p)) else 0
  {
    if n > 0 {
      OpenLinesOfCount(id, po, n - 1, p, wh);
      assert po.lines[..n] == po.lines[..n - 1] + [po.lines[n - 1]];
      SumAppend(po.lines[..n - 1], po.lines[n - 1], PoLineOf(p));
      if IsOpenPo(po.status) {
        var row := OpenLine(id, po.supplier, po.warehouse, po.expectedDay, po.orderDay, po.lines[n - 1].product);
        SumAppend(OpenLinesOf(id, po, n - 1), row, RowFor(p, wh));
      }
    }
  }

  lemma {:induction false} OpenLinesCount(pos: seq<PurchaseOrder>, p: nat, wh: nat)
    ensures Sum(OpenLines(pos), RowFor(p, wh)) == Sum(pos, OpenPoRows(p, wh))
    decreases |pos|
  {
    if pos != [] {
      var n := |pos| - 1;
      OpenLinesCount(pos[..n], p, wh);
      OpenLinesOfCount(n, pos[n], |pos[n].lines|, p, wh);
      assert pos[n].lines[..|pos[n].lines|] == pos[n].lines;
      SumConcat(OpenLines(pos[..n]), OpenLinesOf(n, pos[n], |pos[n].lines|), RowFor(p, wh));
    }
  }

  lemma NoDuplicateRow(w: World, i: nat, threshold: int)
    requires Good(w) && i < |OpenLines(w.pos)|
    ensures !IsDuplicate(OpenLines(w.pos), i, threshold)
  {
    var rows := OpenLines(w.pos);
    var p, wh := rows[i].product, rows[i].warehouse;
    if IsDuplicate(rows, i, threshold) {
      var j: nat :| j < |rows| && SameGroup(rows[i], rows[j]) && SortedBefore(rows, j, i);
      assert Replenishments(w, p, wh) <= 1;
      OpenLinesCount(w.pos, p, wh);
      SumNonNegative(w.transfers, OpenInbound(p, wh));
      SumCoversTwo(rows, if i < j then i else j, if i < j then j else i, RowFor(p, wh));
      assert false;
    }
  }

  /** In every state the flow reaches the duplicate-order rule flags nothing,
      whatever its threshold. */
  lemma {:induction false} DuplicateRuleNeverFires(w: World, n: nat, threshold: int)
    requires Good(w) && n <= |OpenLines(w.pos)|
    ensures DuplicateEvaluations(OpenLines(w.pos), n, threshold) == Evaluations([], map[])
  {
    if n > 0 {
      DuplicateRuleNeverFires(w, n - 1, threshold);
      NoDuplicateRow(w, n - 1, threshold);
    }
  }
}
