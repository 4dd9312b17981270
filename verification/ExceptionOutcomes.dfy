/** What an evaluation call leaves open, category by category, in terms of the
    tables it read and the numbers it compares. */
module ExceptionOutcomes {
  import opened Sums
  import opened ReplenishmentPolicy
  import opened FlowTables
  import opened ReportingSync
  import opened ExceptionFlags
  import opened ExceptionEngine

  // ---- What each category looks for ------------------------------------------------------------

  /** The nearest whole number, the even one of two. */
  predicate IsRounded(threshold: real, grace: int) {
    || -0.5 < threshold - grace as real < 0.5
    || ((threshold - grace as real == 0.5 || threshold - grace as real == -0.5) && grace % 2 == 0)
  }

  predicate LowStockCase(supply: Supply, key: Key, threshold: real, measured: Option<real>) {
    key in supply.days && supply.days[key].Some? && supply.days[key].value < threshold && measured == supply.days[key]
  }

  predicate AtRiskCase(pos: seq<PurchaseOrder>, i: nat, today: int, grace: int, measured: Option<real>) {
    && i < |pos| && pos[i].status != PoReceived && pos[i].status != PoCancelled
    && today > pos[i].expectedDay + grace && measured == Some((today - pos[i].expectedDay) as real)
  }

  /** A delivered shipment is judged by its delivery date, any other by today. */
  predicate LateCase(shipments: seq<Shipment>, i: nat, today: int, grace: int, measured: Option<real>) {
    && i < |shipments|
    && if shipments[i].status == ShDelivered then
         && shipments[i].actualDay.Some? && shipments[i].actualDay.value > shipments[i].promisedDay + grace
         && measured == Some((shipments[i].actualDay.value - shipments[i].promisedDay) as real)
       else
         && today > shipments[i].promisedDay + grace
         && measured == Some((today - shipments[i].promisedDay) as real)
  }

  predicate LagCase(rep: Reporting, today: int, grace: int, measured: Option<real>) {
    && rep.lastSynced.Some? && today - rep.lastSynced.value > grace
    && measured == Some((today - rep.lastSynced.value) as real)
  }

  /** The latest reporting row of the frozen entity. */
  ghost predicate IsConflictRow(r: Replica, row: SnapshotKey) {
    && r.frozen.Some? && row in r.rows
    && row.product == r.frozen.value.product && row.warehouse == r.frozen.value.warehouse
    && forall other :: other in r.rows && other.product == row.product && other.warehouse == row.warehouse ==> other.day <= row.day
  }

  /** It differs from live's row of the same day, or from zero, by more than the tolerance. */
  ghost predicate ConflictCase(r: Replica, live: Live, row: SnapshotKey, threshold: real, measured: Option<real>) {
    && IsConflictRow(r, row)
    && var there := if row in live then live[row].onHand else 0;
       var variance := if r.rows[row].onHand >= there then r.rows[row].onHand - there else there - r.rows[row].onHand;
       variance as real > threshold && measured == Some(variance as real)
  }

  /** More rows than the threshold share supplier, warehouse, expected day and
      product with row i, and one of them was placed before it. */
  predicate DuplicateCase(rows: seq<OpenLine>, i: nat, threshold: int) {
    && i < |rows|
    && Sum(rows, (b: OpenLine) =>
         if b.supplier == rows[i].supplier && b.warehouse == rows[i].warehouse && b.expectedDay == rows[i].expectedDay
            && b.product == rows[i].product then 1 else 0) > threshold
    && exists j: nat :: j < |rows| && PlacedBefore(rows, j, i)
  }

  predicate PlacedBefore(rows: seq<OpenLine>, j: nat, i: nat)
    requires i < |rows| && j < |rows|
  {
    && rows[j].supplier == rows[i].supplier && rows[j].warehouse == rows[i].warehouse
    && rows[j].expectedDay == rows[i].expectedDay && rows[j].product == rows[i].product
    && (|| rows[j].orderDay < rows[i].orderDay
        || (rows[j].orderDay == rows[i].orderDay && rows[j].po < rows[i].po)
        || (rows[j].orderDay == rows[i].orderDay && rows[j].po == rows[i].po && j < i))
  }

  /** The category calls for a flag on the entity. */
  ghost predicate CallsForFlag(c: Category, key: Key, w: World, rep: Reporting, today: int, threshold: real, grace: int,
                               supply: Supply, measured: Option<real>) {
    match c
    case LowStock => LowStockCase(supply, key, threshold, measured)
    case AtRiskPo => exists i: nat :: key == Key(None, None, Some(i), None) && AtRiskCase(w.pos, i, today, grace, measured)
    case LateShipment => exists i: nat :: key == Key(None, None, None, Some(i)) && LateCase(w.shipments, i, today, grace, measured)
    case LagStale => key == Key(None, None, None, None) && LagCase(rep, today, grace, measured)
    case ReportingConflict =>
      exists row: SnapshotKey :: key == Key(Some(row.product), Some(row.warehouse), None, None)
                    && ConflictCase(rep.replica, w.snapshots, row, threshold, measured)
    case DuplicatePo =>
      exists i: nat :: DuplicateCase(OpenLines(w.pos), i, threshold.Floor) && key == Key(None, None, Some(OpenLines(w.pos)[i].po), None)
  }

  /** The category says nothing about the entity this time. */
  ghost predicate SaysNothing(c: Category, key: Key, rep: Reporting, supply: Supply) {
    match c
    case LowStock => key in supply.days && supply.days[key].None?
    case ReportingConflict => !exists row :: IsConflictRow(rep.replica, row)
    case _ => false
  }

  predicate IsOpen(rows: seq<Flag>, c: Category, key: Key) {
    exists i :: 0 <= i < |rows| && rows[i].open && rows[i].category == c && rows[i].key == key
  }

  lemma IsOpenIff(rows: seq<Flag>, c: Category, key: Key)
    ensures IsOpen(rows, c, key) <==> HasOpen(rows, c, key)
  {
    if IsOpen(rows, c, key) {
      var i :| 0 <= i < |rows| && rows[i].open && rows[i].category == c && rows[i].key == key;
      assert IsOpenIn(rows[i], c);
    }
  }

  lemma GraceIsRounded(threshold: real, grace: int)
    ensures IsRounded(threshold, grace) <==> grace == GraceDays(threshold)
  {
    var g := GraceDays(threshold);
    assert IsRounded(threshold, g);
    if IsRounded(threshold, grace) {
      assert -1.0 <= (g - grace) as real <= 1.0;
    }
  }

  // ---- Each builder reaches that verdict ---------------------------------------------------------

  /** What an evaluation of one category amounts to for one entity. */
  ghost predicate VerdictIs(e: Evaluations, key: Key, c: Category, w: World, rep: Reporting, today: int, threshold: real,
                            grace: int, supply: Supply) {
    && (VerdictOf(e, key) == Flagged <==> exists m :: CallsForFlag(c, key, w, rep, today, threshold, grace, supply, m))
    && (VerdictOf(e, key) == Inconclusive <==> SaysNothing(c, key, rep, supply))
    && (c != DuplicatePo ==>
          forall m :: CallsForFlag(c, key, w, rep, today, threshold, grace, supply, m) ==> e.verdicts[key].measured == m)
  }

  lemma LowStockVerdict(key: Key, w: World, rep: Reporting, today: int, threshold: real, grace: int, supply: Supply)
    ensures VerdictIs(LowStockEvaluations(supply, threshold), key, LowStock, w, rep, today, threshold, grace, supply)
  {
    if key in supply.days {
      assert CallsForFlag(LowStock, key, w, rep, today, threshold, grace, supply, supply.days[key]) <==>
             supply.days[key].Some? && supply.days[key].value < threshold;
    }
  }

  lemma AtRiskVerdict(key: Key, w: World, rep: Reporting, today: int, threshold: real, grace: int, supply: Supply)
    ensures VerdictIs(AtRiskEvaluations(w.pos, today, grace), key, AtRiskPo, w, rep, today, threshold, grace, supply)
  {
    var e := AtRiskEvaluations(w.pos, today, grace);
    if VerdictOf(e, key) == Flagged {
      var i: nat :| i < |w.pos| && key == PoKey(i);
      assert AtRiskCase(w.pos, i, today, grace, Some((today - w.pos[i].expectedDay) as real));
      assert CallsForFlag(AtRiskPo, key, w, rep, today, threshold, grace, supply, Some((today - w.pos[i].expectedDay) as real));
    }
    forall m | CallsForFlag(AtRiskPo, key, w, rep, today, threshold, grace, supply, m)
      ensures VerdictOf(e, key) == Flagged && e.verdicts[key].measured == m
    {
      var i: nat :| key == Key(None, None, Some(i), None) && AtRiskCase(w.pos, i, today, grace, m);
      assert key == PoKey(i) && PoKey(i) in e.verdicts;
    }
  }

  lemma LateVerdict(key: Key, w: World, rep: Reporting, today: int, threshold: real, grace: int, supply: Supply)
    ensures VerdictIs(LateEvaluations(w.shipments, today, grace), key, LateShipment, w, rep, today, threshold, grace, supply)
  {
    var e := LateEvaluations(w.shipments, today, grace);
    if VerdictOf(e, key) == Flagged {
      var i: nat :| i < |w.shipments| && key == ShipmentKey(i);
      assert LateCase(w.shipments, i, today, grace, Some(DaysLate(w.shipments[i], today) as real));
      assert CallsForFlag(LateShipment, key, w, rep, today, threshold, grace, supply, Some(DaysLate(w.shipments[i], today) as real));
    }
    forall m | CallsForFlag(LateShipment, key, w, rep, today, threshold, grace, supply, m)
      ensures VerdictOf(e, key) == Flagged && e.verdicts[key].measured == m
    {
      var i: nat :| key == Key(None, None, None, Some(i)) && LateCase(w.shipments, i, today, grace, m);
      assert key == ShipmentKey(i) && ShipmentKey(i) in e.verdicts;
    }
  }

  lemma LagVerdict(key: Key, w: World, rep: Reporting, today: int, threshold: real, grace: int, supply: Supply)
    requires grace == GraceDays(threshold)
    ensures VerdictIs(EvaluationsOf(LagStale, threshold, w, rep, today, supply).value, key, LagStale, w, rep, today, threshold, grace, supply)
  {
    if rep.lastSynced.Some? {
      var m := Some((today - rep.lastSynced.value) as real);
      assert CallsForFlag(LagStale, key, w, rep, today, threshold, grace, supply, m) <==>
             key == NO_ENTITY && today - rep.lastSynced.value > grace;
    }
  }

  lemma ConflictRowIsLatest(r: Replica)
    ensures (exists row :: IsConflictRow(r, row)) <==> r.frozen.Some? && FrozenDays(r, r.frozen.value) != {}
    ensures forall row :: IsConflictRow(r, row) ==>
      r.frozen.Some? && FrozenDays(r, r.frozen.value) != {} && row == LatestRow(r, r.frozen.value)
  {
    if r.frozen.Some? {
      var e := r.frozen.value;
      if FrozenDays(r, e) != {} {
        assert IsConflictRow(r, LatestRow(r, e));
      }
      forall row | IsConflictRow(r, row) ensures FrozenDays(r, e) != {} && row == LatestRow(r, e) {
        assert EntityOf(row) == e && row.day in FrozenDays(r, e);
        assert EntityOf(LatestRow(r, e)) == e;
      }
    }
  }

  lemma ConflictVerdict(key: Key, w: World, rep: Reporting, today: int, threshold: real, grace: int, supply: Supply)
    ensures var e := EvaluationsOf(ReportingConflict, threshold, w, rep, today, supply);
            if e.Some? then
              VerdictIs(e.value, key, ReportingConflict, w, rep, today, threshold, grace, supply)
            else
              SaysNothing(ReportingConflict, key, rep, supply)
              && forall m :: !CallsForFlag(ReportingConflict, key, w, rep, today, threshold, grace, supply, m)
  {
    var r := rep.replica;
    ConflictRowIsLatest(r);
    var e := EvaluationsOf(ReportingConflict, threshold, w, rep, today, supply);
    if e.Some? {
      var row := LatestRow(r, r.frozen.value);
      var check := CheckReportingConflict(r, w.snapshots, threshold).value;
      assert IsConflictRow(r, row);
      assert ConflictCase(r, w.snapshots, row, threshold, Some(check.variance as real)) <==> check.isFlagged;
      if VerdictOf(e.value, key) == Flagged {
        assert CallsForFlag(ReportingConflict, key, w, rep, today, threshold, grace, supply, Some(check.variance as real));
      }
    }
  }

  lemma DuplicateCaseIff(rows: seq<OpenLine>, i: nat, threshold: int)
    requires i < |rows|
    ensures DuplicateCase(rows, i, threshold) <==> IsDuplicate(rows, i, threshold)
  {
    var same := (b: OpenLine) =>
      if b.supplier == rows[i].supplier && b.warehouse == rows[i].warehouse && b.expectedDay == rows[i].expectedDay
         && b.product == rows[i].product then 1 else 0;
    SumPointwise(rows, same, InGroupOf(rows[i]));
    if IsDuplicate(rows, i, threshold) {
      var j: nat :| j < |rows| && SameGroup(rows[i], rows[j]) && SortedBefore(rows, j, i);
      assert PlacedBefore(rows, j, i);
    }
    if DuplicateCase(rows, i, threshold) {
      var j: nat :| j < |rows| && PlacedBefore(rows, j, i);
      assert SameGroup(rows[i], rows[j]) && SortedBefore(rows, j, i);
    }
  }

  lemma {:induction false} DuplicateKeys(rows: seq<OpenLine>, n: nat, threshold: int, key: Key)
    requires n <= |rows|
    ensures var e := DuplicateEvaluations(rows, n, threshold);
            && (key in e.verdicts <==> exists i: nat :: i < n && IsDuplicate(rows, i, threshold) && key == PoKey(rows[i].po))
            && (key in e.verdicts ==> e.verdicts[key].verdict == Flagged)
  {
    if n > 0 {
      DuplicateKeys(rows, n - 1, threshold, key);
    }
  }

  lemma DuplicateVerdict(key: Key, w: World, rep: Reporting, today: int, threshold: real, grace: int, supply: Supply)
    ensures VerdictIs(EvaluationsOf(DuplicatePo, threshold, w, rep, today, supply).value, key, DuplicatePo, w, rep, today,
                      threshold, grace, supply)
  {
    var rows := OpenLines(w.pos);
    DuplicateKeys(rows, |rows|, threshold.Floor, key);
    var e := DuplicateEvaluations(rows, |rows|, threshold.Floor);
    if key in e.verdicts {
      var i: nat :| i < |rows| && IsDuplicate(rows, i, threshold.Floor) && key == PoKey(rows[i].po);
      DuplicateCaseIff(rows, i, threshold.Floor);
      assert CallsForFlag(DuplicatePo, key, w, rep, today, threshold, grace, supply, None);
    }
    forall m | CallsForFlag(DuplicatePo, key, w, rep, today, threshold, grace, supply, m) ensures key in e.verdicts {
      var i: nat :| DuplicateCase(rows, i, threshold.Floor) && key == Key(None, None, Some(rows[i].po), None);
      DuplicateCaseIff(rows, i, threshold.Floor);
    }
  }

  lemma CategoryVerdict(c: Category, key: Key, w: World, rep: Reporting, today: int, threshold: real, grace: int, supply: Supply)
    requires IsRounded(threshold, grace)
    ensures var e := EvaluationsOf(c, threshold, w, rep, today, supply);
            if e.Some? then VerdictIs(e.value, key, c, w, rep, today, threshold, grace, supply)
            else SaysNothing(c, key, rep, supply) && forall m :: !CallsForFlag(c, key, w, rep, today, threshold, grace, supply, m)
  {
    GraceIsRounded(threshold, grace);
    match c
    case LowStock => LowStockVerdict(key, w, rep, today, threshold, grace, supply);
    case AtRiskPo => AtRiskVerdict(key, w, rep, today, threshold, grace, supply);
    case LateShipment => LateVerdict(key, w, rep, today, threshold, grace, supply);
    case LagStale => LagVerdict(key, w, rep, today, threshold, grace, supply);
    case ReportingConflict => ConflictVerdict(key, w, rep, today, threshold, grace, supply);
    case DuplicatePo => DuplicateVerdict(key, w, rep, today, threshold, grace, supply);
  }

  // ---- One category's turn, and the others' ---------------------------------------------------------

  /** What a turn of category c may do to the table: its own flags only. */
  predicate Untouched(before: seq<Flag>, after: seq<Flag>, c: Category) {
    && |before| <= |after|
    && (forall i :: 0 <= i < |before| && before[i].category != c ==> after[i] == before[i])
    && (forall i :: 0 <= i < |before| ==> after[i].category == before[i].category)
    && (forall i :: |before| <= i < |after| ==> after[i].category == c)
  }

  lemma ReconcileTouchesItsOwn(rows: seq<Flag>, c: Category, w: World, rep: Reporting, today: int, rules: Rules)
    ensures Untouched(rows, Reconcile(rows, c, w, rep, today, rules), c)
    ensures c !in rules.thresholds ==> Reconcile(rows, c, w, rep, today, rules) == rows
  {
  }

  lemma OthersStayOpen(before: seq<Flag>, after: seq<Flag>, c: Category, d: Category, key: Key)
    requires Untouched(before, after, c) && c != d
    ensures IsOpen(after, d, key) <==> IsOpen(before, d, key)
  {
    if IsOpen(before, d, key) {
      var i :| 0 <= i < |before| && before[i].open && before[i].category == d && before[i].key == key;
      assert after[i] == before[i];
    }
    if IsOpen(after, d, key) {
      var i :| 0 <= i < |after| && after[i].open && after[i].category == d && after[i].key == key;
      assert i < |before| && after[i] == before[i];
    }
  }

  /** Where in the call a category has its turn. */
  function Turn(c: Category): (n: nat)
    ensures n < |CATEGORIES| && CATEGORIES[n] == c
    ensures forall k :: 0 <= k < |CATEGORIES| && k != n ==> CATEGORIES[k] != c
  {
    match c
    case LowStock => 0
    case AtRiskPo => 1
    case LateShipment => 2
    case LagStale => 3
    case ReportingConflict => 4
    case DuplicatePo => 5
  }

  lemma {:induction false} OpenBeforeTurn(rows: seq<Flag>, n: nat, c: Category, key: Key, w: World, rep: Reporting, today: int, rules: Rules)
    requires n <= Turn(c)
    ensures IsOpen(Evaluate(rows, n, w, rep, today, rules), c, key) <==> IsOpen(rows, c, key)
  {
    if n > 0 {
      OpenBeforeTurn(rows, n - 1, c, key, w, rep, today, rules);
      var before := Evaluate(rows, n - 1, w, rep, today, rules);
      ReconcileTouchesItsOwn(before, CATEGORIES[n - 1], w, rep, today, rules);
      OthersStayOpen(before, Evaluate(rows, n, w, rep, today, rules), CATEGORIES[n - 1], c, key);
    }
  }

  lemma {:induction false} OpenAfterTurn(rows: seq<Flag>, n: nat, c: Category, key: Key, w: World, rep: Reporting, today: int, rules: Rules)
    requires Turn(c) < n <= |CATEGORIES|
    ensures IsOpen(Evaluate(rows, n, w, rep, today, rules), c, key) <==>
            IsOpen(Evaluate(rows, Turn(c) + 1, w, rep, today, rules), c, key)
    decreases n
  {
    if n > Turn(c) + 1 {
      OpenAfterTurn(rows, n - 1, c, key, w, rep, today, rules);
      var before := Evaluate(rows, n - 1, w, rep, today, rules);
      ReconcileTouchesItsOwn(before, CATEGORIES[n - 1], w, rep, today, rules);
      OthersStayOpen(before, Evaluate(rows, n, w, rep, today, rules), CATEGORIES[n - 1], c, key);
    }
  }

  lemma OpenAtTurn(rows: seq<Flag>, c: Category, key: Key, w: World, rep: Reporting, today: int, rules: Rules, grace: int)
    requires RulesOk(rules) && c in rules.thresholds && IsRounded(rules.thresholds[c], grace)
    ensures IsOpen(Reconcile(rows, c, w, rep, today, rules), c, key) <==>
            || (exists m :: CallsForFlag(c, key, w, rep, today, rules.thresholds[c], grace, rules.supply, m))
            || (SaysNothing(c, key, rep, rules.supply) && IsOpen(rows, c, key))
  {
    var threshold := rules.thresholds[c];
    var e := EvaluationsOf(c, threshold, w, rep, today, rules.supply);
    CategoryVerdict(c, key, w, rep, today, threshold, grace, rules.supply);
    IsOpenIff(rows, c, key);
    IsOpenIff(Reconcile(rows, c, w, rep, today, rules), c, key);
    if e.Some? {
      EvaluationsWellFormed(c, threshold, w, rep, today, rules.supply);
      OpenSetAfterSync(rows, c, today, threshold, e.value, key);
    }
  }

  /** Which flags a call leaves open: in an active category exactly those it
      calls for, and those it says nothing about that were open; in an inactive
      one those that were open. */
  lemma OpenAfterCall(rows: seq<Flag>, c: Category, key: Key, w: World, rep: Reporting, today: int, rules: Rules, grace: int)
    requires RulesOk(rules) && (c in rules.thresholds ==> IsRounded(rules.thresholds[c], grace))
    ensures IsOpen(EvaluateExceptions(rows, w, rep, today, rules), c, key) <==>
            if c in rules.thresholds then
              || (exists m :: CallsForFlag(c, key, w, rep, today, rules.thresholds[c], grace, rules.supply, m))
              || (SaysNothing(c, key, rep, rules.supply) && IsOpen(rows, c, key))
            else IsOpen(rows, c, key)
  {
    var before := Evaluate(rows, Turn(c), w, rep, today, rules);
    OpenBeforeTurn(rows, Turn(c), c, key, w, rep, today, rules);
    OpenAfterTurn(rows, |CATEGORIES|, c, key, w, rep, today, rules);
    ReconcileTouchesItsOwn(before, c, w, rep, today, rules);
    assert Evaluate(rows, Turn(c) + 1, w, rep, today, rules) == Reconcile(before, c, w, rep, today, rules);
    if c in rules.thresholds {
      OpenAtTurn(before, c, key, w, rep, today, rules, grace);
    }
  }

  // ---- What the flags record --------------------------------------------------------------------------

  lemma {:induction false} NoneBeforeTurn(rows: seq<Flag>, n: nat, c: Category, w: World, rep: Reporting, today: int, rules: Rules)
    requires n <= Turn(c)
    ensures var before := Evaluate(rows, n, w, rep, today, rules);
            && |rows| <= |before| && (forall i :: |rows| <= i < |before| ==> before[i].category != c)
            && (forall i :: 0 <= i < |rows| && before[i].category == c ==> before[i] == rows[i])
            && (forall i :: 0 <= i < |rows| ==> before[i].category == rows[i].category)
  {
    if n > 0 {
      NoneBeforeTurn(rows, n - 1, c, w, rep, today, rules);
      ReconcileTouchesItsOwn(Evaluate(rows, n - 1, w, rep, today, rules), CATEGORIES[n - 1], w, rep, today, rules);
    }
  }

  lemma {:induction false} KeptAfterTurn(rows: seq<Flag>, n: nat, c: Category, w: World, rep: Reporting, today: int, rules: Rules)
    requires Turn(c) < n <= |CATEGORIES|
    ensures var at, after := Evaluate(rows, Turn(c) + 1, w, rep, today, rules), Evaluate(rows, n, w, rep, today, rules);
            |at| <= |after| && forall i :: 0 <= i < |after| && after[i].category == c ==> i < |at| && after[i] == at[i]
    decreases n
  {
    if n > Turn(c) + 1 {
      KeptAfterTurn(rows, n - 1, c, w, rep, today, rules);
      ReconcileTouchesItsOwn(Evaluate(rows, n - 1, w, rep, today, rules), CATEGORIES[n - 1], w, rep, today, rules);
    }
  }

  /** A row of the category after its turn: a new one records the call, and one
      that is called for records today's measure. */
  lemma RecordedAtTurn(rows: seq<Flag>, c: Category, i: nat, w: World, rep: Reporting, today: int, rules: Rules, grace: int)
    requires c in rules.thresholds && IsRounded(rules.thresholds[c], grace)
    requires i < |Reconcile(rows, c, w, rep, today, rules)|
    requires Reconcile(rows, c, w, rep, today, rules)[i].category == c
    ensures var f := Reconcile(rows, c, w, rep, today, rules)[i];
            && (i >= |rows| ==>
                  && f.open && f.firstDetected == today && f.threshold == rules.thresholds[c]
                  && exists m :: CallsForFlag(c, f.key, w, rep, today, rules.thresholds[c], grace, rules.supply, m))
            && (forall m :: f.open && CallsForFlag(c, f.key, w, rep, today, rules.thresholds[c], grace, rules.supply, m) ==>
                  f.lastSeen == today && (c != DuplicatePo ==> f.measured == m))
  {
    var threshold := rules.thresholds[c];
    var e := EvaluationsOf(c, threshold, w, rep, today, rules.supply);
    var f := Reconcile(rows, c, w, rep, today, rules)[i];
    CategoryVerdict(c, f.key, w, rep, today, threshold, grace, rules.supply);
    if e.Some? {
      SyncRecords(rows, c, today, threshold, e.value, i);
    }
  }

  lemma SyncRecords(rows: seq<Flag>, c: Category, today: int, threshold: real, e: Evaluations, i: nat)
    requires i < |SyncFlags(rows, c, today, threshold, e)| && SyncFlags(rows, c, today, threshold, e)[i].category == c
    ensures var f := SyncFlags(rows, c, today, threshold, e)[i];
            && (i >= |rows| ==> f.open && f.firstDetected == today && f.threshold == threshold && VerdictOf(e, f.key) == Flagged)
            && (f.open && VerdictOf(e, f.key) == Flagged ==> f.lastSeen == today && f.measured == e.verdicts[f.key].measured)
  {
    var f := SyncFlags(rows, c, today, threshold, e)[i];
    if i >= |rows| {
      var keys := NewKeys(rows, c, e, |e.order|);
      NewKeyMembers(rows, c, e, |e.order|, keys[i - |rows|]);
    } else {
      assert f == NextFlag(rows[i], c, today, e);
    }
  }

  /** What the flags of an active category record after a call: today's measure
      where one is called for, and on a new flag also the date and the threshold. */
  lemma RecordedByCall(rows: seq<Flag>, c: Category, i: nat, w: World, rep: Reporting, today: int, rules: Rules, grace: int)
    requires c in rules.thresholds && IsRounded(rules.thresholds[c], grace)
    requires i < |EvaluateExceptions(rows, w, rep, today, rules)|
    requires EvaluateExceptions(rows, w, rep, today, rules)[i].category == c
    ensures var f := EvaluateExceptions(rows, w, rep, today, rules)[i];
            && (i >= |rows| ==>
                  && f.open && f.firstDetected == today && f.threshold == rules.thresholds[c]
                  && exists m :: CallsForFlag(c, f.key, w, rep, today, rules.thresholds[c], grace, rules.supply, m))
            && (forall m :: f.open && CallsForFlag(c, f.key, w, rep, today, rules.thresholds[c], grace, rules.supply, m) ==>
                  f.lastSeen == today && (c != DuplicatePo ==> f.measured == m))
  {
    var before := Evaluate(rows, Turn(c), w, rep, today, rules);
    KeptAfterTurn(rows, |CATEGORIES|, c, w, rep, today, rules);
    NoneBeforeTurn(rows, Turn(c), c, w, rep, today, rules);
    assert Evaluate(rows, Turn(c) + 1, w, rep, today, rules) == Reconcile(before, c, w, rep, today, rules);
    RecordedAtTurn(before, c, i, w, rep, today, rules, grace);
    ReconcileTouchesItsOwn(before, c, w, rep, today, rules);
  }

  /** The flags of an inactive category are all left as they were. */
  lemma {:induction false} InactiveKept(rows: seq<Flag>, n: nat, w: World, rep: Reporting, today: int, rules: Rules)
    requires n <= |CATEGORIES|
    ensures var after := Evaluate(rows, n, w, rep, today, rules);
            && |rows| <= |after|
            && (forall i :: 0 <= i < |rows| && rows[i].category !in rules.thresholds ==> after[i] == rows[i])
            && (forall i :: |rows| <= i < |after| ==> after[i].category in rules.thresholds)
  {
    if n > 0 {
      InactiveKept(rows, n - 1, w, rep, today, rules);
      ReconcileTouchesItsOwn(Evaluate(rows, n - 1, w, rep, today, rules), CATEGORIES[n - 1], w, rep, today, rules);
    }
  }
}
