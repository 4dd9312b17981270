/** The lagged reporting layer (backend/app/services/reporting_sync.py and
    backend/app/domain/reporting_sync.py): a day-by-day copy of the live daily
    snapshots that lags behind them, and freezes one corrupted entity. */
module ReportingSync {
  import opened ReplenishmentPolicy
  import opened FlowTables

  const KNOWN_CONFLICT_QTY_OFFSET := 25

  type Live = map<SnapshotKey, Snapshot>

  datatype Entity = Entity(product: nat, warehouse: nat)

  /** The copied rows and the designated conflict entity. */
  datatype Replica = Replica(frozen: Option<Entity>, rows: Live)

  datatype Reporting = Reporting(lastSynced: Option<int>, replica: Replica)

  const NEVER_SYNCED := Reporting(None, Replica(None, map[]))

  function EntityOf(key: SnapshotKey): Entity {
    Entity(key.product, key.warehouse)
  }

  predicate EntityLeq(a: Entity, b: Entity) {
    a.product < b.product || (a.product == b.product && a.warehouse <= b.warehouse)
  }

  // ---- Minima -----------------------------------------------------------------

  lemma LeastDayExists(s: set<int>, y: int)
    requires y in s
    ensures exists m :: m in s && forall x :: x in s ==> m <= x
  {
    var rest := s - {y};
    assert s == rest + {y};
    if z :| z in rest {
      LeastDayExists(rest, z);
      var m :| m in rest && forall x :: x in rest ==> m <= x;
      var least := if m <= y then m else y;
      assert least in s && forall x :: x in s ==> least <= x;
    }
  }

  lemma LeastEntityExists(s: set<Entity>)
    requires s != {}
    ensures exists m :: m in s && forall x :: x in s ==> EntityLeq(m, x)
  {
    var y :| y in s;
    if s != {y} {
      var rest := s - {y};
      assert s == rest + {y};
      LeastEntityExists(rest);
      var m :| m in rest && forall x :: x in rest ==> EntityLeq(m, x);
      var least := if EntityLeq(m, y) then m else y;
      assert least in s && forall x :: x in s ==> EntityLeq(least, x);
    }
  }

  /** The lexicographically smallest candidate. */
  function PickConflictEntity(s: set<Entity>): (m: Entity)
    requires s != {}
    ensures m in s && forall x :: x in s ==> m.product < x.product || (m.product == x.product && m.warehouse <= x.warehouse)
  {
    LeastEntityExists(s);
    var m :| m in s && forall x :: x in s ==> EntityLeq(m, x);
    m
  }

  function Days(live: Live): set<int> {
    set key | key in live :: key.day
  }

  lemma EarliestExists(live: Live)
    requires live != map[]
    ensures exists e :: e in Days(live) && forall x :: x in Days(live) ==> e <= x
  {
    var key :| key in live;
    assert key.day in Days(live);
    LeastDayExists(Days(live), key.day);
  }

  function Earliest(live: Live): (e: Option<int>)
    ensures e.None? <==> live == map[]
    ensures e.Some? ==> (exists key :: key in live && key.day == e.value) && forall key :: key in live ==> e.value <= key.day
  {
    if live == map[] then None
    else
      assert forall k :: k in live ==> k.day in Days(live);
      EarliestExists(live);
      var e :| e in Days(live) && forall x :: x in Days(live) ==> e <= x;
      Some(e)
  }

  function EntitiesOn(live: Live, day: int): set<Entity> {
    set key | key in live && key.day == day :: EntityOf(key)
  }

  // ---- One sync call ------------------------------------------------------------

  /** The entity frozen from this day on. */
  function FrozenAfter(r: Replica, live: Live, day: int): Option<Entity> {
    if r.frozen.None? && EntitiesOn(live, day) != {} then Some(PickConflictEntity(EntitiesOn(live, day))) else r.frozen
  }

  predicate Copied(r: Replica, day: int, key: SnapshotKey) {
    key.day == day && (r.frozen.None? || EntityOf(key) != r.frozen.value)
  }

  function CopyOf(r: Replica, live: Live, day: int, key: SnapshotKey): Snapshot
    requires key in live
  {
    if FrozenAfter(r, live, day) == Some(EntityOf(key)) then
      live[key].(onHand := live[key].onHand + KNOWN_CONFLICT_QTY_OFFSET)
    else live[key]
  }

  /** One day copied; rows already present win (ON CONFLICT DO NOTHING). */
  function SyncDay(r: Replica, live: Live, day: int): Replica {
    Replica(FrozenAfter(r, live, day),
            (map key | key in live && Copied(r, day, key) :: CopyOf(r, live, day, key)) + r.rows)
  }

  function SyncThrough(r: Replica, live: Live, start: int, last: int): Replica
    decreases last - start
  {
    if last < start then r else SyncDay(SyncThrough(r, live, start, last - 1), live, last)
  }

  function Sync(rep: Reporting, live: Live, target: int): Reporting {
    if rep.lastSynced.Some? then
      if rep.lastSynced.value >= target then rep
      else Reporting(Some(target), SyncThrough(rep.replica, live, rep.lastSynced.value + 1, target))
    else
      var earliest := Earliest(live);
      if earliest.None? || earliest.value > target then rep
      else Reporting(Some(target), SyncThrough(rep.replica, live, earliest.value, target))
  }

  function TargetSyncDate(simulationDate: int, lagDays: nat): int {
    simulationDate - lagDays
  }

  /** The sync job as the service runs it. */
  class ReportingLayer {
    var lastSynced: Option<int>
    var frozen: Option<Entity>
    var rows: Live

    function State(): Reporting
      reads this
    {
      Reporting(lastSynced, Replica(frozen, rows))
    }

    constructor ()
      ensures State() == NEVER_SYNCED
    {
      lastSynced, frozen, rows := None, None, map[];
    }

    /** What a rollback leaves. */
    method Restore(saved: Reporting)
      modifies this
      ensures State() == saved
    {
      lastSynced, frozen, rows := saved.lastSynced, saved.replica.frozen, saved.replica.rows;
    }

    /** The row loop of one day: what is inserted for the day's live rows. */
    static method DayValues(live: Live, day: int, conflict: Option<Entity>, newlyDesignated: bool) returns (values: Live)
      ensures values == map key | key in live && key.day == day && (newlyDesignated || conflict != Some(EntityOf(key))) ::
                if conflict == Some(EntityOf(key)) then live[key].(onHand := live[key].onHand + KNOWN_CONFLICT_QTY_OFFSET)
                else live[key]
    {
      values := map[];
      var pending := set key | key in live && key.day == day;
      while pending != {}
        invariant pending <= set key | key in live && key.day == day
        invariant values == map key | key in live && key.day == day && key !in pending
                                      && (newlyDesignated || conflict != Some(EntityOf(key))) ::
                    if conflict == Some(EntityOf(key)) then live[key].(onHand := live[key].onHand + KNOWN_CONFLICT_QTY_OFFSET)
                    else live[key]
        decreases pending
      {
        var key :| key in pending;
        pending := pending - {key};
        if conflict == Some(EntityOf(key)) {
          if newlyDesignated {
            values := values[key := live[key].(onHand := live[key].onHand + KNOWN_CONFLICT_QTY_OFFSET)];
          }
        } else {
          values := values[key := live[key]];
        }
      }
    }

    /** One day's designation, rows and insert-if-absent. */
    method SyncOneDay(live: Live, day: int)
      modifies this`frozen, this`rows
      ensures Replica(frozen, rows) == SyncDay(old(Replica(frozen, rows)), live, day)
    {
      ghost var before := Replica(frozen, rows);
      var candidates := EntitiesOn(live, day);
      var newlyDesignated := frozen.None? && candidates != {};
      if newlyDesignated {
        frozen := Some(PickConflictEntity(candidates));
      }
      var values := DayValues(live, day, frozen, newlyDesignated);
      DesignationMatches(before, live, day, values);
      rows := values + rows;
    }

    /** The day loop of one call. */
    method SyncDays(live: Live, start: int, target: int)
      requires start <= target + 1
      modifies this`frozen, this`rows
      ensures Replica(frozen, rows) == SyncThrough(old(Replica(frozen, rows)), live, start, target)
    {
      ghost var before := Replica(frozen, rows);
      var day := start;
      while day <= target
        invariant start <= day <= target + 1
        invariant Replica(frozen, rows) == SyncThrough(before, live, start, day - 1)
      {
        SyncOneDay(live, day);
        day := day + 1;
      }
    }

    method SyncReportingLayer(live: Live, simulationDate: int, lagDays: nat)
      modifies this
      ensures State() == Sync(old(State()), live, TargetSyncDate(simulationDate, lagDays))
      ensures lastSynced.Some? ==> simulationDate - lastSynced.value <= lagDays
    {
      var target := TargetSyncDate(simulationDate, lagDays);
      var start;
      if lastSynced.Some? {
        if lastSynced.value >= target {
          return;
        }
        start := lastSynced.value + 1;
      } else {
        var earliest := Earliest(live);
        if earliest.None? || earliest.value > target {
          return;
        }
        start := earliest.value;
      }
      SyncDays(live, start, target);
      lastSynced := Some(target);
    }
  }

  /** The row loop's skip rule is the one that leaves out the entity frozen before today. */
  lemma DesignationMatches(r: Replica, live: Live, day: int, values: Live)
    requires var conflict := FrozenAfter(r, live, day);
             var newly := r.frozen.None? && EntitiesOn(live, day) != {};
             values == map key | key in live && key.day == day && (newly || conflict != Some(EntityOf(key))) ::
               if conflict == Some(EntityOf(key)) then live[key].(onHand := live[key].onHand + KNOWN_CONFLICT_QTY_OFFSET)
               else live[key]
    ensures values == map key | key in live && Copied(r, day, key) :: CopyOf(r, live, day, key)
  {
    forall key | key in live && key.day == day ensures EntityOf(key) in EntitiesOn(live, day) {}
  }

  // ---- Sync schedule independence -------------------------------------------------

  /** The layer after a single call at the given target. */
  function Ideal(live: Live, target: int): Reporting {
    Sync(NEVER_SYNCED, live, target)
  }

  /** What a call sees: the final live table up to the day it runs on. */
  function View(live: Live, day: int): Live {
    map key | key in live && key.day <= day :: live[key]
  }

  datatype Call = Call(today: int, target: int)

  function RunCalls(live: Live, calls: seq<Call>): Reporting {
    if calls == [] then NEVER_SYNCED
    else
      var last := calls[|calls| - 1];
      Sync(RunCalls(live, calls[..|calls| - 1]), View(live, last.today), last.target)
  }

  function Max(a: int, b: int): int {
    if a >= b then a else b
  }

  function LargestTarget(calls: seq<Call>): int
    requires calls != []
  {
    var last := calls[|calls| - 1].target;
    if |calls| == 1 then last else Max(LargestTarget(calls[..|calls| - 1]), last)
  }

  lemma SyncDayView(r: Replica, live: Live, today: int, day: int)
    requires day <= today
    ensures SyncDay(r, View(live, today), day) == SyncDay(r, live, day)
  {
    var view := View(live, today);
    assert EntitiesOn(view, day) == EntitiesOn(live, day) by {
      forall key | key in live && key.day == day ensures EntityOf(key) in EntitiesOn(view, day) {
        assert key in view;
      }
    }
    var a := map key | key in view && Copied(r, day, key) :: CopyOf(r, view, day, key);
    var b := map key | key in live && Copied(r, day, key) :: CopyOf(r, live, day, key);
    assert a.Keys == b.Keys;
    assert a == b;
  }

  lemma {:induction false} SyncThroughView(r: Replica, live: Live, today: int, start: int, last: int)
    requires last <= today
    ensures SyncThrough(r, View(live, today), start, last) == SyncThrough(r, live, start, last)
    decreases last - start
  {
    if last >= start {
      SyncThroughView(r, live, today, start, last - 1);
      SyncDayView(SyncThrough(r, live, start, last - 1), live, today, last);
    }
  }

  lemma {:induction false} SyncThroughSplits(r: Replica, live: Live, start: int, mid: int, last: int)
    requires start - 1 <= mid <= last
    ensures SyncThrough(SyncThrough(r, live, start, mid), live, mid + 1, last) == SyncThrough(r, live, start, last)
    decreases last - mid
  {
    if mid < last {
      SyncThroughSplits(r, live, start, mid, last - 1);
    }
  }

  lemma EarliestView(live: Live, today: int)
    ensures var e := Earliest(live);
            Earliest(View(live, today)) == if e.Some? && e.value <= today then e else None
  {
    var view := View(live, today);
    if live != map[] {
      var e := Earliest(live).value;
      var key :| key in live && key.day == e;
      if e <= today {
        assert key in view;
      } else {
        assert view == map[];
      }
    }
  }

  /** Days after the target do not matter. */
  lemma IdealView(live: Live, today: int, target: int)
    requires target <= today
    ensures Ideal(View(live, today), target) == Ideal(live, target)
  {
    EarliestView(live, today);
    var e := Earliest(live);
    if e.Some? && e.value <= target {
      SyncThroughView(NEVER_SYNCED.replica, live, today, e.value, target);
    }
  }

  /** A call at a later target continues exactly where the earlier one stopped. */
  lemma SyncContinues(live: Live, done: int, target: int)
    ensures Sync(Ideal(live, done), live, target) == Ideal(live, Max(done, target))
  {
    var e := Earliest(live);
    if e.Some? && e.value <= done < target {
      SyncThroughSplits(NEVER_SYNCED.replica, live, e.value, done, target);
    }
  }

  lemma SyncOnView(live: Live, done: int, today: int, target: int)
    requires target <= today
    ensures Sync(Ideal(live, done), View(live, today), target) == Ideal(live, Max(done, target))
  {
    SyncContinues(live, done, target);
    EarliestView(live, today);
    var rep := Ideal(live, done);
    if rep.lastSynced.Some? {
      SyncThroughView(rep.replica, live, today, done + 1, target);
    } else {
      IdealView(live, today, target);
    }
  }

  /** However the calls were scheduled, in whatever order and with whatever
      gaps, the layer is the one a single call at the largest target leaves. */
  lemma {:induction false} ScheduleIndependence(live: Live, calls: seq<Call>)
    requires calls != [] && forall i :: 0 <= i < |calls| ==> calls[i].target <= calls[i].today
    ensures RunCalls(live, calls) == Ideal(live, LargestTarget(calls))
    decreases |calls|
  {
    var last := calls[|calls| - 1];
    if |calls| == 1 {
      assert RunCalls(live, calls[..0]) == NEVER_SYNCED;
      IdealView(live, last.today, last.target);
    } else {
      var front := calls[..|calls| - 1];
      ScheduleIndependence(live, front);
      SyncOnView(live, LargestTarget(front), last.today, last.target);
    }
  }

  // ---- What the replica holds -----------------------------------------------------

  predicate IsMirrored(key: SnapshotKey, live: Live, first: int, target: int, frozen: Entity) {
    key in live && key.day <= target && (EntityOf(key) != frozen || key.day == first)
  }

  /** The replica holds exactly the live rows up to the target, except that the
      frozen entity has the single row of the first day, off by the offset. */
  ghost predicate Mirrors(r: Replica, live: Live, first: int, frozen: Entity, target: int) {
    && r.frozen == Some(frozen)
    && (forall key :: key in r.rows <==> IsMirrored(key, live, first, target, frozen))
    && (forall key :: key in r.rows ==>
          r.rows[key] == if EntityOf(key) == frozen then live[key].(onHand := live[key].onHand + 25)
                         else live[key])
  }

  lemma FirstDayMirrors(live: Live, first: int)
    requires Earliest(live) == Some(first)
    ensures EntitiesOn(live, first) != {}
    ensures Mirrors(SyncDay(NEVER_SYNCED.replica, live, first), live, first, PickConflictEntity(EntitiesOn(live, first)), first)
  {
    var key :| key in live && key.day == first;
    assert EntityOf(key) in EntitiesOn(live, first);
  }

  lemma NextDayMirrors(r: Replica, live: Live, first: int, frozen: Entity, target: int)
    requires Mirrors(r, live, first, frozen, target) && first <= target
    ensures Mirrors(SyncDay(r, live, target + 1), live, first, frozen, target + 1)
  {
  }

  lemma {:induction false} SyncThroughMirrors(live: Live, first: int, frozen: Entity, target: int)
    requires first <= target
    requires Mirrors(SyncThrough(NEVER_SYNCED.replica, live, first, first), live, first, frozen, first)
    ensures Mirrors(SyncThrough(NEVER_SYNCED.replica, live, first, target), live, first, frozen, target)
    decreases target - first
  {
    if target > first {
      SyncThroughMirrors(live, first, frozen, target - 1);
      NextDayMirrors(SyncThrough(NEVER_SYNCED.replica, live, first, target - 1), live, first, frozen, target - 1);
    }
  }

  /** A synced layer is exactly the mirror of the live days up to its horizon. */
  lemma IdealMirrors(live: Live, target: int)
    requires live != map[] && Earliest(live).value <= target
    ensures Ideal(live, target).lastSynced == Some(target)
    ensures var first := Earliest(live).value;
            && EntitiesOn(live, first) != {}
            && Mirrors(Ideal(live, target).replica, live, first, PickConflictEntity(EntitiesOn(live, first)), target)
  {
    var first := Earliest(live).value;
    FirstDayMirrors(live, first);
    assert SyncThrough(NEVER_SYNCED.replica, live, first, first - 1) == NEVER_SYNCED.replica;
    SyncThroughMirrors(live, first, PickConflictEntity(EntitiesOn(live, first)), target);
  }

  // ---- The two read-only checks -----------------------------------------------------

  predicate IsLagStale(simulationDate: int, lastSynced: Option<int>, maxLagDays: int) {
    lastSynced.Some? && simulationDate - lastSynced.value > maxLagDays
  }

  /** A sync leaves a layer that is synced at all within its lag, and never
      moves the horizon back. */
  lemma LagAfterSync(rep: Reporting, live: Live, today: int, lagDays: nat)
    ensures var after := Sync(rep, live, TargetSyncDate(today, lagDays));
            && !IsLagStale(today, after.lastSynced, lagDays)
            && (rep.lastSynced.Some? ==> after.lastSynced.Some? && after.lastSynced.value >= rep.lastSynced.value)
            && (after.lastSynced.None? ==> forall key :: key in live ==> key.day > today - lagDays)
  {
  }

  datatype ConflictCheck = ConflictCheck(entity: Entity, isFlagged: bool, variance: int)

  function FrozenDays(r: Replica, e: Entity): set<int> {
    set key | key in r.rows && EntityOf(key) == e :: key.day
  }

  lemma LatestDayExists(s: set<int>, y: int)
    requires y in s
    ensures exists m :: m in s && forall x :: x in s ==> x <= m
  {
    var rest := s - {y};
    assert s == rest + {y};
    if z :| z in rest {
      LatestDayExists(rest, z);
      var m :| m in rest && forall x :: x in rest ==> x <= m;
      var latest := if m >= y then m else y;
      assert latest in s && forall x :: x in s ==> x <= latest;
    }
  }

  function LatestRow(r: Replica, e: Entity): (key: SnapshotKey)
    requires FrozenDays(r, e) != {}
    ensures key in r.rows && EntityOf(key) == e
    ensures forall k :: k in r.rows && EntityOf(k) == e ==> k.day <= key.day
  {
    assert exists k :: k in r.rows && EntityOf(k) == e;
    FrozenDaysLatest(r, e);
    var day :| day in FrozenDays(r, e) && forall x :: x in FrozenDays(r, e) ==> x <= day;
    assert forall k :: k in r.rows && EntityOf(k) == e ==> k.day in FrozenDays(r, e);
    SnapshotKey(day, e.product, e.warehouse)
  }

  lemma FrozenDaysLatest(r: Replica, e: Entity)
    requires exists k :: k in r.rows && EntityOf(k) == e
    ensures exists m :: m in FrozenDays(r, e) && forall x :: x in FrozenDays(r, e) ==> x <= m
  {
    var k :| k in r.rows && EntityOf(k) == e;
    assert k.day in FrozenDays(r, e);
    LatestDayExists(FrozenDays(r, e), k.day);
  }

  /** The frozen entity's latest reporting row against live's row of that day. */
  function CheckReportingConflict(r: Replica, live: Live, tolerance: real): Option<ConflictCheck> {
    if r.frozen.None? then None
    else
      var e := r.frozen.value;
      if FrozenDays(r, e) == {} then None
      else
        var key := LatestRow(r, e);
        var liveQuantity := if key in live then live[key].onHand else 0;
        var difference := r.rows[key].onHand - liveQuantity;
        var variance := if difference >= 0 then difference else -difference;
        Some(ConflictCheck(e, variance as real > tolerance, variance))
  }

  /** Once anything was synced the conflict is there and always measures 25. */
  lemma VarianceIsConstant(live: Live, target: int, tolerance: real)
    requires live != map[] && Earliest(live).value <= target
    ensures var check := CheckReportingConflict(Ideal(live, target).replica, live, tolerance);
            && check.Some?
            && check.value.variance == 25
            && (check.value.isFlagged <==> 25.0 > tolerance)
  {
    IdealMirrors(live, target);
    var r := Ideal(live, target).replica;
    var first, e := Earliest(live).value, r.frozen.value;
    var source :| source in live && source.day == first && EntityOf(source) == e;
    assert IsMirrored(source, live, first, target, e);
    assert source in r.rows;
    assert first in FrozenDays(r, e);
    forall day | day in FrozenDays(r, e) ensures day == first {
      var key :| key in r.rows && EntityOf(key) == e && key.day == day;
      assert IsMirrored(key, live, first, target, e);
    }
    assert LatestRow(r, e).day == first;
    assert source == SnapshotKey(first, e.product, e.warehouse);
  }
}
