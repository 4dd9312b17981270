/** Reconciling one category's verdicts with its open exception flags
    (_sync_flags of backend/app/services/exception_engine.py). */
module ExceptionFlags {
  import opened Sums
  import opened ReplenishmentPolicy

  datatype Category = LowStock | AtRiskPo | LateShipment | LagStale | ReportingConflict | DuplicatePo

  datatype Key = Key(product: Option<nat>, warehouse: Option<nat>, po: Option<nat>, shipment: Option<nat>)

  /** True, False, or "could not be measured this call". */
  datatype Verdict = Flagged | NotFlagged | Inconclusive

  datatype Evaluation = Evaluation(verdict: Verdict, measured: Option<real>)

  datatype Flag = Flag(
    category: Category, key: Key, lastSeen: int, firstDetected: int,
    measured: Option<real>, threshold: real, open: bool)

  /** A dict of evaluations: the keys in insertion order, and their values. */
  datatype Evaluations = Evaluations(order: seq<Key>, verdicts: map<Key, Evaluation>)

  ghost predicate WellFormed(e: Evaluations) {
    && (forall i, j :: 0 <= i < j < |e.order| ==> e.order[i] != e.order[j])
    && (forall key :: key in e.order <==> key in e.verdicts)
  }

  /** An entity the call did not look at counts as confidently not flagged. */
  function VerdictOf(e: Evaluations, key: Key): Verdict {
    if key in e.verdicts then e.verdicts[key].verdict else NotFlagged
  }

  predicate IsOpenIn(f: Flag, c: Category) {
    f.category == c && f.open
  }

  predicate HasOpen(rows: seq<Flag>, c: Category, key: Key) {
    exists i :: 0 <= i < |rows| && IsOpenIn(rows[i], c) && rows[i].key == key
  }

  /** The partial unique index: at most one open flag per category and entity. */
  predicate OneOpenPerEntity(rows: seq<Flag>) {
    forall i, j :: 0 <= i < j < |rows| ==>
      !(rows[i].open && rows[j].open && rows[i].category == rows[j].category && rows[i].key == rows[j].key)
  }

  // ---- What a call leaves -------------------------------------------------------

  function NextFlag(f: Flag, c: Category, today: int, e: Evaluations): Flag {
    if !IsOpenIn(f, c) then f
    else match VerdictOf(e, f.key)
         case NotFlagged => f.(open := false)
         case Inconclusive => f
         case Flagged => f.(lastSeen := today, measured := e.verdicts[f.key].measured)
  }

  function NextFlags(rows: seq<Flag>, c: Category, today: int, e: Evaluations): (r: seq<Flag>)
    ensures |r| == |rows| && forall i :: 0 <= i < |r| ==> r[i] == NextFlag(rows[i], c, today, e)
  {
    seq(|rows|, i requires 0 <= i < |rows| => NextFlag(rows[i], c, today, e))
  }

  predicate Opens(rows: seq<Flag>, c: Category, e: Evaluations, key: Key) {
    VerdictOf(e, key) == Flagged && !HasOpen(rows, c, key)
  }

  /** The keys that get a new row, among the first n evaluated. */
  function NewKeys(rows: seq<Flag>, c: Category, e: Evaluations, n: nat): seq<Key>
    requires n <= |e.order|
  {
    if n == 0 then []
    else
      var front, key := NewKeys(rows, c, e, n - 1), e.order[n - 1];
      if Opens(rows, c, e, key) then front + [key] else front
  }

  function NewFlag(c: Category, today: int, threshold: real, e: Evaluations, key: Key): Flag {
    Flag(c, key, today, today, if key in e.verdicts then e.verdicts[key].measured else None, threshold, true)
  }

  function FlagsFor(keys: seq<Key>, c: Category, today: int, threshold: real, e: Evaluations): (r: seq<Flag>)
    ensures |r| == |keys| && forall i :: 0 <= i < |r| ==> r[i] == NewFlag(c, today, threshold, e, keys[i])
  {
    seq(|keys|, i requires 0 <= i < |keys| => NewFlag(c, today, threshold, e, keys[i]))
  }

  function NewFlags(rows: seq<Flag>, c: Category, today: int, threshold: real, e: Evaluations): seq<Flag> {
    FlagsFor(NewKeys(rows, c, e, |e.order|), c, today, threshold, e)
  }

  function SyncFlags(rows: seq<Flag>, c: Category, today: int, threshold: real, e: Evaluations): seq<Flag> {
    NextFlags(rows, c, today, e) + NewFlags(rows, c, today, threshold, e)
  }

  function OpenedBy(rows: seq<Flag>, c: Category, e: Evaluations): nat {
    |NewKeys(rows, c, e, |e.order|)|
  }

  function Resolves(c: Category, e: Evaluations): Flag -> int {
    (f: Flag) => if IsOpenIn(f, c) && VerdictOf(e, f.key) == NotFlagged then 1 else 0
  }

  function ResolvedBy(rows: seq<Flag>, c: Category, e: Evaluations): int {
    Sum(rows, Resolves(c, e))
  }

  // ---- The service's loops ---------------------------------------------------------

  class FlagTable {
    var rows: seq<Flag>

    constructor ()
      ensures rows == []
    {
      rows := [];
    }

    /** What a rollback leaves. */
    method Restore(saved: seq<Flag>)
      modifies this
      ensures rows == saved
    {
      rows := saved;
    }

    /** The category's open flags by entity. */
    method ExistingOpen(c: Category) returns (existing: map<Key, nat>)
      requires OneOpenPerEntity(rows)
      ensures forall key :: key in existing <==> HasOpen(rows, c, key)
      ensures forall key :: key in existing ==>
        existing[key] < |rows| && IsOpenIn(rows[existing[key]], c) && rows[existing[key]].key == key
    {
      existing := map[];
      for i := 0 to |rows|
        invariant forall key :: key in existing <==> HasOpen(rows[..i], c, key)
        invariant forall key :: key in existing ==>
          existing[key] < i && IsOpenIn(rows[existing[key]], c) && rows[existing[key]].key == key
      {
        assert rows[..i + 1] == rows[..i] + [rows[i]];
        if IsOpenIn(rows[i], c) {
          existing := existing[rows[i].key := i];
          assert rows[..i + 1][i].key == rows[i].key;
        }
        forall key ensures key in existing <==> HasOpen(rows[..i + 1], c, key) {
          if HasOpen(rows[..i], c, key) {
            var k :| 0 <= k < i && IsOpenIn(rows[..i][k], c) && rows[..i][k].key == key;
            assert IsOpenIn(rows[..i + 1][k], c) && rows[..i + 1][k].key == key;
          }
        }
      }
      assert rows[..|rows|] == rows;
    }

    /** Resolves every open flag whose entity is confidently not flagged. */
    method ResolveCleared(c: Category, e: Evaluations) returns (resolvedKeys: set<Key>)
      requires OneOpenPerEntity(rows)
      modifies this
      ensures rows == Cleared(old(rows), c, e, |old(rows)|)
      ensures resolvedKeys == ClearedKeys(old(rows), c, e, |old(rows)|)
      ensures |resolvedKeys| == ResolvedBy(old(rows), c, e)
    {
      resolvedKeys := {};
      ghost var before := rows;
      for i := 0 to |rows|
        invariant rows == Cleared(before, c, e, i)
        invariant resolvedKeys == ClearedKeys(before, c, e, i)
        invariant |resolvedKeys| == Sum(before[..i], Resolves(c, e))
      {
        ClearOneMore(before, c, e, i);
        var row := rows[i];
        if IsOpenIn(row, c) && VerdictOf(e, row.key) == NotFlagged {
          rows := rows[i := row.(open := false)];
          resolvedKeys := resolvedKeys + {row.key};
        }
      }
      assert before[..|before|] == before;
    }

    /** Applies evaluation k: update the open row, insert a new one, or neither. */
    method ApplyEvaluation(c: Category, today: int, threshold: real, e: Evaluations, k: nat,
                           existing: map<Key, nat>, resolvedKeys: set<Key>, ghost before: seq<Flag>)
      returns (inserted: bool)
      requires WellFormed(e) && OneOpenPerEntity(before) && k < |e.order|
      requires rows == Progress(before, c, today, threshold, e, k)
      requires resolvedKeys == ClearedKeys(before, c, e, |before|)
      requires e.order[k] in existing <==> HasOpen(before, c, e.order[k])
      requires e.order[k] in existing ==>
        && existing[e.order[k]] < |before|
        && IsOpenIn(before[existing[e.order[k]]], c)
        && before[existing[e.order[k]]].key == e.order[k]
      modifies this
      ensures rows == Progress(before, c, today, threshold, e, k + 1)
      ensures inserted <==> Opens(before, c, e, e.order[k])
    {
      var key := e.order[k];
      inserted := false;
      if e.verdicts[key].verdict == Flagged {
        FlaggedNotCleared(before, c, e, key);
        if key in existing && key !in resolvedKeys {
          var i := existing[key];
          ObserveExisting(before, c, today, e, k, i);
          rows := rows[i := rows[i].(measured := e.verdicts[key].measured, lastSeen := today)];
        } else {
          inserted := true;
          ObserveOther(before, c, today, e, k);
          rows := rows + [Flag(c, key, today, today, e.verdicts[key].measured, threshold, true)];
          FlagsForOneMore(NewKeys(before, c, e, k), key, c, today, threshold, e);
        }
      } else {
        ObserveOther(before, c, today, e, k);
      }
    }

    method SyncFlagsFor(c: Category, today: int, threshold: real, e: Evaluations)
      returns (openCount: nat, resolveCount: nat)
      requires WellFormed(e) && OneOpenPerEntity(rows)
      modifies this
      ensures rows == SyncFlags(old(rows), c, today, threshold, e)
      ensures openCount == OpenedBy(old(rows), c, e) && resolveCount == ResolvedBy(old(rows), c, e)
    {
      ghost var before := rows;
      var existing := ExistingOpen(c);
      var resolvedKeys := ResolveCleared(c, e);
      ClearedBeforeObserving(before, c, today, e);
      openCount := 0;
      for k := 0 to |e.order|
        invariant openCount == |NewKeys(before, c, e, k)|
        invariant rows == Progress(before, c, today, threshold, e, k)
      {
        var inserted := ApplyEvaluation(c, today, threshold, e, k, existing, resolvedKeys, before);
        openCount := if inserted then openCount + 1 else openCount;
      }
      AllObserved(before, c, today, e);
      resolveCount := |resolvedKeys|;
    }
  }

  /** The table after the first n evaluations were applied. */
  ghost function Progress(rows: seq<Flag>, c: Category, today: int, threshold: real, e: Evaluations, n: nat): seq<Flag>
    requires n <= |e.order|
  {
    Observed(rows, c, today, e, n) + FlagsFor(NewKeys(rows, c, e, n), c, today, threshold, e)
  }

  lemma FlagsForOneMore(keys: seq<Key>, key: Key, c: Category, today: int, threshold: real, e: Evaluations)
    ensures FlagsFor(keys + [key], c, today, threshold, e)
         == FlagsFor(keys, c, today, threshold, e) + [NewFlag(c, today, threshold, e, key)]
  {
  }

  /** The table after the first n rows were checked for resolution. */
  function Cleared(rows: seq<Flag>, c: Category, e: Evaluations, n: nat): (r: seq<Flag>)
    requires n <= |rows|
    ensures |r| == |rows|
  {
    seq(|rows|, i requires 0 <= i < |rows| =>
      if i < n && Resolves(c, e)(rows[i]) == 1 then rows[i].(open := false) else rows[i])
  }

  function ClearedKeys(rows: seq<Flag>, c: Category, e: Evaluations, n: nat): set<Key>
    requires n <= |rows|
  {
    set i | 0 <= i < n && Resolves(c, e)(rows[i]) == 1 :: rows[i].key
  }

  /** The old rows after the first n evaluations were applied. */
  function Observed(rows: seq<Flag>, c: Category, today: int, e: Evaluations, n: nat): (r: seq<Flag>)
    requires n <= |e.order|
    ensures |r| == |rows|
  {
    seq(|rows|, i requires 0 <= i < |rows| =>
      if VerdictOf(e, rows[i].key) == Flagged && rows[i].key !in e.order[..n] then rows[i]
      else NextFlag(rows[i], c, today, e))
  }

  lemma ClearOneMore(rows: seq<Flag>, c: Category, e: Evaluations, n: nat)
    requires n < |rows| && OneOpenPerEntity(rows)
    ensures Cleared(rows, c, e, n)[n] == rows[n]
    ensures Sum(rows[..n + 1], Resolves(c, e)) == Sum(rows[..n], Resolves(c, e)) + Resolves(c, e)(rows[n])
    ensures if Resolves(c, e)(rows[n]) == 1 then
              && Cleared(rows, c, e, n + 1) == Cleared(rows, c, e, n)[n := rows[n].(open := false)]
              && ClearedKeys(rows, c, e, n + 1) == ClearedKeys(rows, c, e, n) + {rows[n].key}
              && rows[n].key !in ClearedKeys(rows, c, e, n)
            else
              Cleared(rows, c, e, n + 1) == Cleared(rows, c, e, n)
              && ClearedKeys(rows, c, e, n + 1) == ClearedKeys(rows, c, e, n)
  {
    assert rows[..n + 1] == rows[..n] + [rows[n]];
    SumAppend(rows[..n], rows[n], Resolves(c, e));
  }

  lemma ClearedBeforeObserving(rows: seq<Flag>, c: Category, today: int, e: Evaluations)
    ensures Cleared(rows, c, e, |rows|) == Observed(rows, c, today, e, 0)
  {
    assert e.order[..0] == [];
    forall i | 0 <= i < |rows|
      ensures Cleared(rows, c, e, |rows|)[i] == Observed(rows, c, today, e, 0)[i]
    {
      var f := rows[i];
      assert f.key !in e.order[..0];
      assert Resolves(c, e)(f) == if IsOpenIn(f, c) && VerdictOf(e, f.key) == NotFlagged then 1 else 0;
      assert VerdictOf(e, f.key) != Flagged ==>
        NextFlag(f, c, today, e) == if Resolves(c, e)(f) == 1 then f.(open := false) else f;
    }
  }

  lemma FlaggedNotCleared(rows: seq<Flag>, c: Category, e: Evaluations, key: Key)
    requires VerdictOf(e, key) == Flagged
    ensures key !in ClearedKeys(rows, c, e, |rows|)
  {
  }

  lemma ObserveExisting(rows: seq<Flag>, c: Category, today: int, e: Evaluations, n: nat, i: nat)
    requires WellFormed(e) && OneOpenPerEntity(rows)
    requires n < |e.order| && i < |rows| && IsOpenIn(rows[i], c) && rows[i].key == e.order[n]
    requires VerdictOf(e, e.order[n]) == Flagged
    ensures Observed(rows, c, today, e, n)[i] == rows[i]
    ensures Observed(rows, c, today, e, n + 1) == Observed(rows, c, today, e, n)[i := NextFlag(rows[i], c, today, e)]
  {
    assert e.order[..n + 1] == e.order[..n] + [e.order[n]];
  }

  lemma ObserveOther(rows: seq<Flag>, c: Category, today: int, e: Evaluations, n: nat)
    requires n < |e.order|
    requires VerdictOf(e, e.order[n]) == Flagged ==> !HasOpen(rows, c, e.order[n])
    ensures Observed(rows, c, today, e, n + 1) == Observed(rows, c, today, e, n)
  {
    assert e.order[..n + 1] == e.order[..n] + [e.order[n]];
  }

  lemma AllObserved(rows: seq<Flag>, c: Category, today: int, e: Evaluations)
    requires WellFormed(e)
    ensures Observed(rows, c, today, e, |e.order|) == NextFlags(rows, c, today, e)
  {
    assert e.order[..|e.order|] == e.order;
  }

  // ---- Reconciliation over any calls -------------------------------------------------

  lemma {:induction false} NewKeyMembers(rows: seq<Flag>, c: Category, e: Evaluations, n: nat, key: Key)
    requires n <= |e.order|
    ensures key in NewKeys(rows, c, e, n) <==> key in e.order[..n] && Opens(rows, c, e, key)
  {
    if n > 0 {
      NewKeyMembers(rows, c, e, n - 1, key);
      assert e.order[..n] == e.order[..n - 1] + [e.order[n - 1]];
    }
  }

  lemma {:induction false} NewKeysDistinct(rows: seq<Flag>, c: Category, e: Evaluations, n: nat, i: nat, j: nat)
    requires WellFormed(e) && n <= |e.order| && i < j < |NewKeys(rows, c, e, n)|
    ensures NewKeys(rows, c, e, n)[i] != NewKeys(rows, c, e, n)[j]
  {
    var front := NewKeys(rows, c, e, n - 1);
    if j < |front| {
      NewKeysDistinct(rows, c, e, n - 1, i, j);
    } else {
      NewKeyMembers(rows, c, e, n - 1, front[i]);
    }
  }

  lemma OpenAmongKept(rows: seq<Flag>, c: Category, today: int, e: Evaluations, key: Key)
    ensures HasOpen(NextFlags(rows, c, today, e), c, key) <==> HasOpen(rows, c, key) && VerdictOf(e, key) != NotFlagged
  {
    var kept := NextFlags(rows, c, today, e);
    if HasOpen(kept, c, key) {
      var i :| 0 <= i < |kept| && IsOpenIn(kept[i], c) && kept[i].key == key;
      assert IsOpenIn(rows[i], c) && rows[i].key == key;
    }
    if HasOpen(rows, c, key) && VerdictOf(e, key) != NotFlagged {
      var i :| 0 <= i < |rows| && IsOpenIn(rows[i], c) && rows[i].key == key;
      assert IsOpenIn(kept[i], c) && kept[i].key == key;
    }
  }

  lemma OpenAmongNew(rows: seq<Flag>, c: Category, today: int, threshold: real, e: Evaluations, key: Key)
    requires WellFormed(e)
    ensures HasOpen(NewFlags(rows, c, today, threshold, e), c, key) <==> Opens(rows, c, e, key)
  {
    var keys, added := NewKeys(rows, c, e, |e.order|), NewFlags(rows, c, today, threshold, e);
    NewKeyMembers(rows, c, e, |e.order|, key);
    assert e.order[..|e.order|] == e.order;
    if key in keys {
      var i :| 0 <= i < |keys| && keys[i] == key;
      assert IsOpenIn(added[i], c) && added[i].key == key;
    }
    if HasOpen(added, c, key) {
      var i :| 0 <= i < |added| && IsOpenIn(added[i], c) && added[i].key == key;
      assert keys[i] == key;
    }
  }

  lemma OpenAmongBoth(a: seq<Flag>, b: seq<Flag>, c: Category, key: Key)
    ensures HasOpen(a + b, c, key) <==> HasOpen(a, c, key) || HasOpen(b, c, key)
  {
    if HasOpen(a, c, key) {
      var i :| 0 <= i < |a| && IsOpenIn(a[i], c) && a[i].key == key;
      assert (a + b)[i] == a[i];
    } else if HasOpen(b, c, key) {
      var i :| 0 <= i < |b| && IsOpenIn(b[i], c) && b[i].key == key;
      assert (a + b)[|a| + i] == b[i];
    }
  }

  /** After a call the open entities are exactly those flagged, plus those that
      could not be measured and were already open. */
  lemma OpenSetAfterSync(rows: seq<Flag>, c: Category, today: int, threshold: real, e: Evaluations, key: Key)
    requires WellFormed(e)
    ensures HasOpen(SyncFlags(rows, c, today, threshold, e), c, key)
       <==> VerdictOf(e, key) == Flagged || (VerdictOf(e, key) == Inconclusive && HasOpen(rows, c, key))
  {
    OpenAmongBoth(NextFlags(rows, c, today, e), NewFlags(rows, c, today, threshold, e), c, key);
    OpenAmongKept(rows, c, today, e, key);
    OpenAmongNew(rows, c, today, threshold, e, key);
  }

  lemma OneOpenConcat(a: seq<Flag>, b: seq<Flag>, c: Category)
    requires OneOpenPerEntity(a) && OneOpenPerEntity(b)
    requires forall i :: 0 <= i < |b| ==> IsOpenIn(b[i], c) && !HasOpen(a, c, b[i].key)
    ensures OneOpenPerEntity(a + b)
  {
  }

  /** No call ever leaves two open flags for one entity of one category. */
  lemma SyncKeepsOneOpen(rows: seq<Flag>, c: Category, today: int, threshold: real, e: Evaluations)
    requires WellFormed(e) && OneOpenPerEntity(rows)
    ensures OneOpenPerEntity(SyncFlags(rows, c, today, threshold, e))
  {
    var kept, added := NextFlags(rows, c, today, e), NewFlags(rows, c, today, threshold, e);
    var keys := NewKeys(rows, c, e, |e.order|);
    forall i, j | 0 <= i < j < |added| ensures added[i].key != added[j].key {
      NewKeysDistinct(rows, c, e, |e.order|, i, j);
    }
    forall i | 0 <= i < |added| ensures IsOpenIn(added[i], c) && !HasOpen(kept, c, added[i].key) {
      NewKeyMembers(rows, c, e, |e.order|, keys[i]);
      OpenAmongKept(rows, c, today, e, keys[i]);
    }
    OneOpenConcat(kept, added, c);
  }

  /** An existing row keeps its detection facts, and a resolved or foreign row is never touched. */
  lemma SyncKeepsHistory(rows: seq<Flag>, c: Category, today: int, threshold: real, e: Evaluations, i: nat)
    requires i < |rows|
    ensures var after := SyncFlags(rows, c, today, threshold, e);
            && i < |after|
            && after[i].category == rows[i].category && after[i].key == rows[i].key
            && after[i].threshold == rows[i].threshold && after[i].firstDetected == rows[i].firstDetected
            && (!IsOpenIn(rows[i], c) ==> after[i] == rows[i])
            && (after[i].open ==> rows[i].open)
  {
    assert SyncFlags(rows, c, today, threshold, e)[i] == NextFlags(rows, c, today, e)[i];
  }

  /** From one state of the table to a later one: every row keeps what it
      recorded when it was opened, and a closed row does not change at all. */
  predicate KeepsHistory(before: seq<Flag>, after: seq<Flag>) {
    && |before| <= |after|
    && forall i :: 0 <= i < |before| ==>
         && after[i].category == before[i].category && after[i].key == before[i].key
         && after[i].threshold == before[i].threshold && after[i].firstDetected == before[i].firstDetected
         && (!before[i].open ==> after[i] == before[i])
  }

  lemma SyncKeepsAllHistory(rows: seq<Flag>, c: Category, today: int, threshold: real, e: Evaluations)
    ensures KeepsHistory(rows, SyncFlags(rows, c, today, threshold, e))
  {
    forall i: nat | i < |rows| {
      SyncKeepsHistory(rows, c, today, threshold, e, i);
    }
  }

  function CountsOpen(): Flag -> int {
    (f: Flag) => if f.open then 1 else 0
  }

  lemma {:induction false} KeptOpenCount(rows: seq<Flag>, c: Category, today: int, e: Evaluations)
    ensures Sum(NextFlags(rows, c, today, e), CountsOpen()) == Sum(rows, CountsOpen()) - ResolvedBy(rows, c, e)
    decreases |rows|
  {
    if rows != [] {
      var front, last := rows[..|rows| - 1], rows[|rows| - 1];
      KeptOpenCount(front, c, today, e);
      assert NextFlags(rows, c, today, e) == NextFlags(front, c, today, e) + [NextFlag(last, c, today, e)];
      SumAppend(NextFlags(front, c, today, e), NextFlag(last, c, today, e), CountsOpen());
    }
  }

  lemma {:induction false} AllOpenCount(rows: seq<Flag>)
    requires forall i :: 0 <= i < |rows| ==> rows[i].open
    ensures Sum(rows, CountsOpen()) == |rows|
    decreases |rows|
  {
    if rows != [] {
      AllOpenCount(rows[..|rows| - 1]);
    }
  }

  /** What a call reports as opened minus resolved is the change in the number of open flags of all categories. */
  lemma OpenedMinusResolved(rows: seq<Flag>, c: Category, today: int, threshold: real, e: Evaluations)
    ensures OpenedBy(rows, c, e) - ResolvedBy(rows, c, e)
         == Sum(SyncFlags(rows, c, today, threshold, e), CountsOpen()) - Sum(rows, CountsOpen())
  {
    var kept, added := NextFlags(rows, c, today, e), NewFlags(rows, c, today, threshold, e);
    SumConcat(kept, added, CountsOpen());
    KeptOpenCount(rows, c, today, e);
    AllOpenCount(added);
  }

  /** Repeating a call with the same verdicts opens nothing and resolves nothing. */
  lemma RepeatChangesNoMembership(rows: seq<Flag>, c: Category, today: int, threshold: real, e: Evaluations)
    requires WellFormed(e)
    ensures var after := SyncFlags(rows, c, today, threshold, e);
            OpenedBy(after, c, e) == 0 && ResolvedBy(after, c, e) == 0
  {
    var after := SyncFlags(rows, c, today, threshold, e);
    var keys := NewKeys(after, c, e, |e.order|);
    if keys != [] {
      NewKeyMembers(after, c, e, |e.order|, keys[0]);
      OpenSetAfterSync(rows, c, today, threshold, e, keys[0]);
    }
    forall i | 0 <= i < |after| ensures Resolves(c, e)(after[i]) == 0 {
      if IsOpenIn(after[i], c) {
        assert HasOpen(after, c, after[i].key);
        OpenSetAfterSync(rows, c, today, threshold, e, after[i].key);
      }
    }
    SumZero(after, Resolves(c, e));
  }
}
