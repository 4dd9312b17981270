/** The decision ledger: its transition table (backend/app/domain/ledger.py) and
    the helpers that stamp a row as it moves (backend/app/services/ledger.py). */
module Decisions {
  import opened ReplenishmentPolicy

  datatype Status =
    | Proposed | ClarificationRequested | Accepted | Rejected
    | Implemented | PartiallyImplemented | OutcomeObserved | Stale

  function Allowed(from: Status): set<Status> {
    match from
    case Proposed => {ClarificationRequested, Accepted, Rejected, Stale}
    case ClarificationRequested => {Proposed, Accepted, Rejected, Stale}
    case Stale => {Accepted, Rejected}
    case Accepted => {Implemented, PartiallyImplemented}
    case Rejected => {}
    case Implemented => {OutcomeObserved}
    case PartiallyImplemented => {OutcomeObserved}
    case OutcomeObserved => {}
  }

  /** Times are in seconds. */
  datatype Decision = Decision(
    isDecision: bool, status: Status, proposedAt: int,
    decidedAt: Option<int>, implementedAt: Option<int>, outcomeAt: Option<int>, staleAt: Option<int>)

  function NewDecision(isDecision: bool, now: int): Decision {
    Decision(isDecision, Proposed, now, None, None, None, None)
  }

  datatype LedgerError = DecisionNotFound | InvalidTransition

  predicate IsDecisionStale(proposedAt: int, asOf: int, afterDays: int) {
    asOf - proposedAt >= 86400 * afterDays
  }

  predicate IsStaleCandidate(d: Decision) {
    d.isDecision && (d.status.Proposed? || d.status.ClarificationRequested?)
  }

  // ---- One call ----------------------------------------------------------------------

  /** A call of request_clarification, resubmit, accept, reject,
      mark_implemented, mark_partially_implemented or record_outcome. */
  datatype Move = Clarify | Resubmit | Accept | Reject | Implement | ImplementPartly | RecordOutcome

  function Target(m: Move): Status {
    match m
    case Clarify => ClarificationRequested
    case Resubmit => Proposed
    case Accept => Accepted
    case Reject => Rejected
    case Implement => Implemented
    case ImplementPartly => PartiallyImplemented
    case RecordOutcome => OutcomeObserved
  }

  function MoveError(rows: seq<Decision>, id: nat, m: Move): Option<LedgerError> {
    if id >= |rows| then Some(DecisionNotFound)
    else if Target(m) !in Allowed(rows[id].status) then Some(InvalidTransition)
    else None
  }

  function Stamped(d: Decision, m: Move, now: int): Decision {
    match m
    case Clarify => d.(status := ClarificationRequested)
    case Resubmit => d.(status := Proposed)
    case Accept => d.(status := Accepted, decidedAt := Some(now))
    case Reject => d.(status := Rejected, decidedAt := Some(now))
    case Implement => d.(status := Implemented, implementedAt := Some(now))
    case ImplementPartly => d.(status := PartiallyImplemented, implementedAt := Some(now))
    case RecordOutcome => d.(status := OutcomeObserved, outcomeAt := Some(now))
  }

  /** What flag_stale does to a row that no other transaction has locked. */
  function Flagged(d: Decision, asOf: int, afterDays: int): Decision {
    if IsStaleCandidate(d) && IsDecisionStale(d.proposedAt, asOf, afterDays)
    then d.(status := Stale, staleAt := Some(asOf))
    else d
  }

  datatype Step =
    | Propose(isDecision: bool, now: int)
    | DoMove(id: nat, move: Move, now: int)
    | FlagStale(asOf: int, afterDays: int, locked: set<nat>)

  function FlaggedRows(rows: seq<Decision>, asOf: int, afterDays: int, locked: set<nat>): (r: seq<Decision>)
    ensures |r| == |rows|
    ensures forall i :: 0 <= i < |rows| ==> r[i] == if i in locked then rows[i] else Flagged(rows[i], asOf, afterDays)
  {
    seq(|rows|, i requires 0 <= i < |rows| => if i in locked then rows[i] else Flagged(rows[i], asOf, afterDays))
  }

  function Next(rows: seq<Decision>, step: Step): seq<Decision> {
    match step
    case Propose(isDecision, now) => rows + [NewDecision(isDecision, now)]
    case DoMove(id, m, now) => if MoveError(rows, id, m).Some? then rows else rows[id := Stamped(rows[id], m, now)]
    case FlagStale(asOf, afterDays, locked) => FlaggedRows(rows, asOf, afterDays, locked)
  }

  function Run(rows: seq<Decision>, steps: seq<Step>): seq<Decision> {
    if steps == [] then rows else Next(Run(rows, steps[..|steps| - 1]), steps[|steps| - 1])
  }

  // ---- The service's statements ---------------------------------------------------------

  class DecisionLedger {
    var rows: seq<Decision>

    constructor ()
      ensures rows == []
    {
      rows := [];
    }

    method ProposeDecision(isDecision: bool, now: int) returns (id: nat)
      modifies this
      ensures rows == Next(old(rows), Propose(isDecision, now)) && id == old(|rows|)
    {
      id := |rows|;
      rows := rows + [NewDecision(isDecision, now)];
    }

    method ApplyTransition(id: nat, to: Status) returns (error: Option<LedgerError>)
      modifies this
      ensures error.None? <==> old(id < |rows| && to in Allowed(rows[id].status))
      ensures error.Some? ==> error.value == if id >= |old(rows)| then DecisionNotFound else InvalidTransition
      ensures rows == if error.None? then old(rows)[id := old(rows)[id].(status := to)] else old(rows)
    {
      if id >= |rows| {
        return Some(DecisionNotFound);
      }
      if to !in Allowed(rows[id].status) {
        return Some(InvalidTransition);
      }
      rows := rows[id := rows[id].(status := to)];
      error := None;
    }

    method TransitionDecision(id: nat, m: Move, now: int) returns (error: Option<LedgerError>)
      modifies this
      ensures error == MoveError(old(rows), id, m)
      ensures rows == Next(old(rows), DoMove(id, m, now))
    {
      error := ApplyTransition(id, Target(m));
      if error.Some? {
        return;
      }
      if m.Accept? || m.Reject? {
        rows := rows[id := rows[id].(decidedAt := Some(now))];
      } else if m.Implement? || m.ImplementPartly? {
        rows := rows[id := rows[id].(implementedAt := Some(now))];
      } else if m.RecordOutcome? {
        rows := rows[id := rows[id].(outcomeAt := Some(now))];
      }
    }

    method FlagStaleDecisions(asOf: int, afterDays: int, locked: set<nat>) returns (flagged: seq<nat>)
      modifies this
      ensures rows == Next(old(rows), FlagStale(asOf, afterDays, locked))
      ensures forall id :: id in flagged <==>
        0 <= id < |old(rows)| && id !in locked && old(rows)[id] != rows[id]
    {
      flagged := [];
      ghost var start := rows;
      for id := 0 to |rows|
        invariant |rows| == |start|
        invariant forall i :: id <= i < |rows| ==> rows[i] == start[i]
        invariant forall i :: 0 <= i < id ==> rows[i] == if i in locked then start[i] else Flagged(start[i], asOf, afterDays)
        invariant forall i :: i in flagged <==> 0 <= i < id && i !in locked && start[i] != rows[i]
      {
        if id !in locked && IsStaleCandidate(rows[id]) && IsDecisionStale(rows[id].proposedAt, asOf, afterDays) {
          var error := ApplyTransition(id, Stale);
          assert error.None?;
          rows := rows[id := rows[id].(staleAt := Some(asOf))];
          flagged := flagged + [id];
        }
      }
      assert rows == FlaggedRows(start, asOf, afterDays, locked);
    }
  }

  // ---- Stamps -----------------------------------------------------------------------------

  predicate InLoop(s: Status) {
    s.Proposed? || s.ClarificationRequested?
  }

  predicate IsDecided(s: Status) {
    s.Accepted? || s.Rejected? || IsImplemented(s)
  }

  predicate IsImplemented(s: Status) {
    s.Implemented? || s.PartiallyImplemented? || s.OutcomeObserved?
  }

  /** A stamp is there exactly for the statuses that imply it; a stale stamp
      outlives its status but never coexists with an undecided one. */
  predicate StampsMatch(d: Decision) {
    && (d.decidedAt.Some? <==> IsDecided(d.status))
    && (d.implementedAt.Some? <==> IsImplemented(d.status))
    && (d.outcomeAt.Some? <==> d.status.OutcomeObserved?)
    && (d.status.Stale? ==> d.staleAt.Some?)
    && (d.staleAt.Some? ==> d.isDecision && !InLoop(d.status))
  }

  predicate AllMatch(rows: seq<Decision>) {
    forall i :: 0 <= i < |rows| ==> StampsMatch(rows[i])
  }

  lemma {:induction false} StampsMatchInEveryRun(steps: seq<Step>)
    ensures AllMatch(Run([], steps))
  {
    if steps != [] {
      StampsMatchInEveryRun(steps[..|steps| - 1]);
    }
  }

  /** b is a later reading of a stamp. */
  predicate WrittenOnce(a: Option<int>, b: Option<int>) {
    a.Some? ==> b == a
  }

  predicate Continues(a: Decision, b: Decision) {
    && a.isDecision == b.isDecision && a.proposedAt == b.proposedAt
    && WrittenOnce(a.decidedAt, b.decidedAt) && WrittenOnce(a.implementedAt, b.implementedAt)
    && WrittenOnce(a.outcomeAt, b.outcomeAt) && WrittenOnce(a.staleAt, b.staleAt)
    && (!InLoop(a.status) ==> !InLoop(b.status))
  }

  lemma StepContinues(rows: seq<Decision>, step: Step, id: nat)
    requires AllMatch(rows) && id < |rows|
    ensures AllMatch(Next(rows, step)) && |rows| <= |Next(rows, step)|
    ensures Continues(rows[id], Next(rows, step)[id])
  {
    assert StampsMatch(rows[id]);
  }

  /** No stamp is ever rewritten or erased, the proposal time never moves, and a
      row that left the proposal loop never re-enters it. */
  lemma {:induction false} StampsAreWrittenOnce(rows: seq<Decision>, steps: seq<Step>, id: nat)
    requires AllMatch(rows) && id < |rows|
    ensures AllMatch(Run(rows, steps)) && |rows| <= |Run(rows, steps)|
    ensures Continues(rows[id], Run(rows, steps)[id])
  {
    if steps != [] {
      StampsAreWrittenOnce(rows, steps[..|steps| - 1], id);
      StepContinues(Run(rows, steps[..|steps| - 1]), steps[|steps| - 1], id);
    }
  }

  /** The stale stamp is present exactly when the row has been stale. */
  predicate WasStale(id: nat, steps: seq<Step>, n: nat)
    requires n <= |steps|
  {
    exists k :: 0 <= k <= n && id < |Run([], steps[..k])| && Run([], steps[..k])[id].status.Stale?
  }

  lemma {:induction false} StaleStampIffWasStale(steps: seq<Step>, n: nat, id: nat)
    requires n <= |steps| && id < |Run([], steps[..n])|
    ensures Run([], steps[..n])[id].staleAt.Some? <==> WasStale(id, steps, n)
  {
    if n > 0 {
      if id < |Run([], steps[..n - 1])| {
        StaleStampIffWasStale(steps, n - 1, id);
        StaleStampStep(steps, n, id);
        WasStaleStep(steps, n, id);
      } else {
        NewRowsWereNeverStale(steps, n, id);
      }
    }
  }

  /** A step puts the stale stamp on exactly the rows it leaves stale. */
  lemma StaleStampStep(steps: seq<Step>, n: nat, id: nat)
    requires 0 < n <= |steps| && id < |Run([], steps[..n - 1])|
    ensures id < |Run([], steps[..n])|
    ensures var row := Run([], steps[..n])[id];
            row.staleAt.Some? <==> Run([], steps[..n - 1])[id].staleAt.Some? || row.status.Stale?
  {
    var before := Run([], steps[..n - 1]);
    StampsMatchInEveryRun(steps[..n - 1]);
    assert StampsMatch(before[id]);
    assert steps[..n][..n - 1] == steps[..n - 1];
    assert Run([], steps[..n]) == Next(before, steps[n - 1]);
    StepContinues(before, steps[n - 1], id);
    assert StampsMatch(Next(before, steps[n - 1])[id]);
  }

  lemma WasStaleStep(steps: seq<Step>, n: nat, id: nat)
    requires 0 < n <= |steps|
    ensures WasStale(id, steps, n) <==>
      WasStale(id, steps, n - 1) || (id < |Run([], steps[..n])| && Run([], steps[..n])[id].status.Stale?)
  {
  }

  lemma {:induction false} RowsOnlyGrow(steps: seq<Step>, k: nat, n: nat)
    requires k <= n <= |steps|
    ensures |Run([], steps[..k])| <= |Run([], steps[..n])|
  {
    if k < n {
      RowsOnlyGrow(steps, k, n - 1);
      assert steps[..n][..n - 1] == steps[..n - 1];
    }
  }

  lemma NewRowsWereNeverStale(steps: seq<Step>, n: nat, id: nat)
    requires 0 < n <= |steps|
    requires |Run([], steps[..n - 1])| <= id < |Run([], steps[..n])|
    ensures !WasStale(id, steps, n) && Run([], steps[..n])[id].staleAt.None?
  {
    assert steps[..n][..n - 1] == steps[..n - 1];
    forall k | 0 <= k < n ensures |Run([], steps[..k])| <= id {
      RowsOnlyGrow(steps, k, n - 1);
    }
  }

  // ---- How long a decision can still move -------------------------------------------------------

  /** The statuses a row goes through, from its state in `rows` on. */
  function Trail(rows: seq<Decision>, steps: seq<Step>, id: nat): (t: seq<Status>)
    requires id < |rows|
    ensures |rows| <= |Run(rows, steps)|
    ensures t != [] && t[|t| - 1] == Run(rows, steps)[id].status
  {
    if steps == [] then [rows[id].status]
    else
      var t := Trail(rows, steps[..|steps| - 1], id);
      var now := Run(rows, steps)[id].status;
      if now == t[|t| - 1] then t else t + [now]
  }

  predicate IsPath(t: seq<Status>) {
    forall i :: 0 < i < |t| ==> t[i] in Allowed(t[i - 1])
  }

  lemma StepFollowsTable(rows: seq<Decision>, step: Step, id: nat)
    requires id < |rows|
    ensures id < |Next(rows, step)|
    ensures var now := Next(rows, step)[id].status; now == rows[id].status || now in Allowed(rows[id].status)
  {
  }

  /** The table in words: an undecided row may change sides, be decided or go
      stale; a stale row may still be decided; an accepted one is implemented,
      wholly or partly, and then observed. */
  lemma TableIff(from: Status, to: Status)
    ensures to in Allowed(from) <==>
      || (InLoop(from) && to != from && (InLoop(to) || to == Accepted || to == Rejected || to == Stale))
      || (from == Stale && (to == Accepted || to == Rejected))
      || (from == Accepted && (to == Implemented || to == PartiallyImplemented))
      || ((from == Implemented || from == PartiallyImplemented) && to == OutcomeObserved)
  {
  }

  /** Where each helper takes an existing row, and from which statuses. */
  lemma MovesAsNamed(rows: seq<Decision>, id: nat, m: Move, now: int)
    requires id < |rows|
    ensures var from, after := rows[id].status, Next(rows, DoMove(id, m, now));
            match m
            case Clarify => if from == Proposed then after[id].status == ClarificationRequested else after == rows
            case Resubmit => if from == ClarificationRequested then after[id].status == Proposed else after == rows
            case Accept => if InLoop(from) || from == Stale then after[id].status == Accepted else after == rows
            case Reject => if InLoop(from) || from == Stale then after[id].status == Rejected else after == rows
            case Implement => if from == Accepted then after[id].status == Implemented else after == rows
            case ImplementPartly => if from == Accepted then after[id].status == PartiallyImplemented else after == rows
            case RecordOutcome =>
              if from == Implemented || from == PartiallyImplemented then after[id].status == OutcomeObserved else after == rows
  {
  }

  /** The time a step is taken at. */
  function TimeOf(step: Step): int {
    if step.FlagStale? then step.asOf else step.now
  }

  predicate NewlyDated(a: Option<int>, b: Option<int>, now: int) {
    b == a || b == Some(now)
  }

  /** A stamp that appears or changes is the time of the step that wrote it, and
      a new row is dated by its own proposal; a move touches no other row. */
  lemma StampsDateTheStep(rows: seq<Decision>, step: Step, id: nat)
    requires id < |Next(rows, step)|
    ensures var after := Next(rows, step)[id];
            if id >= |rows| then after.proposedAt == TimeOf(step) && after.status == Proposed
            else
              && after.proposedAt == rows[id].proposedAt
              && NewlyDated(rows[id].decidedAt, after.decidedAt, TimeOf(step))
              && NewlyDated(rows[id].implementedAt, after.implementedAt, TimeOf(step))
              && NewlyDated(rows[id].outcomeAt, after.outcomeAt, TimeOf(step))
              && NewlyDated(rows[id].staleAt, after.staleAt, TimeOf(step))
              && (step.DoMove? && step.id != id ==> after == rows[id])
  {
  }

  /** Every change of status is an edge of the table, and only the table decides. */
  lemma {:induction false} TrailsArePaths(rows: seq<Decision>, steps: seq<Step>, id: nat)
    requires id < |rows|
    ensures IsPath(Trail(rows, steps, id))
  {
    if steps != [] {
      TrailsArePaths(rows, steps[..|steps| - 1], id);
      StepFollowsTable(Run(rows, steps[..|steps| - 1]), steps[|steps| - 1], id);
    }
  }

  /** How many transitions a status still allows once the loop is left. */
  function Rank(s: Status): nat {
    match s
    case Proposed => 4
    case ClarificationRequested => 4
    case Stale => 3
    case Accepted => 2
    case Implemented => 1
    case PartiallyImplemented => 1
    case Rejected => 0
    case OutcomeObserved => 0
  }

  lemma {:induction false} PathsDescend(t: seq<Status>, i: nat)
    requires IsPath(t) && i < |t|
    requires forall j :: i < j < |t| ==> !InLoop(t[j])
    ensures |t| - 1 - i + Rank(t[|t| - 1]) <= Rank(t[i])
    decreases |t| - i
  {
    if i + 1 < |t| {
      PathsDescend(t, i + 1);
      assert t[i + 1] in Allowed(t[i]);
    }
  }

  /** At most four transitions follow the last visit to the proposal loop. */
  lemma AtMostFourAfterTheLoop(rows: seq<Decision>, steps: seq<Step>, id: nat, i: nat)
    requires id < |rows| && i < |Trail(rows, steps, id)|
    requires forall j :: i < j < |Trail(rows, steps, id)| ==> !InLoop(Trail(rows, steps, id)[j])
    ensures |Trail(rows, steps, id)| - 1 - i <= 4
  {
    TrailsArePaths(rows, steps, id);
    PathsDescend(Trail(rows, steps, id), i);
  }

  /** Four is reached: stale, accepted, implemented, observed. */
  lemma FourIsReached(now: int)
    ensures var rows := [NewDecision(true, now)];
            var steps := [FlagStale(now, 0, {}), DoMove(0, Accept, now), DoMove(0, Implement, now), DoMove(0, RecordOutcome, now)];
            Trail(rows, steps, 0) == [Proposed, Stale, Accepted, Implemented, OutcomeObserved]
  {
    var rows := [NewDecision(true, now)];
    var steps := [FlagStale(now, 0, {}), DoMove(0, Accept, now), DoMove(0, Implement, now), DoMove(0, RecordOutcome, now)];
    assert steps[..4] == steps && steps[..4][..3] == steps[..3] && steps[..3][..2] == steps[..2] && steps[..2][..1] == steps[..1];
    assert steps[..1][..0] == [];
    assert Run(rows, steps[..1]) == Next(rows, steps[0]);
    assert Trail(rows, steps[..1], 0) == [Proposed, Stale];
    assert Trail(rows, steps[..2], 0) == [Proposed, Stale, Accepted];
    assert Trail(rows, steps[..3], 0) == [Proposed, Stale, Accepted, Implemented];
  }

  // ---- Staleness -----------------------------------------------------------------------------------

  /** A sweep flags a row exactly when it is an unlocked, undecided decision at
      least so many days of 24 hours old, and stamps it with its own time. */
  lemma FlaggedExactlyWhenDue(rows: seq<Decision>, asOf: int, afterDays: int, locked: set<nat>, id: nat)
    requires id < |rows|
    ensures var after := Next(rows, FlagStale(asOf, afterDays, locked));
            && |after| == |rows|
            && after[id] ==
               if id !in locked && rows[id].isDecision && (rows[id].status == Proposed || rows[id].status == ClarificationRequested)
                  && asOf >= rows[id].proposedAt + afterDays * 24 * 60 * 60
               then rows[id].(status := Stale, staleAt := Some(asOf))
               else rows[id]
  {
  }

  /** A sweep that meets no locked row leaves no decision sitting past the
      period, counted from its proposal; resubmitting does not restart the clock. */
  lemma NothingSitsPastThePeriod(steps: seq<Step>, asOf: int, afterDays: int, id: nat)
    requires id < |Run([], steps + [FlagStale(asOf, afterDays, {})])|
    ensures var d := Run([], steps + [FlagStale(asOf, afterDays, {})])[id];
            d.isDecision && InLoop(d.status) ==> !IsDecisionStale(d.proposedAt, asOf, afterDays)
  {
    assert (steps + [FlagStale(asOf, afterDays, {})])[..|steps|] == steps;
  }
}
