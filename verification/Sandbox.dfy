/** The query playground's sandbox under concurrency: submissions hold a shared
    advisory lock (backend/app/services/query_execution.py), refreshes an
    exclusive one around four separate transactions
    (backend/app/services/sandbox_refresh.py).  Any process may die between any
    two steps; an open transaction then vanishes and its locks are released.
    The statements of a submission are the user's own SQL, on the connection
    that holds the lock: any of them may give the lock up. */
module Sandbox {
  import opened ReplenishmentPolicy

  /** A schema generation is identified by a number; it holds so many tables. */
  datatype Catalog = Catalog(sandbox: Option<nat>, staging: Option<nat>, leftover: Option<nat>, tables: map<nat, nat>)

  /** One entry per statement: does it leave the session without its shared lock? */
  type Script = seq<bool>

  datatype Process =
    | QueryWaiting(script: Script)
    | QueryRunning(script: Script, seen: seq<nat>, locked: bool) // seen: generation each statement ran against
    | QueryOver(script: Script, seen: seq<nat>)
    | RefreshWaiting
    | RefreshClearing                        // dropping a stale sandbox_old
    | RefreshBuilding(gen: nat, copied: nat) // inside the rebuild transaction
    | RefreshBuilt                           // staging committed
    | RefreshRenaming                        // inside the swap transaction
    | RefreshSwapped                         // swap committed
    | RefreshOver(complete: bool)

  datatype State = State(
    total: nat,                              // tables mirrored by a refresh
    catalog: Catalog,
    processes: map<nat, Process>,
    shared: set<nat>,
    exclusive: Option<nat>,
    nextGen: nat)

  predicate HoldsExclusive(p: Process) {
    p.RefreshClearing? || p.RefreshBuilding? || p.RefreshBuilt? || p.RefreshRenaming? || p.RefreshSwapped?
  }

  /** One step of the system; pid names the process that moves. */
  datatype Step =
    | StartQuery(pid: nat, script: Script)
    | LockQuery(pid: nat)
    | Statement(pid: nat)
    | EndQuery(pid: nat)                     // success, error, timeout or crash
    | StartRefresh(pid: nat)
    | LockRefresh(pid: nat)
    | ClearLeftover(pid: nat, dropped: bool) // false: lock timeout, best effort
    | CopyTable(pid: nat)
    | CommitStaging(pid: nat)
    | RenameLive(pid: nat)                   // fails when sandbox_old still exists
    | CommitSwap(pid: nat)
    | DropOld(pid: nat, dropped: bool)
    | CrashRefresh(pid: nat)
    | ManualLeftover                         // someone outside leaves a sandbox_old behind

  function Set(s: State, pid: nat, p: Process): State {
    s.(processes := s.processes[pid := p])
  }

  /** Ends a refresh; the connection closes and the lock goes with it. */
  function Release(s: State, pid: nat, complete: bool): State {
    Set(s, pid, RefreshOver(complete)).(exclusive := if s.exclusive == Some(pid) then None else s.exclusive)
  }

  predicate Is(s: State, pid: nat, p: Process) {
    pid in s.processes && s.processes[pid] == p
  }

  /** A step that is not enabled changes nothing (the process waits). */
  function Next(s: State, step: Step): State {
    match step
    case StartQuery(pid, script) => if pid in s.processes then s else Set(s, pid, QueryWaiting(script))
    case LockQuery(pid) =>
      if pid in s.processes && s.processes[pid].QueryWaiting? && s.exclusive.None? then
        Set(s, pid, QueryRunning(s.processes[pid].script, [], true)).(shared := s.shared + {pid})
      else s
    case Statement(pid) =>
      if pid in s.processes && s.processes[pid].QueryRunning? && |s.processes[pid].seen| < |s.processes[pid].script| && s.catalog.sandbox.Some? then
        var q := s.processes[pid];
        var locked := q.locked && !q.script[|q.seen|];
        Set(s, pid, QueryRunning(q.script, q.seen + [s.catalog.sandbox.value], locked)).(
          shared := if locked then s.shared else s.shared - {pid})
      else s
    case EndQuery(pid) =>
      if pid in s.processes && s.processes[pid].QueryRunning? then
        Set(s, pid, QueryOver(s.processes[pid].script, s.processes[pid].seen)).(shared := s.shared - {pid})
      else s
    case StartRefresh(pid) => if pid in s.processes then s else Set(s, pid, RefreshWaiting)
    case LockRefresh(pid) =>
      if Is(s, pid, RefreshWaiting) && s.exclusive.None? && s.shared == {} then
        Set(s, pid, RefreshClearing).(exclusive := Some(pid))
      else s
    case ClearLeftover(pid, dropped) =>
      if Is(s, pid, RefreshClearing) then
        Set(s, pid, RefreshBuilding(s.nextGen, 0)).(
          catalog := if dropped then s.catalog.(leftover := None) else s.catalog, nextGen := s.nextGen + 1)
      else s
    case CopyTable(pid) =>
      if pid in s.processes && s.processes[pid].RefreshBuilding? && s.processes[pid].copied < s.total then
        Set(s, pid, RefreshBuilding(s.processes[pid].gen, s.processes[pid].copied + 1))
      else s
    case CommitStaging(pid) =>
      if pid in s.processes && s.processes[pid].RefreshBuilding? && s.processes[pid].copied == s.total then
        var gen := s.processes[pid].gen;
        Set(s, pid, RefreshBuilt).(
          catalog := s.catalog.(staging := Some(gen), tables := s.catalog.tables[gen := s.total]))
      else s
    case RenameLive(pid) =>
      if !Is(s, pid, RefreshBuilt) then s
      else if s.catalog.leftover.Some? then Release(s, pid, false)
      else Set(s, pid, RefreshRenaming)
    case CommitSwap(pid) =>
      if Is(s, pid, RefreshRenaming) then
        Set(s, pid, RefreshSwapped).(
          catalog := s.catalog.(sandbox := s.catalog.staging, staging := None, leftover := s.catalog.sandbox))
      else s
    case DropOld(pid, dropped) =>
      if Is(s, pid, RefreshSwapped) then
        Release(s, pid, true).(catalog := if dropped then s.catalog.(leftover := None) else s.catalog)
      else s
    case CrashRefresh(pid) =>
      if pid in s.processes && (s.processes[pid].RefreshWaiting? || HoldsExclusive(s.processes[pid])) then Release(s, pid, false)
      else s
    case ManualLeftover =>
      // the swap transaction has already claimed the name while it is open
      if s.catalog.leftover.None? && s.catalog.sandbox.Some? && !(exists pid :: pid in s.processes && s.processes[pid].RefreshRenaming?)
      then s.(catalog := s.catalog.(leftover := Some(s.nextGen)), nextGen := s.nextGen + 1)
      else s
  }

  function Run(s: State, steps: seq<Step>): State {
    if steps == [] then s else Next(Run(s, steps[..|steps| - 1]), steps[|steps| - 1])
  }

  function Initial(total: nat): State {
    State(total, Catalog(Some(0), None, None, map[0 := total]), map[], {}, None, 1)
  }

  // ---- Safety -------------------------------------------------------------------

  predicate FullyBuilt(s: State, gen: nat) {
    gen in s.catalog.tables && s.catalog.tables[gen] == s.total
  }

  predicate AllSame(seen: seq<nat>) {
    forall i, j :: 0 <= i < |seen| && 0 <= j < |seen| ==> seen[i] == seen[j]
  }

  predicate AllAre(seen: seq<nat>, gen: nat) {
    forall i :: 0 <= i < |seen| ==> seen[i] == gen
  }

  /** One of the first n statements gives the lock up. */
  predicate ReleasedIn(script: Script, n: nat) {
    exists i :: 0 <= i < n && i < |script| && script[i]
  }

  /** No statement that gives the lock up is followed by another. */
  predicate KeepsLock(script: Script) {
    forall i :: 0 <= i < |script| && script[i] ==> i == |script| - 1
  }

  predicate QueryOk(s: State, q: Process)
    requires q.QueryRunning? && s.catalog.sandbox.Some?
  {
    && |q.seen| <= |q.script|
    && (q.locked <==> !ReleasedIn(q.script, |q.seen|))
    && (q.locked ==> AllAre(q.seen, s.catalog.sandbox.value))
    && (KeepsLock(q.script) ==> AllSame(q.seen))
  }

  predicate ProcessOk(s: State, pid: nat)
    requires pid in s.processes
  {
    var p := s.processes[pid];
    && (p.QueryRunning? && p.locked <==> pid in s.shared)
    && (HoldsExclusive(p) <==> s.exclusive == Some(pid))
    && (p.QueryRunning? ==> s.catalog.sandbox.Some? && QueryOk(s, p))
    && (p.QueryOver? && KeepsLock(p.script) ==> AllSame(p.seen))
    && (p.RefreshBuilding? ==> p.copied <= s.total)
    && (p.RefreshBuilt? || p.RefreshRenaming? ==> s.catalog.staging.Some?)
    && (p.RefreshRenaming? ==> s.catalog.leftover.None?)
  }

  predicate Safe(s: State) {
    && s.catalog.sandbox.Some? && FullyBuilt(s, s.catalog.sandbox.value)
    && (s.catalog.staging.Some? ==> FullyBuilt(s, s.catalog.staging.value))
    && s.shared <= s.processes.Keys
    && (s.exclusive.Some? ==> s.exclusive.value in s.processes && s.shared == {})
    && forall pid :: pid in s.processes ==> ProcessOk(s, pid)
  }

  lemma OthersUnlocked(s: State, pid: nat)
    requires Safe(s) && s.exclusive == Some(pid)
    ensures forall q :: q in s.processes && q != pid ==>
      !HoldsExclusive(s.processes[q]) && !(s.processes[q].QueryRunning? && s.processes[q].locked)
  {
    forall q | q in s.processes && q != pid
      ensures !HoldsExclusive(s.processes[q]) && !(s.processes[q].QueryRunning? && s.processes[q].locked)
    {
      assert ProcessOk(s, q);
    }
  }

  lemma QueryStepSafe(s: State, step: Step)
    requires Safe(s) && (step.StartQuery? || step.LockQuery? || step.Statement? || step.EndQuery? || step.StartRefresh?)
    ensures Safe(Next(s, step))
  {
    var t := Next(s, step);
    if t != s {
      assert step.pid in s.processes ==> ProcessOk(s, step.pid);
      forall q | q in t.processes ensures ProcessOk(t, q) {
        assert q != step.pid ==> ProcessOk(s, q);
      }
    }
  }

  lemma RefreshStepSafe(s: State, step: Step)
    requires Safe(s) && (step.LockRefresh? || step.ClearLeftover? || step.CopyTable? || step.CommitStaging? || step.RenameLive?)
    ensures Safe(Next(s, step))
  {
    var t := Next(s, step);
    if t != s {
      assert ProcessOk(s, step.pid);
      if !step.LockRefresh? {
        OthersUnlocked(s, step.pid);
      }
      forall q | q in t.processes ensures ProcessOk(t, q) {
        assert ProcessOk(s, q);
      }
    }
  }

  lemma EndStepSafe(s: State, step: Step)
    requires Safe(s) && (step.CommitSwap? || step.DropOld? || step.CrashRefresh? || step.ManualLeftover?)
    ensures Safe(Next(s, step))
  {
    var t := Next(s, step);
    if t != s {
      if !step.ManualLeftover? {
        assert ProcessOk(s, step.pid);
        if HoldsExclusive(s.processes[step.pid]) {
          OthersUnlocked(s, step.pid);
        }
      }
      forall q | q in t.processes ensures ProcessOk(t, q) {
        assert ProcessOk(s, q);
      }
    }
  }

  /** Only a committed swap rebinds the name, and never while a query holds its
      lock: a failed rename, a crash or a timeout leaves the published generation alone. */
  lemma OnlyTheSwapRebinds(s: State, step: Step)
    requires Safe(s)
    ensures Next(s, step).catalog.sandbox != s.catalog.sandbox ==>
              && step.CommitSwap? && s.shared == {}
              && Next(s, step).catalog.sandbox == s.catalog.staging
              && Next(s, step).catalog.leftover == s.catalog.sandbox
  {
    if step.CommitSwap? && step.pid in s.processes {
      assert ProcessOk(s, step.pid);
    }
  }

  /** Under every interleaving of queries, refreshes, crashes and outside
      interference the safety invariant holds. */
  lemma {:induction false} EveryInterleavingSafe(total: nat, steps: seq<Step>)
    ensures Safe(Run(Initial(total), steps)) && Run(Initial(total), steps).total == total
    decreases |steps|
  {
    if steps != [] {
      EveryInterleavingSafe(total, steps[..|steps| - 1]);
      var s, step := Run(Initial(total), steps[..|steps| - 1]), steps[|steps| - 1];
      match step
      case StartQuery(_, _) => QueryStepSafe(s, step);
      case LockQuery(_) => QueryStepSafe(s, step);
      case Statement(_) => QueryStepSafe(s, step);
      case EndQuery(_) => QueryStepSafe(s, step);
      case StartRefresh(_) => QueryStepSafe(s, step);
      case CommitSwap(_) => EndStepSafe(s, step);
      case DropOld(_, _) => EndStepSafe(s, step);
      case CrashRefresh(_) => EndStepSafe(s, step);
      case ManualLeftover => EndStepSafe(s, step);
      case _ => RefreshStepSafe(s, step);
    }
  }

  /** Has this submission read at most one generation so far? */
  predicate ReadsOne(s: State, pid: nat, script: Script) {
    pid in s.processes ==>
      match s.processes[pid]
      case QueryRunning(running, seen, _) => running == script ==> AllSame(seen)
      case QueryOver(over, seen) => over == script ==> AllSame(seen)
      case _ => true
  }

  /** While it holds its lock a submission has read the published generation only. */
  predicate ReadsPublished(s: State, pid: nat) {
    pid in s.processes && s.processes[pid].QueryRunning? && s.processes[pid].locked ==>
      s.catalog.sandbox.Some? && AllAre(s.processes[pid].seen, s.catalog.sandbox.value)
  }

  /** The name `sandbox` is bound to a complete generation in every reachable state. */
  lemma PublishedIsComplete(total: nat, steps: seq<Step>)
    ensures var s := Run(Initial(total), steps);
            s.total == total && s.catalog.sandbox.Some? && FullyBuilt(s, s.catalog.sandbox.value)
  {
    EveryInterleavingSafe(total, steps);
  }

  /** A submission none of whose statements releases the lock before another
      reads one generation, and while it holds the lock that is the published one. */
  lemma ConsistentReads(total: nat, steps: seq<Step>, pid: nat, script: Script)
    ensures KeepsLock(script) ==> ReadsOne(Run(Initial(total), steps), pid, script)
    ensures ReadsPublished(Run(Initial(total), steps), pid)
  {
    EveryInterleavingSafe(total, steps);
    var s := Run(Initial(total), steps);
    if pid in s.processes {
      assert ProcessOk(s, pid);
    }
  }
}
