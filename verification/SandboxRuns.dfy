/** When a submission reads one schema generation in every interleaving, and the
    run that overtakes one that gave up its lock. */
module SandboxRuns {
  import opened ReplenishmentPolicy
  import opened Sandbox
  import opened SandboxRefresh

  // ---- A submission that lets go of its lock -----------------------------------------

  lemma {:induction false} RunConcat(s: State, a: seq<Step>, b: seq<Step>)
    ensures Run(s, a + b) == Run(Run(s, a), b)
    decreases |b|
  {
    if b == [] {
      assert a + b == a;
    } else {
      assert (a + b)[..|a + b| - 1] == a + b[..|b| - 1];
      RunConcat(s, a, b[..|b| - 1]);
    }
  }

  function Reads(pid: nat, n: nat): seq<Step> {
    if n == 0 then [] else Reads(pid, n - 1) + [Statement(pid)]
  }

  /** Where a submission stands after n statements with nobody else moving. */
  predicate HasRead(s: State, pid: nat, script: Script, n: nat) {
    && n <= |script| && pid in s.processes && s.processes[pid].QueryRunning?
    && s.processes[pid].script == script && |s.processes[pid].seen| == n
    && s.catalog.sandbox.Some? && AllAre(s.processes[pid].seen, s.catalog.sandbox.value)
    && s.shared == (if ReleasedIn(script, n) then {} else {pid})
    && (s.processes[pid].locked <==> !ReleasedIn(script, n))
  }

  /** From s to t only this process moved, and it touched no schema. */
  predicate OnlyReads(s: State, t: State, pid: nat) {
    t.catalog == s.catalog && t.exclusive == s.exclusive && t.total == s.total && t.nextGen == s.nextGen && SameOthers(s, t, pid)
  }

  lemma OneRead(s: State, pid: nat, script: Script, n: nat)
    requires HasRead(s, pid, script, n) && n < |script|
    ensures var t := Next(s, Statement(pid)); HasRead(t, pid, script, n + 1) && OnlyReads(s, t, pid)
  {
    assert ReleasedIn(script, n + 1) <==> ReleasedIn(script, n) || script[n];
  }

  lemma {:induction false} ReadsRun(s: State, pid: nat, script: Script, n: nat)
    requires HasRead(s, pid, script, 0) && n <= |script|
    ensures var t := Run(s, Reads(pid, n)); HasRead(t, pid, script, n) && OnlyReads(s, t, pid)
  {
    if n > 0 {
      ReadsRun(s, pid, script, n - 1);
      RunAppend(s, Reads(pid, n - 1), Statement(pid));
      OneRead(Run(s, Reads(pid, n - 1)), pid, script, n - 1);
    }
  }

  /** A whole undisturbed refresh, from its start to its end. */
  function RefreshSteps(pid: nat, total: nat): seq<Step> {
    [StartRefresh(pid), LockRefresh(pid), ClearLeftover(pid, true)] + Copies(pid, total)
    + [CommitStaging(pid), RenameLive(pid), CommitSwap(pid), DropOld(pid, true)]
  }

  lemma FirstStep(s: State, a: Step, t: State)
    requires t == Next(s, a)
    ensures Run(s, [a]) == t
  {
    RunAppend(s, [], a);
    assert [] + [a] == [a];
  }

  lemma SecondStep(s: State, a: Step, b: Step, t: State, u: State)
    requires Run(s, [a]) == t && u == Next(t, b)
    ensures Run(s, [a, b]) == u
  {
    RunAppend(s, [a], b);
    assert [a] + [b] == [a, b];
  }

  lemma ThirdStep(s: State, a: Step, b: Step, c: Step, t: State, u: State)
    requires Run(s, [a, b]) == t && u == Next(t, c)
    ensures Run(s, [a, b, c]) == u
  {
    RunAppend(s, [a, b], c);
    assert [a, b] + [c] == [a, b, c];
  }

  lemma LastSteps(s: State, pid: nat)
    ensures Run(s, [RenameLive(pid), CommitSwap(pid), DropOld(pid, true)]) == Swapped(s, pid)
  {
    var renaming := Next(s, RenameLive(pid));
    var swapped := Next(renaming, CommitSwap(pid));
    FirstStep(s, RenameLive(pid), renaming);
    SecondStep(s, RenameLive(pid), CommitSwap(pid), renaming, swapped);
    ThirdStep(s, RenameLive(pid), CommitSwap(pid), DropOld(pid, true), swapped, Swapped(s, pid));
  }

  lemma RefreshStepsRun(s: State, pid: nat)
    ensures var locked := Next(Next(s, StartRefresh(pid)), LockRefresh(pid));
            Run(s, RefreshSteps(pid, Next(locked, ClearLeftover(pid, true)).total)) == Swapped(Rebuilt(locked, pid), pid)
  {
    var started := Next(s, StartRefresh(pid));
    var locked := Next(started, LockRefresh(pid));
    var building := Next(locked, ClearLeftover(pid, true));
    var first := [StartRefresh(pid), LockRefresh(pid), ClearLeftover(pid, true)];
    var copies, last := Copies(pid, building.total), [RenameLive(pid), CommitSwap(pid), DropOld(pid, true)];
    FirstStep(s, StartRefresh(pid), started);
    SecondStep(s, StartRefresh(pid), LockRefresh(pid), started, locked);
    ThirdStep(s, StartRefresh(pid), LockRefresh(pid), ClearLeftover(pid, true), locked, building);
    RunConcat(s, first, copies);
    RunAppend(s, first + copies, CommitStaging(pid));
    RunConcat(s, first + copies + [CommitStaging(pid)], last);
    LastSteps(Rebuilt(locked, pid), pid);
    assert RefreshSteps(pid, building.total) == first + copies + [CommitStaging(pid)] + last;
  }

  /** A refresh that nobody stands in the way of publishes a new generation. */
  lemma RefreshRun(s: State, pid: nat)
    requires pid !in s.processes && s.exclusive.None? && s.shared == {}
    ensures var t := Run(s, RefreshSteps(pid, s.total)); t.catalog.sandbox == Some(s.nextGen) && SameOthers(s, t, pid)
  {
    var locked := Next(Next(s, StartRefresh(pid)), LockRefresh(pid));
    assert Is(locked, pid, RefreshClearing) && locked.exclusive == Some(pid) && locked.nextGen == s.nextGen;
    RefreshStepsRun(s, pid);
    RebuildStages(locked, pid);
    SwapPublishes(Rebuilt(locked, pid), pid, s.nextGen);
  }

  /** The submission runs up to the statement that lets go, a refresh passes, and it goes on. */
  function Overtaken(script: Script, n: nat, total: nat): seq<Step> {
    [StartQuery(0, script), LockQuery(0)] + Reads(0, n) + RefreshSteps(1, total) + [Statement(0)]
  }

  lemma Unmoved(s: State, t: State, pid: nat, q: nat)
    requires SameOthers(s, t, pid) && q != pid
    ensures q in t.processes <==> q in s.processes
    ensures q in s.processes ==> t.processes[q] == s.processes[q]
  {
    assert q in t.processes - {pid} <==> q in s.processes - {pid};
    if q in s.processes {
      assert (t.processes - {pid})[q] == (s.processes - {pid})[q];
    }
  }

  lemma Started(total: nat, script: Script)
    ensures var s := Run(Initial(total), [StartQuery(0, script), LockQuery(0)]);
            && HasRead(s, 0, script, 0) && s.processes == map[0 := QueryRunning(script, [], true)]
            && s.catalog == Initial(total).catalog && s.exclusive.None? && s.total == total && s.nextGen == 1
  {
    RunAppend(Initial(total), [], StartQuery(0, script));
    RunAppend(Initial(total), [StartQuery(0, script)], LockQuery(0));
    assert [] + [StartQuery(0, script)] == [StartQuery(0, script)];
    assert [StartQuery(0, script)] + [LockQuery(0)] == [StartQuery(0, script), LockQuery(0)];
  }

  /** A statement run against another generation than the ones before it. */
  lemma ReadsAnother(s: State, script: Script, seen: seq<nat>, locked: bool)
    requires Is(s, 0, QueryRunning(script, seen, locked)) && 0 < |seen| < |script|
    requires s.catalog.sandbox.Some? && seen[0] != s.catalog.sandbox.value
    ensures !ReadsOne(Next(s, Statement(0)), 0, script)
  {
    var after := Next(s, Statement(0)).processes[0].seen;
    assert after == seen + [s.catalog.sandbox.value];
    assert after[0] != after[|seen|];
  }

  /** With the lock given up, a refresh gets past the submission. */
  lemma RefreshOvertakes(s: State, script: Script, n: nat)
    requires HasRead(s, 0, script, n) && 0 < n < |script| && ReleasedIn(script, n)
    requires 1 !in s.processes && s.exclusive.None? && s.catalog.sandbox != Some(s.nextGen)
    ensures !ReadsOne(Next(Run(s, RefreshSteps(1, s.total)), Statement(0)), 0, script)
  {
    var t := Run(s, RefreshSteps(1, s.total));
    RefreshRun(s, 1);
    Unmoved(s, t, 1, 0);
    ReadsAnother(t, script, s.processes[0].seen, s.processes[0].locked);
  }

  lemma OvertakenReadsTwo(total: nat, script: Script, i: nat)
    requires i + 1 < |script| && script[i]
    ensures !ReadsOne(Run(Initial(total), Overtaken(script, i + 1, total)), 0, script)
  {
    var begin, upTo, refresh := [StartQuery(0, script), LockQuery(0)], Reads(0, i + 1), RefreshSteps(1, total);
    var s0 := Run(Initial(total), begin);
    Started(total, script);
    ReadsRun(s0, 0, script, i + 1);
    Unmoved(s0, Run(s0, upTo), 0, 1);
    assert ReleasedIn(script, i + 1);
    RefreshOvertakes(Run(s0, upTo), script, i + 1);
    RunConcat(Initial(total), begin, upTo);
    RunConcat(Initial(total), begin + upTo, refresh);
    RunAppend(Initial(total), begin + upTo + refresh, Statement(0));
  }

  /** The exact condition: in every interleaving a submission reads one
      generation, if and only if none of its statements that gives up the lock
      is followed by another. */
  lemma OneGenerationIff(total: nat, script: Script)
    ensures KeepsLock(script) <==>
            forall steps: seq<Step>, pid: nat :: ReadsOne(Run(Initial(total), steps), pid, script)
  {
    if KeepsLock(script) {
      forall steps: seq<Step>, pid: nat ensures ReadsOne(Run(Initial(total), steps), pid, script) {
        ConsistentReads(total, steps, pid, script);
      }
    } else {
      var i :| 0 <= i < |script| && script[i] && i != |script| - 1;
      OvertakenReadsTwo(total, script, i);
    }
  }
}
