/** What an undisturbed refresh achieves, from any state the sandbox can be in. */
module SandboxRefresh {
  import opened ReplenishmentPolicy
  import opened Sandbox

  // ---- Progress ---------------------------------------------------------------------

  function Copies(pid: nat, n: nat): seq<Step> {
    if n == 0 then [] else Copies(pid, n - 1) + [CopyTable(pid)]
  }

  lemma RunAppend(s: State, steps: seq<Step>, step: Step)
    ensures Run(s, steps + [step]) == Next(Run(s, steps), step)
  {
    assert (steps + [step])[..|steps|] == steps;
  }

  lemma OneCopy(s: State, pid: nat, gen: nat, n: nat)
    requires n < s.total
    ensures Next(Set(s, pid, RefreshBuilding(gen, n)), CopyTable(pid)) == Set(s, pid, RefreshBuilding(gen, n + 1))
  {
  }

  lemma SetAgain(s: State, pid: nat, p: Process)
    requires Is(s, pid, p)
    ensures Set(s, pid, p) == s
  {
    assert s.processes[pid := p] == s.processes;
  }

  lemma {:induction false} CopiesRun(s: State, pid: nat, gen: nat, n: nat)
    requires Is(s, pid, RefreshBuilding(gen, 0)) && n <= s.total
    ensures Run(s, Copies(pid, n)) == Set(s, pid, RefreshBuilding(gen, n))
  {
    if n == 0 {
      SetAgain(s, pid, RefreshBuilding(gen, 0));
    } else {
      CopiesRun(s, pid, gen, n - 1);
      RunAppend(s, Copies(pid, n - 1), CopyTable(pid));
      OneCopy(s, pid, gen, n - 1);
    }
  }

  /** What a refresh does once it holds the lock, undisturbed and with its drops granted. */
  function Rebuilt(s: State, pid: nat): State {
    var building := Next(s, ClearLeftover(pid, true));
    Next(Run(building, Copies(pid, building.total)), CommitStaging(pid))
  }

  function Swapped(s: State, pid: nat): State {
    Next(Next(Next(s, RenameLive(pid)), CommitSwap(pid)), DropOld(pid, true))
  }

  predicate SameOthers(s: State, t: State, pid: nat) {
    t.processes - {pid} == s.processes - {pid}
  }

  lemma RebuildStages(s: State, pid: nat)
    requires Is(s, pid, RefreshClearing)
    ensures var t := Rebuilt(s, pid);
            && Is(t, pid, RefreshBuilt) && t.catalog.leftover.None? && t.exclusive == s.exclusive
            && t.catalog.staging == Some(s.nextGen) && FullyBuilt(t, s.nextGen) && SameOthers(s, t, pid)
  {
    CopiesRun(Next(s, ClearLeftover(pid, true)), pid, s.nextGen, s.total);
  }

  lemma SwapPublishes(s: State, pid: nat, gen: nat)
    requires Is(s, pid, RefreshBuilt) && s.catalog.leftover.None? && s.exclusive == Some(pid)
    requires s.catalog.staging == Some(gen)
    ensures var t := Swapped(s, pid);
            && Is(t, pid, RefreshOver(true)) && t.exclusive.None?
            && t.catalog.sandbox == Some(gen) && t.catalog.staging.None? && t.catalog.leftover.None?
            && t.catalog.tables == s.catalog.tables && t.total == s.total && SameOthers(s, t, pid)
  {
    var renaming := Next(s, RenameLive(pid));
    assert Is(renaming, pid, RefreshRenaming) && renaming.catalog == s.catalog && renaming.exclusive == Some(pid);
    var swapped := Next(renaming, CommitSwap(pid));
    assert Is(swapped, pid, RefreshSwapped) && swapped.exclusive == Some(pid) && swapped.catalog.sandbox == Some(gen);
  }

  /** From every reachable state, whatever earlier refreshes left behind, a
      refresh that gets the lock and its drops publishes a new, complete generation. */
  lemma RefreshPublishes(total: nat, steps: seq<Step>, pid: nat)
    requires Is(Run(Initial(total), steps), pid, RefreshClearing)
    ensures var s := Run(Initial(total), steps);
            var t := Swapped(Rebuilt(s, pid), pid);
            && Is(t, pid, RefreshOver(true))
            && t.catalog.sandbox == Some(s.nextGen)
            && FullyBuilt(t, s.nextGen)
            && t.catalog.staging.None? && t.catalog.leftover.None? && t.exclusive.None?
  {
    EveryInterleavingSafe(total, steps);
    var s := Run(Initial(total), steps);
    assert ProcessOk(s, pid);
    RebuildStages(s, pid);
    SwapPublishes(Rebuilt(s, pid), pid, s.nextGen);
  }
}
