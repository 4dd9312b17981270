/** The login rate limiter (backend/app/core/rate_limit.py): a pruned, swept
    table of attempts, and the plain attempt history it stands for. */
module RateLimiter {

  const SWEEP_PROBABILITY := 0.01

  /** `normalise` stands for strip().lower(); nothing below depends on it. */
  datatype Limits = Limits(max: nat, window: real, normalise: string -> string)

  type Table = map<string, seq<real>>

  /** `roll` is the random draw that decides whether this call sweeps. */
  datatype Call =
    | Attempt(email: string, now: real, roll: real)
    | Success(email: string)                // reset on a successful login

  function Recent(times: seq<real>, cutoff: real): (r: seq<real>)
    ensures |r| <= |times|
  {
    if times == [] then []
    else
      var front, last := Recent(times[..|times| - 1], cutoff), times[|times| - 1];
      if last > cutoff then front + [last] else front
  }

  function Stored(table: Table, key: string): seq<real> {
    if key in table then table[key] else []
  }

  function Swept(table: Table, cutoff: real): Table {
    map key | key in table && Recent(table[key], cutoff) != [] :: table[key]
  }

  predicate HasRoom(max: nat, times: seq<real>, cutoff: real) {
    |Recent(times, cutoff)| < max
  }

  predicate Allows(limits: Limits, times: seq<real>, now: real) {
    HasRoom(limits.max, times, now - limits.window)
  }

  /** What the key's list becomes: pruned, and longer by one if the attempt is allowed. */
  function Kept(max: nat, times: seq<real>, now: real, cutoff: real): seq<real> {
    if HasRoom(max, times, cutoff) then Recent(times, cutoff) + [now] else Recent(times, cutoff)
  }

  function AfterAttempt(max: nat, table: Table, key: string, now: real, cutoff: real, roll: real): Table {
    var updated := table[key := Kept(max, Stored(table, key), now, cutoff)];
    if roll < SWEEP_PROBABILITY then Swept(updated, cutoff) else updated
  }

  function Next(limits: Limits, table: Table, call: Call): Table {
    match call
    case Attempt(email, now, roll) =>
      AfterAttempt(limits.max, table, limits.normalise(email), now, now - limits.window, roll)
    case Success(email) => table - {limits.normalise(email)}
  }

  function TableAfter(limits: Limits, calls: seq<Call>): Table {
    if calls == [] then map[] else Next(limits, TableAfter(limits, calls[..|calls| - 1]), calls[|calls| - 1])
  }

  /** How many of the times lie less than a window before now. */
  function CountWithin(times: seq<real>, now: real, window: real): nat {
    if times == [] then 0
    else CountWithin(times[..|times| - 1], now, window) + if now - times[|times| - 1] < window then 1 else 0
  }

  /** The simple form: every attempt accepted for the key since its last reset,
      never pruned and never swept. */
  function Accepted(limits: Limits, calls: seq<Call>, key: string): seq<real> {
    if calls == [] then []
    else AcceptedNext(limits, Accepted(limits, calls[..|calls| - 1], key), calls[|calls| - 1], key)
  }

  function AcceptedNext(limits: Limits, before: seq<real>, call: Call, key: string): seq<real> {
    match call
    case Attempt(email, now, _) =>
      if limits.normalise(email) == key && CountWithin(before, now, limits.window) < limits.max then before + [now] else before
    case Success(email) => if limits.normalise(email) == key then [] else before
  }

  /** What the limiter itself lets through for the key since its last reset. */
  function Admitted(limits: Limits, calls: seq<Call>, key: string): seq<real> {
    if calls == [] then []
    else
      var front := calls[..|calls| - 1];
      AdmittedNext(limits, TableAfter(limits, front), Admitted(limits, front, key), calls[|calls| - 1], key)
  }

  function AdmittedNext(limits: Limits, table: Table, before: seq<real>, call: Call, key: string): seq<real> {
    match call
    case Attempt(email, now, _) =>
      if limits.normalise(email) == key && Allows(limits, Stored(table, key), now) then before + [now] else before
    case Success(email) => if limits.normalise(email) == key then [] else before
  }

  // ---- The class ------------------------------------------------------------------------

  class LoginRateLimiter {
    const limits: Limits
    var attempts: Table

    constructor (limits: Limits)
      ensures this.limits == limits && attempts == TableAfter(limits, [])
    {
      this.limits := limits;
      attempts := map[];
    }

    method CheckAndRecord(email: string, now: real, roll: real) returns (allowed: bool)
      modifies this
      ensures allowed == Allows(limits, Stored(old(attempts), limits.normalise(email)), now)
      ensures attempts == Next(limits, old(attempts), Attempt(email, now, roll))
    {
      var key := limits.normalise(email);
      var cutoff := now - limits.window;
      var recent := Recent(Stored(attempts, key), cutoff);
      if |recent| >= limits.max {
        attempts := attempts[key := recent];
        SweepStale(cutoff, roll);
        return false;
      }
      assert recent + [now] == Kept(limits.max, Stored(attempts, key), now, cutoff);
      recent := recent + [now];
      attempts := attempts[key := recent];
      SweepStale(cutoff, roll);
      return true;
    }

    method Reset(email: string)
      modifies this
      ensures attempts == Next(limits, old(attempts), Success(email))
    {
      attempts := attempts - {limits.normalise(email)};
    }

    method SweepStale(cutoff: real, roll: real)
      modifies this
      ensures attempts == if roll < SWEEP_PROBABILITY then Swept(old(attempts), cutoff) else old(attempts)
    {
      if roll >= SWEEP_PROBABILITY {
        return;
      }
      var stale := set key | key in attempts && Recent(attempts[key], cutoff) == [];
      ghost var start, all := attempts, stale;
      while stale != {}
        invariant stale <= all
        invariant attempts == map key | key in start && key !in all - stale :: start[key]
      {
        var key :| key in stale;
        attempts := attempts - {key};
        stale := stale - {key};
      }
    }
  }
}
