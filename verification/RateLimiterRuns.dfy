/** What the login rate limiter does over whole runs: when its decisions are
    those of the plain history, and when no window overflows. */
module RateLimiterRuns {
  import opened RateLimiter

  // ---- Readings of the clock ----------------------------------------------------------------

  /** The clock readings of a sequence of calls, in lock order. */
  function Readings(calls: seq<Call>): seq<real> {
    if calls == [] then []
    else
      var front := Readings(calls[..|calls| - 1]);
      match calls[|calls| - 1]
      case Attempt(_, now, _) => front + [now]
      case Success(_) => front
  }

  /** Reading k falls inside the window of reading i, which reading j, earlier
      than k and possibly i itself, has left behind. */
  predicate Straddles(readings: seq<real>, window: real, i: nat, j: nat, k: nat) {
    i <= j < k < |readings| && readings[k] < readings[i] + window <= readings[j]
  }

  ghost predicate Straddled(readings: seq<real>, window: real) {
    exists i: nat, j: nat, k: nat :: Straddles(readings, window, i, j, k)
  }

  /** The same, with readings i and k less than a window apart. */
  predicate Crowds(readings: seq<real>, window: real, i: nat, j: nat, k: nat) {
    Straddles(readings, window, i, j, k) && readings[i] - window < readings[k]
  }

  ghost predicate Crowded(readings: seq<real>, window: real) {
    exists i: nat, j: nat, k: nat :: Crowds(readings, window, i, j, k)
  }

  datatype Span = After(low: real) | Between(low: real, high: real)

  predicate Inside(s: Span, t: real) {
    s.low < t && (s.Between? ==> t <= s.high)
  }

  /** Pruning at the cutoff takes nothing of the span away. */
  predicate Keeps(times: seq<real>, cutoff: real, s: Span) {
    forall i :: 0 <= i < |times| && Inside(s, times[i]) ==> times[i] > cutoff
  }

  /** No reading inside the span has been left behind yet. */
  predicate Settled(readings: seq<real>, window: real, s: Span) {
    forall i, j :: 0 <= i <= j < |readings| && Inside(s, readings[i]) ==> readings[i] > readings[j] - window
  }

  lemma SettledBefore(readings: seq<real>, now: real, cutoff: real, window: real, s: Span)
    requires Settled(readings + [now], window, s) && cutoff == now - window
    ensures Settled(readings, window, s) && Keeps(readings + [now], cutoff, s)
  {
    var all := readings + [now];
    forall i, j | 0 <= i <= j < |readings| && Inside(s, readings[i])
      ensures readings[i] > readings[j] - window
    {
      assert all[i] == readings[i] && all[j] == readings[j];
    }
    forall i | 0 <= i < |all| && Inside(s, all[i])
      ensures all[i] > cutoff
    {
      assert all[|readings|] == now;
    }
  }

  lemma UnstraddledBefore(readings: seq<real>, now: real, cutoff: real, window: real)
    requires !Straddled(readings + [now], window) && cutoff == now - window
    ensures !Straddled(readings, window) && Settled(readings, window, After(cutoff))
  {
    var all := readings + [now];
    forall i: nat, j: nat, k: nat ensures !Straddles(readings, window, i, j, k) {
      assert !Straddles(all, window, i, j, k);
    }
    forall i, j | 0 <= i <= j < |readings| && Inside(After(cutoff), readings[i])
      ensures readings[i] > readings[j] - window
    {
      assert !Straddles(all, window, i, j, |readings|);
    }
  }

  lemma UncrowdedBefore(readings: seq<real>, now: real, window: real)
    requires !Crowded(readings + [now], window)
    ensures !Crowded(readings, window)
  {
    forall i: nat, j: nat, k: nat ensures !Crowds(readings, window, i, j, k) {
      assert !Crowds(readings + [now], window, i, j, k);
    }
  }

  lemma UncrowdedSettles(readings: seq<real>, now: real, window: real, from: real, to: real)
    requires !Crowded(readings + [now], window) && from < now <= to && to == from + window
    ensures Settled(readings, window, Between(from, to))
  {
    forall i, j | 0 <= i <= j < |readings| && Inside(Between(from, to), readings[i])
      ensures readings[i] > readings[j] - window
    {
      assert !Crowds(readings + [now], window, i, j, |readings|);
    }
  }

  /** A run's last call is an attempt with this cutoff. */
  predicate EndsWith(limits: Limits, calls: seq<Call>, front: seq<Call>, call: Call, cutoff: real) {
    && calls == front + [call] && call.Attempt? && cutoff == call.now - limits.window
  }

  function Grown(times: seq<real>, more: bool, now: real): seq<real> {
    if more then times + [now] else times
  }

  /** What the last attempt does to the table, the history and the admissions. */
  lemma LastStored(limits: Limits, calls: seq<Call>, front: seq<Call>, call: Call, cutoff: real)
    requires EndsWith(limits, calls, front, call, cutoff)
    ensures Readings(calls) == Readings(front) + [call.now]
    ensures TableAfter(limits, calls) ==
            AfterAttempt(limits.max, TableAfter(limits, front), limits.normalise(call.email), call.now, cutoff, call.roll)
  {
    assert calls[..|calls| - 1] == front;
  }

  /** Counting the attempts less than a window old is pruning at the cutoff. */
  lemma {:induction false} CountIsRecent(times: seq<real>, now: real, window: real, cutoff: real)
    requires cutoff == now - window
    ensures CountWithin(times, now, window) == |Recent(times, cutoff)|
  {
    if times != [] {
      CountIsRecent(times[..|times| - 1], now, window, cutoff);
    }
  }

  lemma LastAccepted(limits: Limits, calls: seq<Call>, front: seq<Call>, call: Call, key: string, cutoff: real)
    requires EndsWith(limits, calls, front, call, cutoff)
    ensures var before := Accepted(limits, front, key);
            Accepted(limits, calls, key) ==
            Grown(before, limits.normalise(call.email) == key && HasRoom(limits.max, before, cutoff), call.now)
  {
    assert calls[..|calls| - 1] == front;
    CountIsRecent(Accepted(limits, front, key), call.now, limits.window, cutoff);
  }

  lemma LastAdmitted(limits: Limits, calls: seq<Call>, front: seq<Call>, call: Call, key: string, cutoff: real)
    requires EndsWith(limits, calls, front, call, cutoff)
    ensures var own, stored := limits.normalise(call.email) == key, Stored(TableAfter(limits, front), key);
            Admitted(limits, calls, key) == Grown(Admitted(limits, front, key), own && HasRoom(limits.max, stored, cutoff), call.now)
  {
    assert calls[..|calls| - 1] == front;
    assert Admitted(limits, calls, key) == AdmittedNext(limits, TableAfter(limits, front), Admitted(limits, front, key), call, key);
  }

  // ---- Pruning and sweeping ------------------------------------------------------------------

  lemma RecentAppend(times: seq<real>, now: real, cutoff: real)
    ensures Recent(times + [now], cutoff) == Recent(times, cutoff) + if now > cutoff then [now] else []
  {
    assert (times + [now])[..|times|] == times;
  }

  lemma {:induction false} RecentKeeps(times: seq<real>, early: real, cutoff: real, s: Span)
    requires Keeps(times, cutoff, s)
    ensures Keeps(Recent(times, early), cutoff, s)
  {
    if times != [] {
      RecentKeeps(times[..|times| - 1], early, cutoff, s);
    }
  }

  /** Pruning is harmless to a later cutoff that keeps nothing it drops. */
  lemma {:induction false} RecentTwice(times: seq<real>, early: real, late: real)
    requires Keeps(times, early, After(late))
    ensures Recent(Recent(times, early), late) == Recent(times, late)
  {
    if times != [] {
      var front, last := times[..|times| - 1], times[|times| - 1];
      RecentTwice(front, early, late);
      assert Inside(After(late), last) ==> last > early;
      if last > early {
        RecentAppend(Recent(front, early), last, late);
      }
    }
  }

  /** The list of a key after an attempt, its own or another's, and before a sweep. */
  function Updated(max: nat, times: seq<real>, own: bool, now: real, cutoff: real): seq<real> {
    if own then Kept(max, times, now, cutoff) else times
  }

  lemma UpdatedKeeps(max: nat, times: seq<real>, own: bool, now: real, cutoff: real, other: real, s: Span)
    requires Keeps(times, other, s) && (Inside(s, now) ==> now > other)
    ensures Keeps(Updated(max, times, own, now, cutoff), other, s)
  {
    RecentKeeps(times, cutoff, other, s);
  }

  lemma StoredNext(max: nat, table: Table, mine: string, now: real, cutoff: real, roll: real, key: string)
    ensures var stored := Stored(AfterAttempt(max, table, mine, now, cutoff, roll), key);
            var updated := Updated(max, Stored(table, key), mine == key, now, cutoff);
            stored == updated || (stored == [] && Recent(updated, cutoff) == [])
  {
  }

  /** The table holds only readings of the clock, so what they keep it keeps. */
  lemma {:induction false} StoredKeeps(limits: Limits, calls: seq<Call>, key: string, cutoff: real, s: Span)
    requires Keeps(Readings(calls), cutoff, s)
    ensures Keeps(Stored(TableAfter(limits, calls), key), cutoff, s)
  {
    if calls != [] {
      var front, call := calls[..|calls| - 1], calls[|calls| - 1];
      if call.Attempt? {
        FrontKeeps(Readings(front), call.now, cutoff, s);
        StoredKeeps(limits, front, key, cutoff, s);
        var table, own := TableAfter(limits, front), limits.normalise(call.email) == key;
        var early := call.now - limits.window;
        UpdatedKeeps(limits.max, Stored(table, key), own, call.now, early, cutoff, s);
        StoredNext(limits.max, table, limits.normalise(call.email), call.now, early, call.roll, key);
      } else {
        StoredKeeps(limits, front, key, cutoff, s);
      }
    }
  }

  lemma FrontKeeps(times: seq<real>, now: real, cutoff: real, s: Span)
    requires Keeps(times + [now], cutoff, s)
    ensures Keeps(times, cutoff, s) && (Inside(s, now) ==> now > cutoff)
  {
    assert (times + [now])[|times|] == now;
    forall i | 0 <= i < |times| && Inside(s, times[i]) ensures times[i] > cutoff {
      assert (times + [now])[i] == times[i];
    }
  }

  // ---- Decisions against the history ---------------------------------------------------------

  predicate Agree(stored: seq<real>, accepted: seq<real>, cutoff: real) {
    Recent(stored, cutoff) == Recent(accepted, cutoff)
  }

  lemma AttemptAgrees(max: nat, table: Table, mine: string, now: real, early: real, roll: real,
                      accepted: seq<real>, key: string, cutoff: real)
    requires Keeps(Stored(table, key), early, After(cutoff)) && (Inside(After(cutoff), now) ==> now > early)
    requires Agree(Stored(table, key), accepted, early) && Agree(Stored(table, key), accepted, cutoff)
    ensures Agree(Stored(AfterAttempt(max, table, mine, now, early, roll), key),
                  Grown(accepted, mine == key && HasRoom(max, accepted, early), now), cutoff)
  {
    var stored := Stored(table, key);
    StoredNext(max, table, mine, now, early, roll, key);
    UpdatedKeeps(max, stored, mine == key, now, early, early, After(cutoff));
    RecentTwice(Updated(max, stored, mine == key, now, early), early, cutoff);
    RecentTwice(stored, early, cutoff);
    RecentAppend(Recent(stored, early), now, cutoff);
    RecentAppend(accepted, now, cutoff);
  }

  /** Before a last attempt a settled span is settled, and its cutoff keeps the span. */
  lemma SettledTable(limits: Limits, calls: seq<Call>, front: seq<Call>, call: Call, key: string, cutoff: real, s: Span)
    requires EndsWith(limits, calls, front, call, cutoff) && Settled(Readings(calls), limits.window, s)
    ensures Settled(Readings(front), limits.window, s)
    ensures Keeps(Stored(TableAfter(limits, front), key), cutoff, s) && (Inside(s, call.now) ==> call.now > cutoff)
  {
    LastStored(limits, calls, front, call, cutoff);
    SettledBefore(Readings(front), call.now, cutoff, limits.window, s);
    FrontKeeps(Readings(front), call.now, cutoff, s);
    StoredKeeps(limits, front, key, cutoff, s);
  }

  lemma {:induction false} TableAgrees(limits: Limits, calls: seq<Call>, key: string, cutoff: real)
    requires !Straddled(Readings(calls), limits.window) && Settled(Readings(calls), limits.window, After(cutoff))
    ensures Agree(Stored(TableAfter(limits, calls), key), Accepted(limits, calls, key), cutoff)
  {
    if calls != [] {
      var front, call := calls[..|calls| - 1], calls[|calls| - 1];
      if call.Attempt? {
        var early := call.now - limits.window;
        LastStored(limits, calls, front, call, early);
        LastAccepted(limits, calls, front, call, key, early);
        UnstraddledBefore(Readings(front), call.now, early, limits.window);
        SettledTable(limits, calls, front, call, key, early, After(cutoff));
        TableAgrees(limits, front, key, cutoff);
        TableAgrees(limits, front, key, early);
        AttemptAgrees(limits.max, TableAfter(limits, front), limits.normalise(call.email), call.now, early, call.roll,
                      Accepted(limits, front, key), key, cutoff);
      } else {
        TableAgrees(limits, front, key, cutoff);
      }
    }
  }

  /** The limiter allows the attempt exactly when fewer than max accepted ones
      since the last reset are less than a window old. */
  predicate DecisionAgrees(limits: Limits, calls: seq<Call>, email: string, now: real) {
    var key := limits.normalise(email);
    Allows(limits, Stored(TableAfter(limits, calls), key), now) <==>
    CountWithin(Accepted(limits, calls, key), now, limits.window) < limits.max
  }

  /** Every decision of the run is the one the full history gives. */
  predicate FollowsHistory(limits: Limits, calls: seq<Call>) {
    calls == [] ||
    (&& FollowsHistory(limits, calls[..|calls| - 1])
     && var call := calls[|calls| - 1];
        call.Attempt? ==> DecisionAgrees(limits, calls[..|calls| - 1], call.email, call.now))
  }

  lemma {:induction false} UnstraddledFollows(limits: Limits, calls: seq<Call>)
    requires !Straddled(Readings(calls), limits.window)
    ensures FollowsHistory(limits, calls)
  {
    if calls != [] {
      var front, call := calls[..|calls| - 1], calls[|calls| - 1];
      if call.Attempt? {
        var cutoff := call.now - limits.window;
        UnstraddledBefore(Readings(front), call.now, cutoff, limits.window);
        TableAgrees(limits, front, limits.normalise(call.email), cutoff);
        CountIsRecent(Accepted(limits, front, limits.normalise(call.email)), call.now, limits.window, cutoff);
      }
      UnstraddledFollows(limits, front);
    }
  }

  /** Such a run lets through what the history would. */
  lemma {:induction false} AdmittedIsAccepted(limits: Limits, calls: seq<Call>, key: string)
    requires FollowsHistory(limits, calls)
    ensures Admitted(limits, calls, key) == Accepted(limits, calls, key)
  {
    if calls != [] {
      AdmittedIsAccepted(limits, calls[..|calls| - 1], key);
    }
  }

  // ---- The run that tells them apart -------------------------------------------------------------

  /** One attempt allowed per window. */
  function OnePer(window: real): Limits {
    Limits(1, window, email => email)
  }

  predicate IsOnePer(limits: Limits, window: real) {
    limits.max == 1 && limits.window == window && limits.normalise("a") == "a" && limits.normalise("b") == "b"
  }

  /** Attempts i and k on one address, all others on another, and only j sweeps. */
  function Telltale(readings: seq<real>, i: nat, j: nat, k: nat): (calls: seq<Call>)
    ensures |calls| == |readings|
    ensures forall n :: 0 <= n < |calls| ==>
      calls[n] == Attempt(if n == i || n == k then "a" else "b", readings[n], if n == j then 0.0 else 1.0)
  {
    seq(|readings|, n requires 0 <= n < |readings| =>
      Attempt(if n == i || n == k then "a" else "b", readings[n], if n == j then 0.0 else 1.0))
  }

  lemma {:induction false} TelltaleReadings(calls: seq<Call>, readings: seq<real>, i: nat, j: nat, k: nat)
    requires IsTelltale(calls, readings, i, j, k)
    ensures Readings(calls) == readings[..|calls|]
  {
    if calls != [] {
      TelltaleReadings(calls[..|calls| - 1], readings, i, j, k);
    }
  }

  lemma OneRecent(time: real, cutoff: real)
    ensures Recent([time], cutoff) == if time > cutoff then [time] else []
    ensures Recent([], cutoff) == []
  {
    assert [time][..0] == [];
  }

  /** What is stored for the first address after n readings. */
  function TelltaleStored(readings: seq<real>, i: nat, j: nat, n: nat): seq<real>
    requires i < |readings|
  {
    if i < n <= j then [readings[i]] else []
  }

  lemma TelltaleStep(table: Table, readings: seq<real>, window: real, i: nat, j: nat, k: nat, n: nat, cutoff: real)
    requires Straddles(readings, window, i, j, k) && n < k && cutoff == readings[n] - window
    requires Stored(table, "a") == TelltaleStored(readings, i, j, n)
    ensures var roll := if n == j then 0.0 else 1.0;
            Stored(AfterAttempt(1, table, if n == i then "a" else "b", readings[n], cutoff, roll), "a") ==
            TelltaleStored(readings, i, j, n + 1)
  {
    OneRecent(readings[i], cutoff);
  }

  /** A beginning of that run. */
  predicate IsTelltale(calls: seq<Call>, readings: seq<real>, i: nat, j: nat, k: nat) {
    && |calls| <= |readings|
    && forall n :: 0 <= n < |calls| ==>
         calls[n] == Attempt(if n == i || n == k then "a" else "b", readings[n], if n == j then 0.0 else 1.0)
  }

  /** Up to reading k the first attempt is stored from i until the sweep at j. */
  lemma {:induction false} TelltaleTable(limits: Limits, calls: seq<Call>, readings: seq<real>, window: real, i: nat, j: nat, k: nat)
    requires IsOnePer(limits, window) && Straddles(readings, window, i, j, k)
    requires IsTelltale(calls, readings, i, j, k) && |calls| <= k
    ensures Stored(TableAfter(limits, calls), "a") == TelltaleStored(readings, i, j, |calls|)
  {
    if calls != [] {
      var n := |calls| - 1;
      var front, cutoff := calls[..n], readings[n] - window;
      TelltaleTable(limits, front, readings, window, i, j, k);
      LastStored(limits, calls, front, calls[n], cutoff);
      TelltaleStep(TableAfter(limits, front), readings, window, i, j, k, n, cutoff);
    }
  }

  /** The first attempt finds room in an empty list. */
  lemma EmptyHasRoom(cutoff: real)
    ensures HasRoom(1, [], cutoff)
  {
  }

  /** Up to reading k the history holds the first attempt for good. */
  lemma {:induction false} TelltaleHistory(limits: Limits, calls: seq<Call>, readings: seq<real>, window: real, i: nat, j: nat, k: nat)
    requires IsOnePer(limits, window) && Straddles(readings, window, i, j, k)
    requires IsTelltale(calls, readings, i, j, k) && |calls| <= k
    ensures Accepted(limits, calls, "a") == if i < |calls| then [readings[i]] else []
  {
    if calls != [] {
      var n := |calls| - 1;
      var front, cutoff := calls[..n], readings[n] - window;
      TelltaleHistory(limits, front, readings, window, i, j, k);
      LastAccepted(limits, calls, front, calls[n], "a", cutoff);
      EmptyHasRoom(cutoff);
    }
  }

  lemma TelltaleFindsRoom(limits: Limits, calls: seq<Call>, readings: seq<real>, window: real, i: nat, j: nat, k: nat, cutoff: real)
    requires IsOnePer(limits, window) && Straddles(readings, window, i, j, k) && IsTelltale(calls, readings, i, j, k)
    requires |calls| == i || |calls| == k
    ensures HasRoom(limits.max, Stored(TableAfter(limits, calls), "a"), cutoff)
  {
    TelltaleTable(limits, calls, readings, window, i, j, k);
    EmptyHasRoom(cutoff);
  }

  /** The limiter lets the first of its two attempts through. */
  lemma {:induction false} TelltaleAdmitsOne(limits: Limits, calls: seq<Call>, readings: seq<real>, window: real, i: nat, j: nat, k: nat)
    requires IsOnePer(limits, window) && Straddles(readings, window, i, j, k)
    requires IsTelltale(calls, readings, i, j, k) && |calls| <= k
    ensures Admitted(limits, calls, "a") == if i < |calls| then [readings[i]] else []
  {
    if calls != [] {
      var n := |calls| - 1;
      var front, cutoff := calls[..n], readings[n] - window;
      TelltaleAdmitsOne(limits, front, readings, window, i, j, k);
      LastAdmitted(limits, calls, front, calls[n], "a", cutoff);
      if n == i {
        TelltaleFindsRoom(limits, front, readings, window, i, j, k, cutoff);
      }
    }
  }

  /** And then the second. */
  lemma {:induction false} TelltaleAdmitsTwo(limits: Limits, calls: seq<Call>, readings: seq<real>, window: real, i: nat, j: nat, k: nat)
    requires IsOnePer(limits, window) && Straddles(readings, window, i, j, k)
    requires IsTelltale(calls, readings, i, j, k) && k < |calls|
    ensures Admitted(limits, calls, "a") == [readings[i], readings[k]]
  {
    var n := |calls| - 1;
    var front, cutoff := calls[..n], readings[n] - window;
    LastAdmitted(limits, calls, front, calls[n], "a", cutoff);
    if n == k {
      TelltaleAdmitsOne(limits, front, readings, window, i, j, k);
      TelltaleFindsRoom(limits, front, readings, window, i, j, k, cutoff);
    } else {
      TelltaleAdmitsTwo(limits, front, readings, window, i, j, k);
    }
  }

  lemma {:induction false} FollowsAt(limits: Limits, calls: seq<Call>, n: nat)
    requires FollowsHistory(limits, calls) && n < |calls| && calls[n].Attempt?
    ensures DecisionAgrees(limits, calls[..n], calls[n].email, calls[n].now)
    decreases |calls|
  {
    if n + 1 < |calls| {
      FollowsAt(limits, calls[..|calls| - 1], n);
      assert calls[..|calls| - 1][..n] == calls[..n];
    }
  }

  lemma TelltaleDisagrees(limits: Limits, readings: seq<real>, window: real, i: nat, j: nat, k: nat)
    requires IsOnePer(limits, window) && Straddles(readings, window, i, j, k)
    ensures !DecisionAgrees(limits, Telltale(readings, i, j, k)[..k], "a", readings[k])
  {
    TelltaleTable(limits, Telltale(readings, i, j, k)[..k], readings, window, i, j, k);
    TelltaleHistory(limits, Telltale(readings, i, j, k)[..k], readings, window, i, j, k);
    OneRecent(readings[i], readings[k] - window);
    CountIsRecent([readings[i]], readings[k], window, readings[k] - window);
  }

  lemma StraddledBreaks(readings: seq<real>, window: real, i: nat, j: nat, k: nat)
    requires Straddles(readings, window, i, j, k)
    ensures !FollowsHistory(OnePer(window), Telltale(readings, i, j, k))
  {
    TelltaleDisagrees(OnePer(window), readings, window, i, j, k);
    if FollowsHistory(OnePer(window), Telltale(readings, i, j, k)) {
      FollowsAt(OnePer(window), Telltale(readings, i, j, k), k);
      assert false;
    }
  }

  lemma TelltaleMatches(readings: seq<real>, i: nat, j: nat, k: nat)
    ensures Readings(Telltale(readings, i, j, k)) == readings
  {
    TelltaleReadings(Telltale(readings, i, j, k), readings, i, j, k);
  }

  /** The exact condition on the clock: pruning and sweeping change no decision,
      for any maximum, addresses, resets and draws, if and only if no reading
      falls inside a window that an earlier reading had left behind. */
  lemma DecisionsFollowHistoryIff(readings: seq<real>, window: real)
    ensures !Straddled(readings, window) <==>
            forall limits: Limits, calls: seq<Call> :: limits.window == window && Readings(calls) == readings ==>
              FollowsHistory(limits, calls)
  {
    if Straddled(readings, window) {
      var i: nat, j: nat, k: nat :| Straddles(readings, window, i, j, k);
      TelltaleMatches(readings, i, j, k);
      StraddledBreaks(readings, window, i, j, k);
      assert OnePer(window).window == window;
    } else {
      forall limits: Limits, calls: seq<Call> | limits.window == window && Readings(calls) == readings
        ensures FollowsHistory(limits, calls)
      {
        UnstraddledFollows(limits, calls);
      }
    }
  }

  /** Readings that never go back. */
  predicate InOrder(readings: seq<real>) {
    forall i, j :: 0 <= i < j < |readings| ==> readings[i] <= readings[j]
  }

  lemma OrderIsEnough(readings: seq<real>, window: real)
    requires InOrder(readings)
    ensures !Straddled(readings, window) && !Crowded(readings, window)
  {
    forall i: nat, j: nat, k: nat ensures !Straddles(readings, window, i, j, k) {
      if j < k < |readings| {
        assert readings[j] <= readings[k];
      }
    }
  }

  /** In particular every decision follows the history while the clock keeps order. */
  lemma DecisionsFollowHistory(limits: Limits, calls: seq<Call>)
    requires InOrder(Readings(calls))
    ensures FollowsHistory(limits, calls)
  {
    OrderIsEnough(Readings(calls), limits.window);
    UnstraddledFollows(limits, calls);
  }

  /** In particular readings 0, 20 and 5 break it under a window of 10. */
  lemma BackwardClockBreaksIt()
    ensures exists limits: Limits, calls: seq<Call> ::
      limits.window == 10.0 && Readings(calls) == [0.0, 20.0, 5.0] && !FollowsHistory(limits, calls)
  {
    assert Straddles([0.0, 20.0, 5.0], 10.0, 0, 1, 2);
    DecisionsFollowHistoryIff([0.0, 20.0, 5.0], 10.0);
  }

  // ---- How many attempts a window admits ---------------------------------------------------------

  /** How many of the times lie in (from, to]. */
  function InWindow(times: seq<real>, from: real, to: real): nat {
    if times == [] then 0
    else InWindow(times[..|times| - 1], from, to) + if Inside(Between(from, to), times[|times| - 1]) then 1 else 0
  }

  lemma {:induction false} WindowWithinRecent(times: seq<real>, from: real, to: real, cutoff: real)
    requires cutoff <= from
    ensures InWindow(times, from, to) <= |Recent(times, cutoff)|
  {
    if times != [] {
      WindowWithinRecent(times[..|times| - 1], from, to, cutoff);
    }
  }

  lemma WindowAppend(times: seq<real>, now: real, from: real, to: real)
    ensures InWindow(times + [now], from, to) == InWindow(times, from, to) + if Inside(Between(from, to), now) then 1 else 0
  {
    assert (times + [now])[..|times|] == times;
  }

  /** Pruning takes nothing out of a window the cutoff keeps. */
  lemma {:induction false} PruneKeepsWindow(times: seq<real>, cutoff: real, from: real, to: real)
    requires Keeps(times, cutoff, Between(from, to))
    ensures InWindow(Recent(times, cutoff), from, to) == InWindow(times, from, to)
  {
    if times != [] {
      var front, last := times[..|times| - 1], times[|times| - 1];
      PruneKeepsWindow(front, cutoff, from, to);
      assert Inside(Between(from, to), last) ==> last > cutoff;
      WindowAppend(Recent(front, cutoff), last, from, to);
    }
  }

  lemma AttemptFillsWindow(max: nat, table: Table, mine: string, now: real, cutoff: real, roll: real,
                           admitted: seq<real>, key: string, from: real, to: real)
    requires Keeps(Stored(table, key), cutoff, Between(from, to)) && (Inside(Between(from, to), now) ==> now > cutoff)
    requires InWindow(Stored(table, key), from, to) == InWindow(admitted, from, to)
    ensures InWindow(Stored(AfterAttempt(max, table, mine, now, cutoff, roll), key), from, to) ==
            InWindow(Grown(admitted, mine == key && HasRoom(max, Stored(table, key), cutoff), now), from, to)
  {
    var stored := Stored(table, key);
    StoredNext(max, table, mine, now, cutoff, roll, key);
    UpdatedKeeps(max, stored, mine == key, now, cutoff, cutoff, Between(from, to));
    PruneKeepsWindow(Updated(max, stored, mine == key, now, cutoff), cutoff, from, to);
    PruneKeepsWindow(stored, cutoff, from, to);
    WindowAppend(Recent(stored, cutoff), now, from, to);
    WindowAppend(admitted, now, from, to);
  }

  lemma {:induction false} StoredFillsWindow(limits: Limits, calls: seq<Call>, key: string, from: real, to: real)
    requires Settled(Readings(calls), limits.window, Between(from, to))
    ensures InWindow(Stored(TableAfter(limits, calls), key), from, to) == InWindow(Admitted(limits, calls, key), from, to)
  {
    if calls != [] {
      var front, call := calls[..|calls| - 1], calls[|calls| - 1];
      if call.Attempt? {
        var cutoff := call.now - limits.window;
        SettledTable(limits, calls, front, call, key, cutoff, Between(from, to));
        StoredFillsWindow(limits, front, key, from, to);
        LastStored(limits, calls, front, call, cutoff);
        LastAdmitted(limits, calls, front, call, key, cutoff);
        AttemptFillsWindow(limits.max, TableAfter(limits, front), limits.normalise(call.email), call.now, cutoff, call.roll,
                           Admitted(limits, front, key), key, from, to);
      } else {
        StoredFillsWindow(limits, front, key, from, to);
      }
    }
  }

  /** At no moment of the run does a window, wherever placed, hold more than max
      attempts that the limiter admitted for a key since its last reset. */
  ghost predicate WindowsHold(limits: Limits, calls: seq<Call>) {
    && (forall key: string, from: real, to: real ::
          to == from + limits.window ==> InWindow(Admitted(limits, calls, key), from, to) <= limits.max)
    && (calls != [] ==> WindowsHold(limits, calls[..|calls| - 1]))
  }

  lemma RoomForOne(limits: Limits, calls: seq<Call>, key: string, now: real, from: real, to: real, cutoff: real)
    requires !Crowded(Readings(calls) + [now], limits.window) && Inside(Between(from, to), now)
    requires to == from + limits.window && cutoff == now - limits.window
    requires HasRoom(limits.max, Stored(TableAfter(limits, calls), key), cutoff)
    ensures InWindow(Admitted(limits, calls, key), from, to) < limits.max
  {
    UncrowdedSettles(Readings(calls), now, limits.window, from, to);
    StoredFillsWindow(limits, calls, key, from, to);
    WindowWithinRecent(Stored(TableAfter(limits, calls), key), from, to, cutoff);
  }

  lemma {:induction false} AdmittedWithinMax(limits: Limits, calls: seq<Call>, key: string, from: real, to: real)
    requires !Crowded(Readings(calls), limits.window) && to == from + limits.window
    ensures InWindow(Admitted(limits, calls, key), from, to) <= limits.max
  {
    if calls != [] {
      var front, call := calls[..|calls| - 1], calls[|calls| - 1];
      if call.Attempt? {
        var now, cutoff := call.now, call.now - limits.window;
        LastStored(limits, calls, front, call, cutoff);
        UncrowdedBefore(Readings(front), now, limits.window);
        AdmittedWithinMax(limits, front, key, from, to);
        LastAdmitted(limits, calls, front, call, key, cutoff);
        WindowAppend(Admitted(limits, front, key), now, from, to);
        if Inside(Between(from, to), now) && HasRoom(limits.max, Stored(TableAfter(limits, front), key), cutoff) {
          RoomForOne(limits, front, key, now, from, to, cutoff);
        }
      } else {
        AdmittedWithinMax(limits, front, key, from, to);
      }
    }
  }

  lemma {:induction false} UncrowdedHolds(limits: Limits, calls: seq<Call>)
    requires !Crowded(Readings(calls), limits.window)
    ensures WindowsHold(limits, calls)
  {
    forall key: string, from: real, to: real | to == from + limits.window
      ensures InWindow(Admitted(limits, calls, key), from, to) <= limits.max
    {
      AdmittedWithinMax(limits, calls, key, from, to);
    }
    if calls != [] {
      if calls[|calls| - 1].Attempt? {
        UncrowdedBefore(Readings(calls[..|calls| - 1]), calls[|calls| - 1].now, limits.window);
      }
      UncrowdedHolds(limits, calls[..|calls| - 1]);
    }
  }

  lemma TwoInWindow(a: real, b: real, from: real, to: real)
    requires from < a <= to && from < b <= to
    ensures InWindow([a, b], from, to) == 2
  {
    assert [a, b] == [a] + [b] && [a] == [] + [a];
    WindowAppend([], a, from, to);
    WindowAppend([a], b, from, to);
  }

  lemma CrowdedOverflows(readings: seq<real>, window: real, i: nat, j: nat, k: nat)
    requires Crowds(readings, window, i, j, k)
    ensures !WindowsHold(OnePer(window), Telltale(readings, i, j, k))
  {
    var calls, first, second := Telltale(readings, i, j, k), readings[i], readings[k];
    var to := if first <= second then second else first;
    var from := to - window;
    TwoInWindow(first, second, from, to);
    assert Admitted(OnePer(window), calls, "a") == [first, second] by {
      TelltaleAdmitsTwo(OnePer(window), calls, readings, window, i, j, k);
    }
    assert to == from + OnePer(window).window;
  }

  /** The exact condition for the bound: for any maximum, addresses, resets and
      draws no window holds more admitted attempts than the maximum, if and only
      if no two readings less than a window apart have one between them that
      left the first behind. */
  lemma NoWindowOverflowsIff(readings: seq<real>, window: real)
    ensures !Crowded(readings, window) <==>
            forall limits: Limits, calls: seq<Call> :: limits.window == window && Readings(calls) == readings ==>
              WindowsHold(limits, calls)
  {
    if Crowded(readings, window) {
      var i: nat, j: nat, k: nat :| Crowds(readings, window, i, j, k);
      TelltaleMatches(readings, i, j, k);
      CrowdedOverflows(readings, window, i, j, k);
      assert OnePer(window).window == window;
    } else {
      forall limits: Limits, calls: seq<Call> | limits.window == window && Readings(calls) == readings
        ensures WindowsHold(limits, calls)
      {
        UncrowdedHolds(limits, calls);
      }
    }
  }

  /** In particular no window overflows while the clock keeps order. */
  lemma NoWindowOverflows(limits: Limits, calls: seq<Call>)
    requires InOrder(Readings(calls))
    ensures WindowsHold(limits, calls)
  {
    OrderIsEnough(Readings(calls), limits.window);
    UncrowdedHolds(limits, calls);
  }

  // ---- Memory --------------------------------------------------------------------------------

  /** No stored list ever outgrows the limit. */
  lemma {:induction false} StoredIsShort(limits: Limits, calls: seq<Call>, key: string)
    ensures |Stored(TableAfter(limits, calls), key)| <= limits.max
  {
    if calls != [] {
      StoredIsShort(limits, calls[..|calls| - 1], key);
    }
  }

  /** A sweep forgets exactly the keys without a recent attempt. */
  lemma SweepLeavesRecentKeys(limits: Limits, calls: seq<Call>, call: Call, key: string)
    requires call.Attempt? && call.roll < SWEEP_PROBABILITY && key != limits.normalise(call.email)
    ensures var before, after := TableAfter(limits, calls), TableAfter(limits, calls + [call]);
            && (key in after <==> key in before && Recent(before[key], call.now - limits.window) != [])
            && (key in after ==> after[key] == before[key])
  {
    assert (calls + [call])[..|calls|] == calls;
  }
}
