/** Response deadlines on chat threads and the notices they raise: send_message,
    get_or_create_thread and delete_thread (backend/app/services/chat.py),
    completion (backend/app/services/evaluation.py) and the deadline sweep
    (backend/app/services/notifications.py). */
module Deadlines {
  import opened ReplenishmentPolicy

  const MAX_MESSAGE_BODY_LENGTH := 10_000

  datatype Role = Admin | Analyst
  datatype Kind = Approaching | Missed

  datatype Thread = Thread(
    scenario: nat, persona: nat, completed: bool, deleted: bool,
    deadline: Option<int>, approachingNotified: bool, overdueNotified: bool)

  datatype User = User(role: Role, active: bool)

  /** Messages and notifications in the order they are written. */
  datatype Event =
    | Message(thread: nat, role: Role)
    | Notice(thread: nat, user: nat, kind: Kind)

  datatype Desk = Desk(threads: seq<Thread>, log: seq<Event>)

  /** What a call reads from other tables; it may differ from call to call. */
  datatype Around = Around(users: seq<User>, cancelled: set<nat>)

  datatype ChatError =
    | ThreadNotFound
    | AttachmentRefused
    | ThreadCompleted
    | BodyTooLong
    | NoAnalystSubmission
    | ScenarioCancelled
    | EvaluationFailed

  /** Where p holds, in ascending order. */
  function Selected<T>(s: seq<T>, p: T -> bool): (r: seq<nat>)
    ensures forall i :: 0 <= i < |r| ==> r[i] < |s| && p(s[r[i]])
    ensures forall i, j :: 0 <= i < j < |r| ==> r[i] < r[j]
    ensures forall k :: 0 <= k < |s| && p(s[k]) ==> k in r
  {
    if s == [] then []
    else
      var front := Selected(s[..|s| - 1], p);
      if p(s[|s| - 1]) then front + [|s| - 1] else front
  }

  // ---- One call -------------------------------------------------------------------

  predicate Live(threads: seq<Thread>, t: nat) {
    t < |threads| && !threads[t].deleted
  }

  predicate IsFor(scenario: nat, persona: nat, t: Thread) {
    t.scenario == scenario && t.persona == persona && !t.deleted
  }

  function OpenThread(d: Desk, scenario: nat, persona: nat): Desk {
    if exists t :: 0 <= t < |d.threads| && IsFor(scenario, persona, d.threads[t]) then d
    else d.(threads := d.threads + [Thread(scenario, persona, false, false, None, false, false)])
  }

  function SendError(d: Desk, t: nat, attachmentOk: bool, bodyLength: nat): Option<ChatError> {
    if !Live(d.threads, t) then Some(ThreadNotFound)
    else if !attachmentOk then Some(AttachmentRefused)
    else if d.threads[t].completed then Some(ThreadCompleted)
    else if bodyLength > MAX_MESSAGE_BODY_LENGTH then Some(BodyTooLong)
    else None
  }

  function Send(d: Desk, t: nat, role: Role, now: int, days: int, attachmentOk: bool, bodyLength: nat): Desk {
    if SendError(d, t, attachmentOk, bodyLength).Some? then d
    else
      var deadline := if role.Analyst? then None else Some(now + 86400 * days);
      Desk(
        d.threads[t := d.threads[t].(deadline := deadline, approachingNotified := false, overdueNotified := false)],
        d.log + [Message(t, role)])
  }

  function DeleteError(d: Desk, t: nat): Option<ChatError> {
    if !Live(d.threads, t) then Some(ThreadNotFound)
    else if d.threads[t].completed then Some(ThreadCompleted)
    else None
  }

  function Delete(d: Desk, t: nat): Desk {
    if DeleteError(d, t).Some? then d
    else d.(threads := d.threads[t := d.threads[t].(deleted := true)])
  }

  /** The role behind the thread's latest message. */
  function LatestSender(log: seq<Event>, t: nat): Option<Role> {
    if log == [] then None
    else
      match log[|log| - 1]
      case Message(u, role) => if u == t then Some(role) else LatestSender(log[..|log| - 1], t)
      case Notice(_, _, _) => LatestSender(log[..|log| - 1], t)
  }

  function CompleteError(d: Desk, around: Around, t: nat, generated: bool): Option<ChatError> {
    if !Live(d.threads, t) then Some(ThreadNotFound)
    else if d.threads[t].completed then Some(ThreadCompleted)
    else if LatestSender(d.log, t) != Some(Analyst) then Some(NoAnalystSubmission)
    else if d.threads[t].scenario in around.cancelled then Some(ScenarioCancelled)
    else if !generated then Some(EvaluationFailed)
    else None
  }

  function Complete(d: Desk, around: Around, t: nat, generated: bool): Desk {
    if CompleteError(d, around, t, generated).Some? then d
    else d.(threads := d.threads[t := d.threads[t].(completed := true)])
  }

  // ---- The sweep --------------------------------------------------------------------

  predicate Candidate(around: Around, t: Thread) {
    !t.completed && !t.deleted && t.deadline.Some? && t.scenario !in around.cancelled
  }

  predicate IsOverdue(around: Around, now: int, t: Thread) {
    Candidate(around, t) && !t.overdueNotified && t.deadline.value <= now
  }

  predicate IsApproaching(around: Around, now: int, within: int, t: Thread) {
    && Candidate(around, t) && !t.overdueNotified && !t.approachingNotified
    && t.deadline.value > now && t.deadline.value - now <= within
  }

  function Overdue(d: Desk, around: Around, now: int): seq<nat> {
    Selected(d.threads, (t: Thread) => IsOverdue(around, now, t))
  }

  function NearlyDue(d: Desk, around: Around, now: int, within: int): seq<nat> {
    Selected(d.threads, (t: Thread) => IsApproaching(around, now, within, t))
  }

  function Recipients(around: Around, role: Role): seq<nat> {
    Selected(around.users, (u: User) => u.role == role && u.active)
  }

  function Marked(t: Thread, kind: Kind): Thread {
    if kind.Missed? then t.(overdueNotified := true) else t.(approachingNotified := true)
  }

  function Notices(t: nat, users: seq<nat>, kind: Kind): (r: seq<Event>)
    ensures |r| == |users| && forall i :: 0 <= i < |r| ==> r[i] == Notice(t, users[i], kind)
  {
    seq(|users|, i requires 0 <= i < |users| => Notice(t, users[i], kind))
  }

  function Notify(d: Desk, t: nat, users: seq<nat>, kind: Kind): Desk
    requires t < |d.threads|
  {
    Desk(d.threads[t := Marked(d.threads[t], kind)], d.log + Notices(t, users, kind))
  }

  predicate Within(d: Desk, ts: seq<nat>) {
    forall i :: 0 <= i < |ts| ==> ts[i] < |d.threads|
  }

  function NotifyAll(d: Desk, ts: seq<nat>, users: seq<nat>, kind: Kind): (r: Desk)
    requires Within(d, ts)
    ensures |r.threads| == |d.threads|
  {
    if ts == [] then d else Notify(NotifyAll(d, ts[..|ts| - 1], users, kind), ts[|ts| - 1], users, kind)
  }

  function Sweep(d: Desk, around: Around, now: int, within: int): Desk {
    NotifyAll(
      NotifyAll(d, Overdue(d, around, now), Recipients(around, Admin), Missed),
      NearlyDue(d, around, now, within), Recipients(around, Analyst), Approaching)
  }

  // ---- Runs -------------------------------------------------------------------------

  datatype Step =
    | DoOpen(scenario: nat, persona: nat)
    | DoSend(thread: nat, role: Role, now: int, days: int, attachmentOk: bool, bodyLength: nat)
    | DoDelete(thread: nat)
    | DoComplete(thread: nat, generated: bool)
    | DoSweep(now: int, within: int)

  function Next(d: Desk, around: Around, step: Step): Desk {
    match step
    case DoOpen(scenario, persona) => OpenThread(d, scenario, persona)
    case DoSend(t, role, now, days, attachmentOk, bodyLength) => Send(d, t, role, now, days, attachmentOk, bodyLength)
    case DoDelete(t) => Delete(d, t)
    case DoComplete(t, generated) => Complete(d, around, t, generated)
    case DoSweep(now, within) => Sweep(d, around, now, within)
  }

  function Run(steps: seq<(Around, Step)>): Desk {
    if steps == [] then Desk([], [])
    else Next(Run(steps[..|steps| - 1]), steps[|steps| - 1].0, steps[|steps| - 1].1)
  }

  // ---- The service's statements -------------------------------------------------------

  class ChatDesk {
    var threads: seq<Thread>
    var log: seq<Event>

    ghost function State(): Desk
      reads this
    {
      Desk(threads, log)
    }

    constructor ()
      ensures State() == Run([])
    {
      threads, log := [], [];
    }

    method GetOrCreateThread(scenario: nat, persona: nat) returns (t: nat)
      modifies this
      ensures State() == OpenThread(old(State()), scenario, persona)
      ensures t < |threads| && IsFor(scenario, persona, threads[t])
    {
      t := 0;
      while t < |threads|
        invariant t <= |threads|
        invariant forall u :: 0 <= u < t ==> !IsFor(scenario, persona, threads[u])
      {
        if IsFor(scenario, persona, threads[t]) {
          return;
        }
        t := t + 1;
      }
      threads := threads + [Thread(scenario, persona, false, false, None, false, false)];
    }

    method SendMessage(t: nat, role: Role, now: int, days: int, attachmentOk: bool, bodyLength: nat)
      returns (error: Option<ChatError>)
      modifies this
      ensures error == SendError(old(State()), t, attachmentOk, bodyLength)
      ensures State() == Send(old(State()), t, role, now, days, attachmentOk, bodyLength)
    {
      if t >= |threads| || threads[t].deleted {
        return Some(ThreadNotFound);
      }
      if !attachmentOk {
        return Some(AttachmentRefused);
      }
      if threads[t].completed {
        return Some(ThreadCompleted);
      }
      if bodyLength > MAX_MESSAGE_BODY_LENGTH {
        return Some(BodyTooLong);
      }
      log := log + [Message(t, role)];
      if role == Analyst {
        threads := threads[t := threads[t].(deadline := None)];
      } else {
        threads := threads[t := threads[t].(deadline := Some(now + 86400 * days))];
      }
      threads := threads[t := threads[t].(approachingNotified := false)];
      threads := threads[t := threads[t].(overdueNotified := false)];
      error := None;
    }

    method DeleteThread(t: nat) returns (error: Option<ChatError>)
      modifies this
      ensures error == DeleteError(old(State()), t)
      ensures State() == Delete(old(State()), t)
    {
      if t >= |threads| || threads[t].deleted {
        return Some(ThreadNotFound);
      }
      if threads[t].completed {
        return Some(ThreadCompleted);
      }
      threads := threads[t := threads[t].(deleted := true)];
      error := None;
    }

    method CompleteThread(around: Around, t: nat, generated: bool) returns (error: Option<ChatError>)
      modifies this
      ensures error == CompleteError(old(State()), around, t, generated)
      ensures State() == Complete(old(State()), around, t, generated)
    {
      if t >= |threads| || threads[t].deleted {
        return Some(ThreadNotFound);
      }
      if threads[t].completed {
        return Some(ThreadCompleted);
      }
      var latest := LatestSender(log, t);
      if latest.None? || latest.value != Analyst {
        return Some(NoAnalystSubmission);
      }
      if threads[t].scenario in around.cancelled {
        return Some(ScenarioCancelled);
      }
      if !generated {
        return Some(EvaluationFailed);
      }
      threads := threads[t := threads[t].(completed := true)];
      error := None;
    }

    method NotifyThreads(ts: seq<nat>, users: seq<nat>, kind: Kind) returns (count: nat)
      requires Within(State(), ts)
      modifies this
      ensures State() == NotifyAll(old(State()), ts, users, kind)
      ensures count == |ts|
    {
      count := 0;
      ghost var start := State();
      while count < |ts|
        invariant count <= |ts|
        invariant |threads| == |start.threads|
        invariant State() == NotifyAll(start, ts[..count], users, kind)
      {
        var t := ts[count];
        ghost var before := State();
        for i := 0 to |users|
          invariant threads == before.threads
          invariant log == before.log + Notices(t, users[..i], kind)
        {
          log := log + [Notice(t, users[i], kind)];
          assert Notices(t, users[..i + 1], kind) == Notices(t, users[..i], kind) + [Notice(t, users[i], kind)];
        }
        assert users[..|users|] == users;
        threads := threads[t := Marked(threads[t], kind)];
        count := count + 1;
        assert ts[..count][..count - 1] == ts[..count - 1];
      }
      assert ts[..|ts|] == ts;
    }

    method SweepThreadDeadlines(around: Around, now: int, within: int) returns (missed: nat, approaching: nat)
      modifies this
      ensures State() == Sweep(old(State()), around, now, within)
      ensures missed == |Overdue(old(State()), around, now)|
      ensures approaching == |NearlyDue(old(State()), around, now, within)|
    {
      var overdue := Overdue(Desk(threads, log), around, now);
      var nearlyDue := NearlyDue(Desk(threads, log), around, now, within);
      missed := NotifyThreads(overdue, Recipients(around, Admin), Missed);
      approaching := NotifyThreads(nearlyDue, Recipients(around, Analyst), Approaching);
    }
  }

  // ---- Rounds -----------------------------------------------------------------------

  /** A Builder message on the thread, which starts a round, strictly between. */
  ghost predicate RoundStartsBetween(log: seq<Event>, t: nat, i: int, j: int)
    requires j <= |log|
  {
    exists k :: 0 <= k && i < k < j && log[k] == Message(t, Admin)
  }

  /** Two notices that may not fall into one round: the same one twice, or a
      missed deadline followed by an approaching one. */
  predicate Clash(a: Event, b: Event) {
    && a.Notice? && b.Notice? && a.thread == b.thread
    && ((a.user == b.user && a.kind == b.kind) || (a.kind.Missed? && b.kind.Approaching?))
  }

  ghost predicate OncePerRound(log: seq<Event>) {
    && (forall i, j :: 0 <= i < j < |log| && Clash(log[i], log[j]) ==> RoundStartsBetween(log, log[j].thread, i, j))
    && (forall j :: 0 <= j < |log| && log[j].Notice? ==> RoundStartsBetween(log, log[j].thread, -1, j))
  }

  /** No notice of this kind in the thread's current round. */
  ghost predicate Unsent(log: seq<Event>, t: nat, kind: Kind) {
    forall i :: 0 <= i < |log| && log[i].Notice? && log[i].thread == t && log[i].kind == kind ==>
      RoundStartsBetween(log, t, i, |log|)
  }

  ghost predicate ThreadOk(d: Desk, t: nat)
    requires t < |d.threads|
  {
    var thread := d.threads[t];
    thread.deadline.Some? ==>
      && RoundStartsBetween(d.log, t, -1, |d.log|)
      && (!thread.overdueNotified ==> Unsent(d.log, t, Missed))
      && (!thread.overdueNotified && !thread.approachingNotified ==> Unsent(d.log, t, Approaching))
  }

  /** One live thread per scenario and persona. */
  predicate OneLivePerPersona(threads: seq<Thread>) {
    forall i, j :: 0 <= i < j < |threads| ==>
      !(IsFor(threads[i].scenario, threads[i].persona, threads[j]) && !threads[i].deleted)
  }

  predicate InRange(d: Desk) {
    forall i :: 0 <= i < |d.log| ==> d.log[i].thread < |d.threads|
  }

  ghost predicate DeskOk(d: Desk) {
    && OncePerRound(d.log) && InRange(d) && OneLivePerPersona(d.threads)
    && forall t: nat :: t < |d.threads| ==> ThreadOk(d, t)
  }

  /** Appending events keeps a round start where it is. */
  lemma RoundStartKept(log: seq<Event>, more: seq<Event>, t: nat, i: int, j: int)
    requires j <= |log| && RoundStartsBetween(log, t, i, j)
    ensures forall m :: j <= m <= |log + more| ==> RoundStartsBetween(log + more, t, i, m)
  {
    var k :| 0 <= k && i < k < j && log[k] == Message(t, Admin);
    assert (log + more)[k] == log[k];
  }

  lemma UnsentKept(log: seq<Event>, more: seq<Event>, t: nat, kind: Kind)
    requires Unsent(log, t, kind)
    requires forall i :: 0 <= i < |more| && more[i].Notice? && more[i].thread == t ==> more[i].kind != kind
    ensures Unsent(log + more, t, kind)
  {
    var all := log + more;
    forall i | 0 <= i < |all| && all[i].Notice? && all[i].thread == t && all[i].kind == kind
      ensures RoundStartsBetween(all, t, i, |all|)
    {
      if i < |log| {
        assert all[i] == log[i];
        RoundStartKept(log, more, t, i, |log|);
      } else {
        assert false;
      }
    }
  }

  lemma ThreadKept(d: Desk, after: Desk, more: seq<Event>, t: nat)
    requires t < |d.threads| && ThreadOk(d, t)
    requires t < |after.threads| && after.log == d.log + more
    requires d.threads[t].deadline == after.threads[t].deadline
    requires d.threads[t].approachingNotified == after.threads[t].approachingNotified
    requires d.threads[t].overdueNotified == after.threads[t].overdueNotified
    requires forall i :: 0 <= i < |more| ==> more[i].thread != t
    ensures ThreadOk(after, t)
  {
    var thread := d.threads[t];
    if thread.deadline.Some? {
      RoundStartKept(d.log, more, t, -1, |d.log|);
      if !thread.overdueNotified {
        UnsentKept(d.log, more, t, Missed);
        if !thread.approachingNotified {
          UnsentKept(d.log, more, t, Approaching);
        }
      }
    }
  }

  lemma MessageKeepsRounds(log: seq<Event>, t: nat, role: Role)
    requires OncePerRound(log)
    ensures OncePerRound(log + [Message(t, role)])
  {
    OncePerRoundGrows(log, [Message(t, role)]);
  }

  /** What an appended block has to satisfy. */
  lemma OncePerRoundGrows(log: seq<Event>, more: seq<Event>)
    requires OncePerRound(log)
    requires forall i, j :: 0 <= i < j < |more| ==> !Clash(more[i], more[j])
    requires forall i, j :: 0 <= i < |log| && 0 <= j < |more| && Clash(log[i], more[j]) ==>
      RoundStartsBetween(log, more[j].thread, i, |log|)
    requires forall j :: 0 <= j < |more| && more[j].Notice? ==> RoundStartsBetween(log, more[j].thread, -1, |log|)
    ensures OncePerRound(log + more)
  {
    var all := log + more;
    forall i, j | 0 <= i < j < |all| && Clash(all[i], all[j])
      ensures RoundStartsBetween(all, all[j].thread, i, j)
    {
      if j < |log| {
        RoundStartKept(log, more, all[j].thread, i, j);
      } else if i < |log| {
        assert all[j] == more[j - |log|];
        RoundStartKept(log, more, all[j].thread, i, |log|);
      } else {
        assert false;
      }
    }
    forall j | 0 <= j < |all| && all[j].Notice?
      ensures RoundStartsBetween(all, all[j].thread, -1, j)
    {
      if j < |log| {
        RoundStartKept(log, more, all[j].thread, -1, j);
      } else {
        assert all[j] == more[j - |log|];
        RoundStartKept(log, more, all[j].thread, -1, |log|);
      }
    }
  }

  lemma SendKeeps(d: Desk, t: nat, role: Role, now: int, days: int, attachmentOk: bool, bodyLength: nat)
    requires DeskOk(d)
    ensures DeskOk(Send(d, t, role, now, days, attachmentOk, bodyLength))
  {
    var after := Send(d, t, role, now, days, attachmentOk, bodyLength);
    if after != d {
      var more := [Message(t, role)];
      MessageKeepsRounds(d.log, t, role);
      forall u: nat | u < |after.threads| ensures ThreadOk(after, u) {
        if u != t {
          ThreadKept(d, after, more, u);
        } else if role.Admin? {
          assert after.log[|d.log|] == Message(t, Admin);
        }
      }
    }
  }

  lemma StatusKeeps(d: Desk, t: nat, thread: Thread)
    requires DeskOk(d) && t < |d.threads|
    requires thread == d.threads[t].(deleted := true) || thread == d.threads[t].(completed := true)
    ensures DeskOk(d.(threads := d.threads[t := thread]))
  {
    var after := d.(threads := d.threads[t := thread]);
    forall u: nat | u < |after.threads| ensures ThreadOk(after, u) {
      assert d.log + [] == d.log;
      ThreadKept(d, after, [], u);
    }
  }

  lemma OpenKeeps(d: Desk, scenario: nat, persona: nat)
    requires DeskOk(d)
    ensures DeskOk(OpenThread(d, scenario, persona))
  {
    var after := OpenThread(d, scenario, persona);
    if after != d {
      forall u: nat | u < |after.threads| ensures ThreadOk(after, u) {
        if u < |d.threads| {
          assert d.log + [] == d.log;
          ThreadKept(d, after, [], u);
        }
      }
    }
  }

  /** May this kind of notice go out on the thread now? */
  predicate MayNotify(t: Thread, kind: Kind) {
    t.deadline.Some? && !t.overdueNotified && (kind.Approaching? ==> !t.approachingNotified)
  }

  predicate Ascending(s: seq<nat>) {
    forall i, j :: 0 <= i < j < |s| ==> s[i] < s[j]
  }

  lemma NotifyKeepsRounds(d: Desk, t: nat, users: seq<nat>, kind: Kind)
    requires DeskOk(d) && t < |d.threads| && MayNotify(d.threads[t], kind) && Ascending(users)
    ensures OncePerRound(Notify(d, t, users, kind).log)
  {
    var more := Notices(t, users, kind);
    assert ThreadOk(d, t);
    forall i, j | 0 <= i < |d.log| && 0 <= j < |more| && Clash(d.log[i], more[j])
      ensures RoundStartsBetween(d.log, more[j].thread, i, |d.log|)
    {
      assert Unsent(d.log, t, d.log[i].kind);
    }
    OncePerRoundGrows(d.log, more);
  }

  lemma NotifyKeeps(d: Desk, t: nat, users: seq<nat>, kind: Kind)
    requires DeskOk(d) && t < |d.threads| && MayNotify(d.threads[t], kind) && Ascending(users)
    ensures DeskOk(Notify(d, t, users, kind))
  {
    var after, more := Notify(d, t, users, kind), Notices(t, users, kind);
    NotifyKeepsRounds(d, t, users, kind);
    forall u: nat | u < |after.threads| ensures ThreadOk(after, u) {
      assert ThreadOk(d, u);
      if u != t {
        ThreadKept(d, after, more, u);
      } else {
        RoundStartKept(d.log, more, t, -1, |d.log|);
        if kind.Approaching? {
          UnsentKept(d.log, more, t, Missed);
        }
      }
    }
  }

  lemma {:induction false} NotifyAllKeeps(d: Desk, ts: seq<nat>, users: seq<nat>, kind: Kind)
    requires DeskOk(d) && Within(d, ts) && Ascending(ts) && Ascending(users)
    requires forall i :: 0 <= i < |ts| ==> MayNotify(d.threads[ts[i]], kind)
    ensures DeskOk(NotifyAll(d, ts, users, kind))
  {
    if ts != [] {
      var front, t := ts[..|ts| - 1], ts[|ts| - 1];
      NotifyAllKeeps(d, front, users, kind);
      NotifyAllMarks(d, front, users, kind);
      NotifyKeeps(NotifyAll(d, front, users, kind), t, users, kind);
    }
  }

  /** Exactly the listed threads are marked, exactly their notices written. */
  lemma {:induction false} NotifyAllMarks(d: Desk, ts: seq<nat>, users: seq<nat>, kind: Kind)
    requires Within(d, ts)
    ensures var r := NotifyAll(d, ts, users, kind);
            && (forall t :: 0 <= t < |d.threads| ==>
                  r.threads[t] == if t in ts then Marked(d.threads[t], kind) else d.threads[t])
            && |r.log| >= |d.log| && r.log[..|d.log|] == d.log
            && (forall e :: e in r.log[|d.log|..] <==> e.Notice? && e.thread in ts && e.user in users && e.kind == kind)
  {
    if ts != [] {
      var front, t := ts[..|ts| - 1], ts[|ts| - 1];
      NotifyAllMarks(d, front, users, kind);
      var r, before := NotifyAll(d, ts, users, kind), NotifyAll(d, front, users, kind);
      assert ts == front + [t];
      assert r.log[|d.log|..] == before.log[|d.log|..] + Notices(t, users, kind);
      forall e ensures e in Notices(t, users, kind) <==> e.Notice? && e.thread == t && e.user in users && e.kind == kind {
        if e.Notice? && e.thread == t && e.user in users && e.kind == kind {
          var i :| 0 <= i < |users| && users[i] == e.user;
          assert Notices(t, users, kind)[i] == e;
        }
      }
    }
  }

  lemma SweepKeeps(d: Desk, around: Around, now: int, within: int)
    requires DeskOk(d)
    ensures DeskOk(Sweep(d, around, now, within))
  {
    var overdue, nearlyDue := Overdue(d, around, now), NearlyDue(d, around, now, within);
    NotifyAllKeeps(d, overdue, Recipients(around, Admin), Missed);
    NotifyAllMarks(d, overdue, Recipients(around, Admin), Missed);
    NotifyAllKeeps(NotifyAll(d, overdue, Recipients(around, Admin), Missed), nearlyDue, Recipients(around, Analyst), Approaching);
  }

  lemma {:induction false} EveryRunKeeps(steps: seq<(Around, Step)>)
    ensures DeskOk(Run(steps))
  {
    if steps != [] {
      EveryRunKeeps(steps[..|steps| - 1]);
      var d, around := Run(steps[..|steps| - 1]), steps[|steps| - 1].0;
      match steps[|steps| - 1].1
      case DoOpen(scenario, persona) => OpenKeeps(d, scenario, persona);
      case DoSend(t, role, now, days, attachmentOk, bodyLength) =>
        SendKeeps(d, t, role, now, days, attachmentOk, bodyLength);
      case DoDelete(t) =>
        if DeleteError(d, t).None? {
          StatusKeeps(d, t, d.threads[t].(deleted := true));
        }
      case DoComplete(t, generated) =>
        if CompleteError(d, around, t, generated).None? {
          StatusKeeps(d, t, d.threads[t].(completed := true));
        }
      case DoSweep(now, within) => SweepKeeps(d, around, now, within);
    }
  }

  // ---- Counting ------------------------------------------------------------------------

  function CountNotices(log: seq<Event>, t: nat, user: nat, kind: Kind): nat {
    if log == [] then 0
    else CountNotices(log[..|log| - 1], t, user, kind) + if log[|log| - 1] == Notice(t, user, kind) then 1 else 0
  }

  function CountRounds(log: seq<Event>, t: nat): nat {
    if log == [] then 0
    else CountRounds(log[..|log| - 1], t) + if log[|log| - 1] == Message(t, Admin) then 1 else 0
  }

  lemma OncePerRoundPrefix(log: seq<Event>)
    requires OncePerRound(log) && log != []
    ensures OncePerRound(log[..|log| - 1])
  {
    var front := log[..|log| - 1];
    forall i, j | 0 <= i < j < |front| && Clash(front[i], front[j])
      ensures RoundStartsBetween(front, front[j].thread, i, j)
    {
      var k :| 0 <= k && i < k < j && log[k] == Message(log[j].thread, Admin);
      assert front[k] == log[k];
    }
    forall j | 0 <= j < |front| && front[j].Notice?
      ensures RoundStartsBetween(front, front[j].thread, -1, j)
    {
      var k :| 0 <= k && -1 < k < j && log[k] == Message(log[j].thread, Admin);
      assert front[k] == log[k];
    }
  }

  /** This very notice is absent from the thread's current round. */
  ghost predicate NotYet(log: seq<Event>, t: nat, user: nat, kind: Kind) {
    forall i :: 0 <= i < |log| && log[i] == Notice(t, user, kind) ==> RoundStartsBetween(log, t, i, |log|)
  }

  lemma NotYetBefore(log: seq<Event>, t: nat, user: nat, kind: Kind)
    requires log != [] && log[|log| - 1] != Message(t, Admin) && NotYet(log, t, user, kind)
    ensures NotYet(log[..|log| - 1], t, user, kind)
  {
    var front := log[..|log| - 1];
    forall i | 0 <= i < |front| && front[i] == Notice(t, user, kind)
      ensures RoundStartsBetween(front, t, i, |front|)
    {
      assert log[i] == front[i];
      var k :| 0 <= k && i < k < |log| && log[k] == Message(t, Admin);
      assert front[k] == log[k];
    }
  }

  lemma NotYetAtNotice(log: seq<Event>, t: nat, user: nat, kind: Kind)
    requires OncePerRound(log) && log != [] && log[|log| - 1] == Notice(t, user, kind)
    ensures NotYet(log[..|log| - 1], t, user, kind)
    ensures RoundStartsBetween(log[..|log| - 1], t, -1, |log| - 1)
  {
    var front, last := log[..|log| - 1], |log| - 1;
    forall i | 0 <= i < |front| && front[i] == Notice(t, user, kind)
      ensures RoundStartsBetween(front, t, i, |front|)
    {
      assert Clash(log[i], log[last]);
      var k :| 0 <= k && i < k < last && log[k] == Message(t, Admin);
      assert front[k] == log[k];
    }
    assert log[last].Notice?;
    var k :| 0 <= k && -1 < k < last && log[k] == Message(t, Admin);
    assert front[k] == log[k];
  }

  lemma {:induction false} RoundsCounted(log: seq<Event>, t: nat)
    requires RoundStartsBetween(log, t, -1, |log|)
    ensures CountRounds(log, t) > 0
  {
    var k :| 0 <= k && -1 < k < |log| && log[k] == Message(t, Admin);
    if k < |log| - 1 {
      assert log[..|log| - 1][k] == log[k];
      RoundsCounted(log[..|log| - 1], t);
    }
  }

  lemma {:induction false} NoticesWithinRounds(log: seq<Event>, t: nat, user: nat, kind: Kind)
    requires OncePerRound(log)
    ensures CountNotices(log, t, user, kind) <= CountRounds(log, t)
    ensures NotYet(log, t, user, kind) && CountRounds(log, t) > 0 ==>
      CountNotices(log, t, user, kind) < CountRounds(log, t)
  {
    if log != [] {
      var front, last := log[..|log| - 1], log[|log| - 1];
      OncePerRoundPrefix(log);
      NoticesWithinRounds(front, t, user, kind);
      if last == Notice(t, user, kind) {
        NotYetAtNotice(log, t, user, kind);
        RoundsCounted(front, t);
        assert log[|log| - 1] == Notice(t, user, kind);
      } else if last != Message(t, Admin) && NotYet(log, t, user, kind) {
        NotYetBefore(log, t, user, kind);
      }
    }
  }

  /** In every run a user never has more missed, nor more approaching, notices
      on a thread than the thread has Builder messages. */
  lemma NeverDoubleFires(steps: seq<(Around, Step)>, t: nat, user: nat, kind: Kind)
    ensures CountNotices(Run(steps).log, t, user, kind) <= CountRounds(Run(steps).log, t)
  {
    EveryRunKeeps(steps);
    NoticesWithinRounds(Run(steps).log, t, user, kind);
  }

  /** In every run an approaching notice after a missed one belongs to a later
      round, whoever the two users are. */
  lemma ApproachingNeverFollowsMissed(steps: seq<(Around, Step)>, i: nat, j: nat)
    requires i < j < |Run(steps).log|
    requires Run(steps).log[i].Notice? && Run(steps).log[i].kind.Missed?
    requires Run(steps).log[j].Notice? && Run(steps).log[j].kind.Approaching?
    requires Run(steps).log[i].thread == Run(steps).log[j].thread
    ensures RoundStartsBetween(Run(steps).log, Run(steps).log[j].thread, i, j)
  {
    EveryRunKeeps(steps);
    assert Clash(Run(steps).log[i], Run(steps).log[j]);
  }

  // ---- What one sweep does -----------------------------------------------------------------

  lemma SelectedNone<T>(s: seq<T>, p: T -> bool)
    requires forall i :: 0 <= i < |s| ==> !p(s[i])
    ensures Selected(s, p) == []
  {
  }

  /** The notices a sweep owes: to every active admin when a deadline has passed,
      to every active analyst when it is near; each once a round, and none for
      a thread that is finished or hidden or whose scenario is cancelled. */
  predicate IsDue(d: Desk, around: Around, now: int, within: int, e: Event) {
    && e.Notice? && e.thread < |d.threads| && e.user < |around.users| && around.users[e.user].active
    && var t := d.threads[e.thread];
       && !t.completed && !t.deleted && t.scenario !in around.cancelled && t.deadline.Some? && !t.overdueNotified
       && match e.kind
          case Missed => around.users[e.user].role.Admin? && t.deadline.value <= now
          case Approaching =>
            around.users[e.user].role.Analyst? && !t.approachingNotified && now < t.deadline.value <= now + within
  }

  /** What a sweep leaves of a thread. */
  predicate IsSwept(around: Around, now: int, within: int, t: Thread, u: Thread) {
    if t.completed || t.deleted || t.scenario in around.cancelled || t.deadline.None? || t.overdueNotified then u == t
    else if t.deadline.value <= now then u == t.(overdueNotified := true)
    else if t.deadline.value <= now + within then u == t.(approachingNotified := true)
    else u == t
  }

  lemma SelectedIff<T>(s: seq<T>, p: T -> bool, k: nat)
    ensures k in Selected(s, p) <==> k < |s| && p(s[k])
  {
  }

  lemma DueIff(d: Desk, around: Around, now: int, within: int, e: Event)
    requires e.Notice?
    ensures (e.thread in Overdue(d, around, now) && e.user in Recipients(around, Admin) && e.kind == Missed)
         || (e.thread in NearlyDue(d, around, now, within) && e.user in Recipients(around, Analyst) && e.kind == Approaching)
       <==> IsDue(d, around, now, within, e)
  {
    SelectedIff(d.threads, (t: Thread) => IsOverdue(around, now, t), e.thread);
    SelectedIff(d.threads, (t: Thread) => IsApproaching(around, now, within, t), e.thread);
    SelectedIff(around.users, (u: User) => u.role == Admin && u.active, e.user);
    SelectedIff(around.users, (u: User) => u.role == Analyst && u.active, e.user);
  }

  lemma SweepMarks(d: Desk, around: Around, now: int, within: int)
    ensures |Sweep(d, around, now, within).threads| == |d.threads|
    ensures forall t :: 0 <= t < |d.threads| ==> IsSwept(around, now, within, d.threads[t], Sweep(d, around, now, within).threads[t])
  {
    var overdue, nearlyDue := Overdue(d, around, now), NearlyDue(d, around, now, within);
    var mid := NotifyAll(d, overdue, Recipients(around, Admin), Missed);
    NotifyAllMarks(d, overdue, Recipients(around, Admin), Missed);
    NotifyAllMarks(mid, nearlyDue, Recipients(around, Analyst), Approaching);
    forall t: nat | t < |d.threads|
      ensures IsSwept(around, now, within, d.threads[t], Sweep(d, around, now, within).threads[t])
    {
      SelectedIff(d.threads, (t: Thread) => IsOverdue(around, now, t), t);
      SelectedIff(d.threads, (t: Thread) => IsApproaching(around, now, within, t), t);
    }
  }

  lemma SuffixTwice(a: seq<Event>, b: seq<Event>, c: seq<Event>)
    requires |a| <= |b| <= |c| && a == b[..|a|] && b == c[..|b|]
    ensures a == c[..|a|] && c[|a|..] == b[|a|..] + c[|b|..]
  {
  }

  /** A sweep writes exactly the notices due, and nothing else. */
  lemma SweepWritesWhatIsDue(d: Desk, around: Around, now: int, within: int)
    ensures var r := Sweep(d, around, now, within);
            && |r.log| >= |d.log| && r.log[..|d.log|] == d.log
            && forall e :: e in r.log[|d.log|..] <==> IsDue(d, around, now, within, e)
  {
    var overdue, nearlyDue := Overdue(d, around, now), NearlyDue(d, around, now, within);
    var mid := NotifyAll(d, overdue, Recipients(around, Admin), Missed);
    var r := Sweep(d, around, now, within);
    NotifyAllMarks(d, overdue, Recipients(around, Admin), Missed);
    NotifyAllMarks(mid, nearlyDue, Recipients(around, Analyst), Approaching);
    SuffixTwice(d.log, mid.log, r.log);
    forall e ensures e in r.log[|d.log|..] <==> IsDue(d, around, now, within, e) {
      if e.Notice? {
        DueIff(d, around, now, within, e);
      }
    }
  }

  lemma SweptIsQuiet(around: Around, now: int, within: int, t: Thread, u: Thread)
    requires IsSwept(around, now, within, t, u)
    ensures !IsOverdue(around, now, u) && !IsApproaching(around, now, within, u)
  {
  }

  /** Sweeping again at the same instant changes nothing. */
  lemma ResweepAddsNothing(d: Desk, around: Around, now: int, within: int)
    ensures var r := Sweep(d, around, now, within); Sweep(r, around, now, within) == r
  {
    var r := Sweep(d, around, now, within);
    SweepMarks(d, around, now, within);
    forall t: nat | t < |r.threads|
      ensures !IsOverdue(around, now, r.threads[t]) && !IsApproaching(around, now, within, r.threads[t])
    {
      SweptIsQuiet(around, now, within, d.threads[t], r.threads[t]);
    }
    SelectedNone(r.threads, (t: Thread) => IsOverdue(around, now, t));
    SelectedNone(r.threads, (t: Thread) => IsApproaching(around, now, within, t));
  }

  // ---- Whose turn it is --------------------------------------------------------------------

  predicate BuilderSpokeLast(d: Desk, t: nat)
    requires t < |d.threads|
  {
    d.threads[t].deadline.Some? <==> LatestSender(d.log, t) == Some(Admin)
  }

  lemma {:induction false} LatestAfterNotices(log: seq<Event>, more: seq<Event>, t: nat)
    requires forall e :: e in more ==> e.Notice?
    ensures LatestSender(log + more, t) == LatestSender(log, t)
  {
    if more == [] {
      assert log + more == log;
    } else {
      assert (log + more)[..|log + more| - 1] == log + more[..|more| - 1];
      assert more[|more| - 1] in more;
      LatestAfterNotices(log, more[..|more| - 1], t);
    }
  }

  lemma {:induction false} NoMessageYet(log: seq<Event>, t: nat)
    requires forall i :: 0 <= i < |log| ==> log[i].thread != t
    ensures LatestSender(log, t).None?
  {
    if log != [] {
      NoMessageYet(log[..|log| - 1], t);
    }
  }

  lemma SweepKeepsTurn(d: Desk, around: Around, now: int, within: int, t: nat)
    requires t < |d.threads| && BuilderSpokeLast(d, t)
    ensures |Sweep(d, around, now, within).threads| == |d.threads|
    ensures BuilderSpokeLast(Sweep(d, around, now, within), t)
  {
    var r := Sweep(d, around, now, within);
    SweepMarks(d, around, now, within);
    SweepWritesWhatIsDue(d, around, now, within);
    assert r.log == d.log + r.log[|d.log|..];
    LatestAfterNotices(d.log, r.log[|d.log|..], t);
  }

  lemma SendKeepsTurn(d: Desk, step: Step, t: nat)
    requires t < |d.threads| && BuilderSpokeLast(d, t) && step.DoSend?
    ensures var r := Next(d, Around([], {}), step); |r.threads| == |d.threads| && BuilderSpokeLast(r, t)
  {
    var r := Next(d, Around([], {}), step);
    if r != d {
      assert r.log[..|r.log| - 1] == d.log;
    }
  }

  lemma NewThreadIsSilent(d: Desk, around: Around, step: Step, t: nat)
    requires InRange(d) && |d.threads| <= t < |Next(d, around, step).threads|
    ensures BuilderSpokeLast(Next(d, around, step), t)
  {
    NoMessageYet(d.log, t);
    if step.DoSweep? {
      SweepMarks(d, around, step.now, step.within);
    }
  }

  /** In every run a thread carries a deadline exactly while the Builder spoke last. */
  lemma {:induction false} DeadlineIffBuilderSpokeLast(steps: seq<(Around, Step)>, t: nat)
    requires t < |Run(steps).threads|
    ensures BuilderSpokeLast(Run(steps), t)
  {
    if steps != [] {
      var d, around, step := Run(steps[..|steps| - 1]), steps[|steps| - 1].0, steps[|steps| - 1].1;
      if t < |d.threads| {
        DeadlineIffBuilderSpokeLast(steps[..|steps| - 1], t);
        if step.DoSweep? {
          SweepKeepsTurn(d, around, step.now, step.within, t);
        } else if step.DoSend? {
          SendKeepsTurn(d, step, t);
        }
      } else {
        EveryRunKeeps(steps[..|steps| - 1]);
        NewThreadIsSilent(d, around, step, t);
      }
    }
  }

  // ---- Which calls are accepted ------------------------------------------------------------------

  /** A message is taken on a live, open thread, up to 10000 characters long, and
      adds itself to the log; a call that is not accepted leaves everything as it was. */
  lemma SendAcceptedIff(d: Desk, t: nat, role: Role, now: int, days: int, attachmentOk: bool, bodyLength: nat)
    ensures var r := Send(d, t, role, now, days, attachmentOk, bodyLength);
            if t < |d.threads| && !d.threads[t].deleted && !d.threads[t].completed && attachmentOk && bodyLength <= 10_000
            then r.log == d.log + [Message(t, role)] && |r.threads| == |d.threads|
                 && !r.threads[t].approachingNotified && !r.threads[t].overdueNotified
                 && forall u :: 0 <= u < |d.threads| && u != t ==> r.threads[u] == d.threads[u]
            else r == d
  {
  }

  /** A thread is completed, and only marked so, when it is live and open, the
      Analyst spoke last, its scenario stands and the evaluation was generated. */
  lemma CompletedIff(d: Desk, around: Around, t: nat, generated: bool)
    ensures var r := Complete(d, around, t, generated);
            if t < |d.threads| && !d.threads[t].deleted && !d.threads[t].completed && LatestSender(d.log, t) == Some(Analyst)
               && d.threads[t].scenario !in around.cancelled && generated
            then r == d.(threads := d.threads[t := d.threads[t].(completed := true)])
            else r == d
  {
  }

  /** Opening twice opens once: the pair has exactly one live thread afterwards,
      the one it had or a new, empty one, and no other thread is touched. */
  lemma OpenedOnce(d: Desk, scenario: nat, persona: nat) returns (t: nat)
    requires OneLivePerPersona(d.threads)
    ensures var r := OpenThread(d, scenario, persona);
            && t < |r.threads| && IsFor(scenario, persona, r.threads[t])
            && (forall u :: 0 <= u < |r.threads| && IsFor(scenario, persona, r.threads[u]) ==> u == t)
            && r.log == d.log && OpenThread(r, scenario, persona) == r
            && if t < |d.threads| then r == d
               else r.threads == d.threads + [r.threads[t]] && r.threads[t].deadline.None? && !r.threads[t].completed
  {
    var r := OpenThread(d, scenario, persona);
    if exists k :: 0 <= k < |d.threads| && IsFor(scenario, persona, d.threads[k]) {
      t :| 0 <= t < |d.threads| && IsFor(scenario, persona, d.threads[t]);
    } else {
      t := |d.threads|;
      assert IsFor(scenario, persona, r.threads[t]);
    }
  }

  /** A thread is hidden, and only hidden, when it is live and not completed. */
  lemma DeletedIff(d: Desk, t: nat)
    ensures Delete(d, t) == if t < |d.threads| && !d.threads[t].deleted && !d.threads[t].completed
                            then d.(threads := d.threads[t := d.threads[t].(deleted := true)])
                            else d
  {
  }

  // ---- How long the reply window is --------------------------------------------------------------

  /** The deadline the thread's last accepted message set: none after an
      Analyst's, so many days of 24 hours after a Builder's. */
  function LastWindow(steps: seq<(Around, Step)>, t: nat): Option<int> {
    if steps == [] then None
    else
      var front, step := steps[..|steps| - 1], steps[|steps| - 1].1;
      if step.DoSend? && step.thread == t && |Run(steps).log| > |Run(front).log| then
        if step.role.Analyst? then None else Some(step.now + step.days * 24 * 60 * 60)
      else LastWindow(front, t)
  }

  lemma StepKeepsDeadline(d: Desk, around: Around, step: Step, t: nat)
    requires t < |d.threads| && !(step.DoSend? && step.thread == t)
    ensures t < |Next(d, around, step).threads| && Next(d, around, step).threads[t].deadline == d.threads[t].deadline
  {
    if step.DoSweep? {
      SweepMarks(d, around, step.now, step.within);
      assert IsSwept(around, step.now, step.within, d.threads[t], Next(d, around, step).threads[t]);
    }
  }

  lemma SendSetsDeadline(d: Desk, around: Around, step: Step, t: nat)
    requires t < |d.threads| && step.DoSend? && step.thread == t
    ensures var r := Next(d, around, step);
            && |r.threads| == |d.threads|
            && r.threads[t].deadline ==
               (if |r.log| <= |d.log| then d.threads[t].deadline
                else if step.role.Analyst? then None else Some(step.now + step.days * 24 * 60 * 60))
  {
  }

  lemma NoThreadNoDeadline(d: Desk, around: Around, step: Step, t: nat)
    requires t >= |d.threads|
    ensures var r := Next(d, around, step);
            && (t < |r.threads| ==> r.threads[t].deadline.None?)
            && (step.DoSend? && step.thread == t ==> r == d)
  {
    if step.DoSweep? {
      SweepMarks(d, around, step.now, step.within);
    }
  }

  /** In every run a thread's deadline is the window of its last accepted message. */
  lemma {:induction false} DeadlineIsLastWindow(steps: seq<(Around, Step)>, t: nat)
    ensures t < |Run(steps).threads| ==> Run(steps).threads[t].deadline == LastWindow(steps, t)
    ensures t >= |Run(steps).threads| ==> LastWindow(steps, t).None?
  {
    if steps != [] {
      var front, around, step := steps[..|steps| - 1], steps[|steps| - 1].0, steps[|steps| - 1].1;
      DeadlineIsLastWindow(front, t);
      if t >= |Run(front).threads| {
        NoThreadNoDeadline(Run(front), around, step, t);
      } else if step.DoSend? && step.thread == t {
        SendSetsDeadline(Run(front), around, step, t);
      } else {
        StepKeepsDeadline(Run(front), around, step, t);
      }
    }
  }

  // ---- Completed threads -------------------------------------------------------------------

  predicate HasCompleted(d: Desk, scenario: nat) {
    exists t :: 0 <= t < |d.threads| && d.threads[t].completed && d.threads[t].scenario == scenario
  }

  /** No later step reopens, hides or moves a completed thread. */
  lemma CompletedStays(d: Desk, around: Around, step: Step, t: nat)
    requires t < |d.threads| && d.threads[t].completed
    ensures var r := Next(d, around, step);
            && t < |r.threads| && r.threads[t].completed
            && r.threads[t].scenario == d.threads[t].scenario && r.threads[t].deleted == d.threads[t].deleted
  {
    if step.DoSweep? {
      SweepMarks(d, around, step.now, step.within);
    }
  }
}
