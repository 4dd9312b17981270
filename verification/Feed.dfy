/** The notification feed (backend/app/services/notifications.py): a limited
    query, unread replies put in front, two stable sorts and a second limit. */
module Feed {

  datatype Item = Item(id: nat, isReply: bool, isRead: bool, at: int)

  type Order = (Item, Item) -> bool

  /** `less(a, b)`: a must stand before b. */
  const NEWER: Order := (a: Item, b: Item) => a.at > b.at
  const UNREAD_FIRST: Order := (a: Item, b: Item) => !a.isRead && b.isRead
  const AHEAD: Order := (a: Item, b: Item) => UNREAD_FIRST(a, b) || (a.isRead == b.isRead && NEWER(a, b))

  /** Before the first element that x need not follow: equals keep their order. */
  function Insert(x: Item, s: seq<Item>, less: Order): (r: seq<Item>)
    ensures |r| == |s| + 1
  {
    if s == [] then [x]
    else if less(s[0], x) then [s[0]] + Insert(x, s[1..], less)
    else [x] + s
  }

  /** Python's stable sort. */
  function StableSort(s: seq<Item>, less: Order): (r: seq<Item>)
    ensures |r| == |s|
  {
    if s == [] then [] else Insert(s[0], StableSort(s[1..], less), less)
  }

  function Take(s: seq<Item>, limit: nat): (r: seq<Item>)
    ensures |r| == if |s| < limit then |s| else limit
  {
    if |s| < limit then s else s[..limit]
  }

  predicate InOrder(s: seq<Item>, less: Order) {
    forall i, j :: 0 <= i < j < |s| ==> !less(s[j], s[i])
  }

  /** Unread items first, and among items of one read state the newest first. */
  predicate UnreadNewestFirst(s: seq<Item>) {
    forall i, j :: 0 <= i < j < |s| ==>
      && (s[i].isRead ==> s[j].isRead)
      && (s[i].isRead == s[j].isRead ==> s[i].at >= s[j].at)
  }

  /** Nothing dropped should have come before something shown: no unread item
      behind a read one, no newer one behind an older of the same read state. */
  predicate DropsOnlyLesser(feed: seq<Item>, all: seq<Item>) {
    forall shown, dropped :: shown in feed && dropped in all && dropped !in feed ==>
      && !(shown.isRead && !dropped.isRead)
      && (shown.isRead == dropped.isRead ==> shown.at >= dropped.at)
  }

  /** Everything there is to show, sorted once by (unread first, newest first) and cut once. */
  function IdealFeed(replies: seq<Item>, notifications: seq<Item>, limit: nat): seq<Item> {
    Take(StableSort(replies + notifications, AHEAD), limit)
  }

  /** The service's statements. `notifications` is the whole query result in its
      ORDER BY; the LIMIT comes first. */
  method ListNotificationFeed(replies: seq<Item>, notifications: seq<Item>, limit: nat) returns (feed: seq<Item>)
    requires UnreadNewestFirst(notifications)
    ensures feed == IdealFeed(replies, notifications, limit)
    ensures UnreadNewestFirst(feed) && DropsOnlyLesser(feed, replies + notifications)
  {
    var items := replies + Take(notifications, limit);
    items := StableSort(items, NEWER);
    items := StableSort(items, UNREAD_FIRST);
    feed := Take(items, limit);
    TwoPassesAreOne(replies + Take(notifications, limit));
    LimitFirst(replies, notifications, limit);
    FeedIsOrdered(replies, notifications, limit);
  }

  // ---- What a stable sort is ------------------------------------------------------------

  lemma {:induction false} InsertIsPermutation(x: Item, s: seq<Item>, less: Order)
    ensures multiset(Insert(x, s, less)) == multiset(s) + multiset{x}
  {
    if s != [] && less(s[0], x) {
      InsertIsPermutation(x, s[1..], less);
      assert s == [s[0]] + s[1..];
    }
  }

  lemma {:induction false} SortIsPermutation(s: seq<Item>, less: Order)
    ensures multiset(StableSort(s, less)) == multiset(s)
  {
    if s != [] {
      SortIsPermutation(s[1..], less);
      InsertIsPermutation(s[0], StableSort(s[1..], less), less);
      assert s == [s[0]] + s[1..];
    }
  }

  lemma {:induction false} InsertMembers(x: Item, s: seq<Item>, less: Order)
    ensures forall i :: 0 <= i < |Insert(x, s, less)| ==> Insert(x, s, less)[i] == x || Insert(x, s, less)[i] in s
  {
    if s != [] && less(s[0], x) {
      InsertMembers(x, s[1..], less);
    }
  }

  lemma {:induction false} InsertInOrder(x: Item, s: seq<Item>, less: Order)
    requires less == AHEAD || less == NEWER
    requires InOrder(s, less)
    ensures InOrder(Insert(x, s, less), less)
  {
    if s != [] && less(s[0], x) {
      InsertInOrder(x, s[1..], less);
      InsertMembers(x, s[1..], less);
    }
  }

  lemma {:induction false} SortInOrder(s: seq<Item>, less: Order)
    requires less == AHEAD || less == NEWER
    ensures InOrder(StableSort(s, less), less)
  {
    if s != [] {
      SortInOrder(s[1..], less);
      InsertInOrder(s[0], StableSort(s[1..], less), less);
    }
  }

  /** An order already held is left alone: the sort is stable. */
  lemma {:induction false} SortedStays(s: seq<Item>, less: Order)
    requires InOrder(s, less)
    ensures StableSort(s, less) == s
  {
    if s != [] {
      SortedStays(s[1..], less);
      if |s| > 1 {
        assert !less(s[1], s[0]);
      }
    }
  }

  /** The items that neither precede nor follow x, in the order given. */
  function Tied(s: seq<Item>, x: Item): seq<Item> {
    if s == [] then []
    else if s[0].isRead == x.isRead && s[0].at == x.at then [s[0]] + Tied(s[1..], x)
    else Tied(s[1..], x)
  }

  lemma {:induction false} InsertTied(y: Item, s: seq<Item>, x: Item)
    ensures Tied(Insert(y, s, AHEAD), x) == Tied([y] + s, x)
  {
    assert ([y] + s)[1..] == s;
    if s != [] && AHEAD(s[0], y) {
      InsertTied(y, s[1..], x);
      assert ([y] + s[1..])[1..] == s[1..];
      assert ([s[0]] + Insert(y, s[1..], AHEAD))[1..] == Insert(y, s[1..], AHEAD);
    }
  }

  /** Items that tie come out in the order they went in. */
  lemma {:induction false} SortIsStable(s: seq<Item>, x: Item)
    ensures Tied(StableSort(s, AHEAD), x) == Tied(s, x)
  {
    if s != [] {
      SortIsStable(s[1..], x);
      InsertTied(s[0], StableSort(s[1..], AHEAD), x);
      assert ([s[0]] + StableSort(s[1..], AHEAD))[1..] == StableSort(s[1..], AHEAD);
    }
  }

  // ---- Two passes are one sort ------------------------------------------------------------

  /** The items with this read state, in the order given. */
  function Having(s: seq<Item>, isRead: bool): seq<Item> {
    if s == [] then []
    else if s[0].isRead == isRead then [s[0]] + Having(s[1..], isRead)
    else Having(s[1..], isRead)
  }

  lemma HavingAll(s: seq<Item>, isRead: bool)
    ensures forall i :: 0 <= i < |Having(s, isRead)| ==> Having(s, isRead)[i].isRead == isRead && Having(s, isRead)[i] in s
  {
  }

  /** An unread item goes in front of all read ones. */
  lemma {:induction false} InsertUnread(x: Item, unread: seq<Item>, read: seq<Item>)
    requires !x.isRead
    requires forall i :: 0 <= i < |unread| ==> !unread[i].isRead
    requires forall i :: 0 <= i < |read| ==> read[i].isRead
    ensures Insert(x, unread + read, UNREAD_FIRST) == [x] + unread + read
    ensures Insert(x, unread + read, AHEAD) == Insert(x, unread, NEWER) + read
  {
    if unread == [] {
      assert unread + read == read;
    } else {
      InsertUnread(x, unread[1..], read);
      assert (unread + read)[1..] == unread[1..] + read;
    }
  }

  lemma {:induction false} InsertRead(x: Item, unread: seq<Item>, read: seq<Item>)
    requires x.isRead
    requires forall i :: 0 <= i < |unread| ==> !unread[i].isRead
    requires forall i :: 0 <= i < |read| ==> read[i].isRead
    ensures Insert(x, unread + read, UNREAD_FIRST) == unread + [x] + read
    ensures Insert(x, unread + read, AHEAD) == unread + Insert(x, read, NEWER)
  {
    if unread == [] {
      assert unread + read == read;
      InsertSameClass(x, read);
    } else {
      InsertRead(x, unread[1..], read);
      assert (unread + read)[1..] == unread[1..] + read;
    }
  }

  lemma {:induction false} InsertSameClass(x: Item, s: seq<Item>)
    requires forall i :: 0 <= i < |s| ==> s[i].isRead == x.isRead
    ensures Insert(x, s, AHEAD) == Insert(x, s, NEWER)
    ensures Insert(x, s, UNREAD_FIRST) == [x] + s
  {
    if s != [] {
      InsertSameClass(x, s[1..]);
    }
  }

  lemma {:induction false} UnreadFirstPartitions(s: seq<Item>)
    ensures StableSort(s, UNREAD_FIRST) == Having(s, false) + Having(s, true)
  {
    if s != [] {
      UnreadFirstPartitions(s[1..]);
      var unread, read := Having(s[1..], false), Having(s[1..], true);
      HavingAll(s[1..], false);
      HavingAll(s[1..], true);
      if s[0].isRead {
        InsertRead(s[0], unread, read);
      } else {
        InsertUnread(s[0], unread, read);
      }
    }
  }

  /** Nothing newer than x follows: x is inserted in front of every selection. */
  lemma InsertAtFront(x: Item, s: seq<Item>, isRead: bool)
    requires forall i :: 0 <= i < |s| ==> !NEWER(s[i], x)
    ensures Insert(x, Having(s, isRead), NEWER) == [x] + Having(s, isRead)
  {
    HavingAll(s, isRead);
  }

  lemma InsertPast(x: Item, first: Item, rest: seq<Item>, less: Order)
    requires less(first, x)
    ensures Insert(x, [first] + rest, less) == [first] + Insert(x, rest, less)
  {
    assert ([first] + rest)[1..] == rest;
  }

  lemma HavingPast(first: Item, rest: seq<Item>, isRead: bool)
    ensures Having([first] + rest, isRead) == (if first.isRead == isRead then [first] else []) + Having(rest, isRead)
  {
    assert ([first] + rest)[1..] == rest;
  }

  lemma {:induction false} InsertThenHaving(x: Item, s: seq<Item>, isRead: bool)
    requires InOrder(s, NEWER)
    ensures Having(Insert(x, s, NEWER), isRead) ==
            if x.isRead == isRead then Insert(x, Having(s, isRead), NEWER) else Having(s, isRead)
  {
    if s == [] {
    } else if NEWER(s[0], x) {
      InsertThenHaving(x, s[1..], isRead);
      InsertPast(x, s[0], Having(s[1..], isRead), NEWER);
      HavingPast(s[0], Insert(x, s[1..], NEWER), isRead);
    } else {
      InsertAtFront(x, s, isRead);
      HavingPast(x, s, isRead);
    }
  }

  lemma {:induction false} SortThenHaving(s: seq<Item>, isRead: bool)
    ensures Having(StableSort(s, NEWER), isRead) == StableSort(Having(s, isRead), NEWER)
  {
    if s != [] {
      SortThenHaving(s[1..], isRead);
      SortInOrder(s[1..], NEWER);
      InsertThenHaving(s[0], StableSort(s[1..], NEWER), isRead);
      if s[0].isRead == isRead {
        assert Having(s, isRead)[1..] == Having(s[1..], isRead);
      }
    }
  }

  lemma {:induction false} AheadPartitions(s: seq<Item>)
    ensures StableSort(s, AHEAD) == StableSort(Having(s, false), NEWER) + StableSort(Having(s, true), NEWER)
  {
    if s != [] {
      AheadPartitions(s[1..]);
      var unread, read := StableSort(Having(s[1..], false), NEWER), StableSort(Having(s[1..], true), NEWER);
      HavingAll(s[1..], false);
      HavingAll(s[1..], true);
      SortKeepsClass(Having(s[1..], false), false);
      SortKeepsClass(Having(s[1..], true), true);
      assert Having(s, s[0].isRead)[1..] == Having(s[1..], s[0].isRead);
      if s[0].isRead {
        InsertRead(s[0], unread, read);
      } else {
        InsertUnread(s[0], unread, read);
      }
    }
  }

  lemma SortKeepsClass(s: seq<Item>, isRead: bool)
    requires forall i :: 0 <= i < |s| ==> s[i].isRead == isRead
    ensures forall i :: 0 <= i < |s| ==> StableSort(s, NEWER)[i].isRead == isRead
  {
    SortIsPermutation(s, NEWER);
    var r := StableSort(s, NEWER);
    forall i | 0 <= i < |r| ensures r[i].isRead == isRead {
      assert r[i] in multiset(r);
      assert r[i] in s;
    }
  }

  /** Sorting by time and then by read state is one sort by (unread first, newest first). */
  lemma TwoPassesAreOne(s: seq<Item>)
    ensures StableSort(StableSort(s, NEWER), UNREAD_FIRST) == StableSort(s, AHEAD)
  {
    UnreadFirstPartitions(StableSort(s, NEWER));
    SortThenHaving(s, false);
    SortThenHaving(s, true);
    AheadPartitions(s);
  }

  // ---- Limiting first loses nothing ---------------------------------------------------------

  lemma {:induction false} TakeInsert(x: Item, s: seq<Item>, limit: nat, less: Order)
    ensures Take(Insert(x, s, less), limit) == Take(Insert(x, Take(s, limit), less), limit)
  {
    if limit > 0 && s != [] && less(s[0], x) {
      TakeInsert(x, s[1..], limit - 1, less);
      assert Take(s, limit)[1..] == Take(s[1..], limit - 1);
    }
  }

  lemma SortFrom(s: seq<Item>, more: seq<Item>)
    requires s != []
    ensures StableSort(s + more, AHEAD) == Insert(s[0], StableSort(s[1..] + more, AHEAD), AHEAD)
  {
    assert (s + more)[1..] == s[1..] + more;
  }

  lemma InsertBothSides(x: Item, s: seq<Item>, t: seq<Item>, limit: nat)
    requires Take(s, limit) == Take(t, limit)
    ensures Take(Insert(x, s, AHEAD), limit) == Take(Insert(x, t, AHEAD), limit)
  {
    TakeInsert(x, s, limit, AHEAD);
    TakeInsert(x, t, limit, AHEAD);
  }

  lemma {:induction false} SameHeadSameFeed(replies: seq<Item>, s: seq<Item>, t: seq<Item>, limit: nat)
    requires InOrder(s, AHEAD) && InOrder(t, AHEAD) && Take(s, limit) == Take(t, limit)
    ensures Take(StableSort(replies + s, AHEAD), limit) == Take(StableSort(replies + t, AHEAD), limit)
  {
    if replies == [] {
      assert replies + s == s && replies + t == t;
      SortedStays(s, AHEAD);
      SortedStays(t, AHEAD);
    } else {
      SameHeadSameFeed(replies[1..], s, t, limit);
      SortFrom(replies, s);
      SortFrom(replies, t);
      InsertBothSides(replies[0], StableSort(replies[1..] + s, AHEAD), StableSort(replies[1..] + t, AHEAD), limit);
    }
  }

  /** Cutting the sorted notifications before the replies join changes nothing. */
  lemma LimitFirst(replies: seq<Item>, notifications: seq<Item>, limit: nat)
    requires UnreadNewestFirst(notifications)
    ensures Take(StableSort(replies + Take(notifications, limit), AHEAD), limit) == IdealFeed(replies, notifications, limit)
  {
    OrderIsFields(notifications);
    SameHeadSameFeed(replies, notifications, Take(notifications, limit), limit);
  }

  // ---- What the reader sees ------------------------------------------------------------------

  /** The sort's order in terms of the items' own fields. */
  lemma OrderIsFields(s: seq<Item>)
    ensures InOrder(s, AHEAD) <==> UnreadNewestFirst(s)
  {
    if InOrder(s, AHEAD) {
      forall i, j | 0 <= i < j < |s|
        ensures (s[i].isRead ==> s[j].isRead) && (s[i].isRead == s[j].isRead ==> s[i].at >= s[j].at)
      {
        assert !AHEAD(s[j], s[i]);
      }
    }
  }

  /** No read item is shown while an unread one is dropped, no older item while
      a newer one of the same read state is, and nothing is invented; something
      is dropped only from a full feed. */
  lemma NothingHiddenBehindLesser(replies: seq<Item>, notifications: seq<Item>, limit: nat, shown: Item, dropped: Item)
    requires shown in IdealFeed(replies, notifications, limit)
    requires dropped in replies + notifications && dropped !in IdealFeed(replies, notifications, limit)
    ensures !(shown.isRead && !dropped.isRead)
    ensures shown.isRead == dropped.isRead ==> shown.at >= dropped.at
    ensures shown in replies + notifications
    ensures |IdealFeed(replies, notifications, limit)| == limit
  {
    var all := StableSort(replies + notifications, AHEAD);
    SortInOrder(replies + notifications, AHEAD);
    OrderIsFields(all);
    SortIsPermutation(replies + notifications, AHEAD);
    assert dropped in multiset(replies + notifications) && dropped in multiset(all);
    var i :| 0 <= i < |IdealFeed(replies, notifications, limit)| && IdealFeed(replies, notifications, limit)[i] == shown;
    var j :| 0 <= j < |all| && all[j] == dropped;
    assert all[i] == shown && all[i] in multiset(all);
    assert j >= limit;
  }

  lemma FeedIsOrdered(replies: seq<Item>, notifications: seq<Item>, limit: nat)
    ensures UnreadNewestFirst(IdealFeed(replies, notifications, limit))
    ensures DropsOnlyLesser(IdealFeed(replies, notifications, limit), replies + notifications)
  {
    SortInOrder(replies + notifications, AHEAD);
    OrderIsFields(StableSort(replies + notifications, AHEAD));
    var feed := IdealFeed(replies, notifications, limit);
    forall shown, dropped | shown in feed && dropped in replies + notifications && dropped !in feed
      ensures !(shown.isRead && !dropped.isRead)
      ensures shown.isRead == dropped.isRead ==> shown.at >= dropped.at
    {
      NothingHiddenBehindLesser(replies, notifications, limit, shown, dropped);
    }
  }

  /** When everything fits, the feed is everything. */
  lemma SmallFeedIsComplete(replies: seq<Item>, notifications: seq<Item>, limit: nat)
    requires |replies| + |notifications| <= limit
    ensures multiset(IdealFeed(replies, notifications, limit)) == multiset(replies) + multiset(notifications)
  {
    SortIsPermutation(replies + notifications, AHEAD);
    var all := StableSort(replies + notifications, AHEAD);
    assert all[..|all|] == all;
  }
}
