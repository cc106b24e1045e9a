/** The department head's notification page, src/pages/head/Notifications.js:
    notifications made up from the department's events and users, a
    fallback item when there is nothing, newest first, and the read flags
    the page keeps locally.  `now` stands for the current time of every
    `new Date()` in one load. */
module HeadNotifications {
  import opened Common

  /** The fields of a department event the page uses; `createdAt` is `None`
      when `created_at` is falsy. */
  datatype DeptEvent = DeptEvent(id: string, title: string, createdAt: Option<int>)

  /** The fields of a department user the page uses. */
  datatype DeptUser = DeptUser(id: string, fullName: string, createdAt: Option<int>)

  /** One entry of `Promise.allSettled`: fulfilled with a response whose
      `data` is a list or falsy (`None`), or rejected. */
  datatype Settled<T> = Fulfilled(data: Option<seq<T>>) | Rejected

  /** What an item talks about; its title and message are derived from
      it by `Title` and `Message`. */
  datatype ItemText = EventText(eventTitle: string) | UserText(fullName: string) | WelcomeText

  datatype HeadNotification = HeadNotification(id: string, kind: string, text: ItemText,
                                               createdAt: int, read: bool)

  /** The `title` each item is shown with. */
  function Title(t: ItemText): string {
    match t
    case EventText(title) => "New Event: " + title
    case UserText(name) => "User Activity: " + name
    case WelcomeText => "Welcome to Notifications"
  }

  /** The title tells the item's text: different texts never share a
      title. */
  lemma TitleInjective(t1: ItemText, t2: ItemText)
    ensures Title(t1) == Title(t2) ==> t1 == t2
  {
    if Title(t1) == Title(t2) {
      var p1 := TitlePrefix(t1);
      var p2 := TitlePrefix(t2);
      assert Title(t1)[0] == p1[0] && Title(t2)[0] == p2[0];
      assert p1 == p2;
      assert Title(t1)[|p1|..] == Title(t2)[|p2|..];
    }
  }

  /** The fixed start of each title. */
  function TitlePrefix(t: ItemText): string {
    match t
    case EventText(_) => "New Event: "
    case UserText(_) => "User Activity: "
    case WelcomeText => "Welcome to Notifications"
  }

  /** The `message` each item is shown with. */
  function Message(t: ItemText): string {
    match t
    case EventText(title) => "A new event \"" + title + "\" has been created in your department."
    case UserText(name) => name + " has recently joined your department."
    case WelcomeText => "This is where you will see updates about events and users in your department."
  }

  const MaxEventItems: nat := 5
  const MaxUserItems: nat := 3
  const FallbackId: string := "fallback-1"

  /** `status === 'fulfilled' && value.data ? value.data : []`
      (Notifications.js:24-27). */
  function Received<T>(r: Settled<T>): (xs: seq<T>)
    ensures r.Rejected? || r.data.None? ==> xs == []
    ensures r.Fulfilled? && r.data.Some? ==> xs == r.data.value
  {
    match r
    case Rejected => []
    case Fulfilled(d) => if d.Some? then d.value else []
  }

  /** `xs.slice(0, n)` */
  function Take<T>(xs: seq<T>, n: nat): (r: seq<T>)
    ensures |r| <= n && |r| <= |xs|
    ensures |xs| <= n ==> r == xs
    ensures n <= |xs| ==> |r| == n
    ensures forall i :: 0 <= i < |r| ==> r[i] == xs[i]
  {
    if |xs| <= n then xs else xs[..n]
  }

  function EventItem(e: DeptEvent, now: int): (n: HeadNotification)
    ensures n.id == "event-" + e.id && n.kind == "event" && !n.read
    ensures n.createdAt == if e.createdAt.Some? then e.createdAt.value else now
  {
    HeadNotification("event-" + e.id, "event", EventText(e.title),
                     if e.createdAt.Some? then e.createdAt.value else now, false)
  }

  function UserItem(u: DeptUser, now: int): (n: HeadNotification)
    ensures n.id == "user-" + u.id && n.kind == "user" && !n.read
    ensures n.createdAt == if u.createdAt.Some? then u.createdAt.value else now
  {
    HeadNotification("user-" + u.id, "user", UserText(u.fullName),
                     if u.createdAt.Some? then u.createdAt.value else now, false)
  }

  /** The single system notification used when there is nothing else
      (Notifications.js:61-70, 79-89). */
  function Fallback(now: int): (n: HeadNotification)
    ensures n.id == FallbackId && n.kind == "system" && !n.read && n.createdAt == now
  {
    HeadNotification(FallbackId, "system", WelcomeText, now, false)
  }

  function EventItems(es: seq<DeptEvent>, now: int): (r: seq<HeadNotification>)
    ensures |r| == |es| && forall i :: 0 <= i < |es| ==> r[i] == EventItem(es[i], now)
  {
    if es == [] then [] else [EventItem(es[0], now)] + EventItems(es[1..], now)
  }

  function UserItems(us: seq<DeptUser>, now: int): (r: seq<HeadNotification>)
    ensures |r| == |us| && forall i :: 0 <= i < |us| ==> r[i] == UserItem(us[i], now)
  {
    if us == [] then [] else [UserItem(us[0], now)] + UserItems(us[1..], now)
  }

  /** The list before sorting: an item for each of the first five events,
      then one for each of the first three users, or the fallback alone. */
  function Collected(events: seq<DeptEvent>, users: seq<DeptUser>, now: int): seq<HeadNotification> {
    var items := EventItems(Take(events, MaxEventItems), now) + UserItems(Take(users, MaxUserItems), now);
    if items == [] then [Fallback(now)] else items
  }

  // ---- newest first ------------------------------------------------------------

  /** Newest first: `createdAt` never increases along the list. */
  predicate NewestFirst(ns: seq<HeadNotification>) {
    forall i, j :: 0 <= i < j < |ns| ==> ns[i].createdAt >= ns[j].createdAt
  }

  /** Put `x` into a newest-first list after every item at least as new. */
  function Insert(x: HeadNotification, ns: seq<HeadNotification>): (r: seq<HeadNotification>)
    ensures multiset(r) == multiset(ns) + multiset{x}
    ensures |r| == |ns| + 1
  {
    if ns == [] then [x]
    else if ns[0].createdAt < x.createdAt then [x] + ns
    else
      assert ns == [ns[0]] + ns[1..];
      [ns[0]] + Insert(x, ns[1..])
  }

  /** `sort((a, b) => new Date(b.createdAt) - new Date(a.createdAt))`: a
      stable sort, newest first, written as insertion of each item in turn. */
  function SortNewestFirst(ns: seq<HeadNotification>): (r: seq<HeadNotification>)
    ensures multiset(r) == multiset(ns) && |r| == |ns|
  {
    if ns == [] then []
    else
      assert ns == ns[..|ns| - 1] + [ns[|ns| - 1]];
      Insert(ns[|ns| - 1], SortNewestFirst(ns[..|ns| - 1]))
  }

  lemma {:induction false} InsertKeepsOrder(x: HeadNotification, ns: seq<HeadNotification>)
    requires NewestFirst(ns)
    ensures NewestFirst(Insert(x, ns))
  {
    if ns != [] && ns[0].createdAt >= x.createdAt {
      InsertKeepsOrder(x, ns[1..]);
      var r := Insert(x, ns);
      var tail := Insert(x, ns[1..]);
      assert r == [ns[0]] + tail;
      forall k | 0 <= k < |tail| ensures ns[0].createdAt >= tail[k].createdAt {
        assert tail[k] in multiset(tail);
        assert tail[k] in multiset(ns[1..]) + multiset{x};
        if tail[k] != x {
          assert tail[k] in multiset(ns[1..]);
          var m :| 0 <= m < |ns[1..]| && ns[1..][m] == tail[k];
          assert ns[1..][m] == ns[m + 1];
        }
      }
    }
  }

  /** The sorted list is newest first and holds exactly the items given. */
  lemma {:induction false} SortNewestFirstCorrect(ns: seq<HeadNotification>)
    ensures NewestFirst(SortNewestFirst(ns))
    ensures multiset(SortNewestFirst(ns)) == multiset(ns)
  {
    if ns != [] {
      SortNewestFirstCorrect(ns[..|ns| - 1]);
      InsertKeepsOrder(ns[|ns| - 1], SortNewestFirst(ns[..|ns| - 1]));
    }
  }

  /** The items of `ns` created at `k`, in their order. */
  function WithKey(ns: seq<HeadNotification>, k: int): seq<HeadNotification> {
    if ns == [] then []
    else (if ns[0].createdAt == k then [ns[0]] else []) + WithKey(ns[1..], k)
  }

  lemma {:induction false} WithKeyAppend(a: seq<HeadNotification>, b: seq<HeadNotification>, k: int)
    ensures WithKey(a + b, k) == WithKey(a, k) + WithKey(b, k)
  {
    if a == [] {
      assert a + b == b;
    } else {
      assert (a + b)[1..] == a[1..] + b;
      WithKeyAppend(a[1..], b, k);
    }
  }

  /** A list whose items are all older than `k` has none at `k`. */
  lemma {:induction false} WithKeyNone(ns: seq<HeadNotification>, k: int)
    requires forall i :: 0 <= i < |ns| ==> ns[i].createdAt < k
    ensures WithKey(ns, k) == []
  {
    if ns != [] {
      WithKeyNone(ns[1..], k);
    }
  }

  /** Inserting into a newest-first list puts the new item after every
      item with the same time. */
  lemma {:induction false} InsertWithKey(x: HeadNotification, ns: seq<HeadNotification>, k: int)
    requires NewestFirst(ns)
    ensures WithKey(Insert(x, ns), k) == WithKey(ns, k) + (if x.createdAt == k then [x] else [])
  {
    if ns == [] {
    } else if ns[0].createdAt < x.createdAt {
      assert Insert(x, ns) == [x] + ns;
      assert ([x] + ns)[1..] == ns;
      if x.createdAt == k {
        WithKeyNone(ns, k);
      }
    } else {
      var tail := Insert(x, ns[1..]);
      assert Insert(x, ns) == [ns[0]] + tail;
      assert ([ns[0]] + tail)[1..] == tail;
      InsertWithKey(x, ns[1..], k);
    }
  }

  /** The sort is stable: for every time, the items created at that time
      come out in the order they went in.  Items without `created_at` all
      get the same `now`, so this decides their order. */
  lemma {:induction false} SortNewestFirstStable(ns: seq<HeadNotification>, k: int)
    ensures WithKey(SortNewestFirst(ns), k) == WithKey(ns, k)
  {
    if ns != [] {
      var init := ns[..|ns| - 1];
      var last := ns[|ns| - 1];
      var own := if last.createdAt == k then [last] else [];
      SortNewestFirstStable(init, k);
      SortNewestFirstCorrect(init);
      calc {
        WithKey(SortNewestFirst(ns), k);
        WithKey(Insert(last, SortNewestFirst(init)), k);
        { InsertWithKey(last, SortNewestFirst(init), k); }
        WithKey(SortNewestFirst(init), k) + own;
        WithKey(init, k) + own;
        { LastWithKey(ns, k); }
        WithKey(ns, k);
      }
    }
  }

  lemma LastWithKey(ns: seq<HeadNotification>, k: int)
    requires ns != []
    ensures WithKey(ns, k) == WithKey(ns[..|ns| - 1], k)
      + (if ns[|ns| - 1].createdAt == k then [ns[|ns| - 1]] else [])
  {
    var last := ns[|ns| - 1];
    assert ns == ns[..|ns| - 1] + [last];
    WithKeyAppend(ns[..|ns| - 1], [last], k);
    assert [last][1..] == [];
  }

  // ---- the builder ---------------------------------------------------------------

  /** The first loop of `fetchData` (Notifications.js:33-44): one item
      pushed for each of the first five events, if there are any. */
  method PushEventItems(events: seq<DeptEvent>, now: int) returns (mock: seq<HeadNotification>)
    ensures mock == EventItems(Take(events, MaxEventItems), now)
  {
    mock := [];
    if |events| > 0 {
      var firstEvents := Take(events, MaxEventItems);
      var i := 0;
      while i < |firstEvents|
        invariant 0 <= i <= |firstEvents|
        invariant mock == EventItems(firstEvents[..i], now)
      {
        assert firstEvents[..i + 1] == firstEvents[..i] + [firstEvents[i]];
        EventItemsAppend(firstEvents[..i], firstEvents[i], now);
        mock := mock + [EventItem(firstEvents[i], now)];
        i := i + 1;
      }
      assert firstEvents[..i] == firstEvents;
    }
  }

  /** The second loop (Notifications.js:47-58): one item pushed after
      `mock0` for each of the first three users, if there are any. */
  method PushUserItems(mock0: seq<HeadNotification>, users: seq<DeptUser>, now: int)
    returns (mock: seq<HeadNotification>)
    ensures mock == mock0 + UserItems(Take(users, MaxUserItems), now)
  {
    mock := mock0;
    if |users| > 0 {
      var firstUsers := Take(users, MaxUserItems);
      var j := 0;
      while j < |firstUsers|
        invariant 0 <= j <= |firstUsers|
        invariant mock == mock0 + UserItems(firstUsers[..j], now)
      {
        assert firstUsers[..j + 1] == firstUsers[..j] + [firstUsers[j]];
        UserItemsAppend(firstUsers[..j], firstUsers[j], now);
        mock := mock + [UserItem(firstUsers[j], now)];
        j := j + 1;
      }
      assert firstUsers[..j] == firstUsers;
    } else {
      assert Take(users, MaxUserItems) == [];
    }
  }

  /** The body of `fetchData` (Notifications.js:16-75): take what each
      request brought, push the made-up items, fall back, sort. */
  method BuildNotifications(eventsResponse: Settled<DeptEvent>, usersResponse: Settled<DeptUser>, now: int)
    returns (list: seq<HeadNotification>)
    ensures list == SortNewestFirst(Collected(Received(eventsResponse), Received(usersResponse), now))
  {
    var events := Received(eventsResponse);
    var users := Received(usersResponse);
    var mock := PushEventItems(events, now);
    mock := PushUserItems(mock, users, now);
    if |mock| == 0 {
      mock := mock + [Fallback(now)];
    }
    list := SortNewestFirst(mock);
  }

  lemma EventItemsAppend(es: seq<DeptEvent>, e: DeptEvent, now: int)
    ensures EventItems(es + [e], now) == EventItems(es, now) + [EventItem(e, now)]
  {
  }

  lemma UserItemsAppend(us: seq<DeptUser>, u: DeptUser, now: int)
    ensures UserItems(us + [u], now) == UserItems(us, now) + [UserItem(u, now)]
  {
  }

  /** What each built item is: made from one of the first five events or
      the first three users, or the fallback; never read. */
  predicate FromSources(n: HeadNotification, events: seq<DeptEvent>, users: seq<DeptUser>, now: int) {
    !n.read
    && ((exists i :: 0 <= i < |events| && i < MaxEventItems && n == EventItem(events[i], now))
        || (exists i :: 0 <= i < |users| && i < MaxUserItems && n == UserItem(users[i], now))
        || n == Fallback(now))
  }

  /** The list before sorting: one to eight items, each from a source,
      and the fallback alone exactly when neither request brought anything. */
  lemma CollectedShape(events: seq<DeptEvent>, users: seq<DeptUser>, now: int)
    ensures var c := Collected(events, users, now);
      1 <= |c| <= MaxEventItems + MaxUserItems
      && (forall k :: 0 <= k < |c| ==> FromSources(c[k], events, users, now))
      && (c == [Fallback(now)] <==> events == [] && users == [])
  {
    var c := Collected(events, users, now);
    var es := Take(events, MaxEventItems);
    var us := Take(users, MaxUserItems);
    var items := EventItems(es, now) + UserItems(us, now);
    assert items == [] <==> events == [] && users == [];
    if items != [] {
      assert c == items;
      forall k | 0 <= k < |c| ensures FromSources(c[k], events, users, now) {
        if k < |es| {
          assert c[k] == EventItem(es[k], now);
        } else {
          assert c[k] == UserItem(us[k - |es|], now);
        }
      }
      if |es| > 0 {
        assert c[0] == EventItem(es[0], now) && c[0].id[0] == 'e';
      } else {
        assert c[0] == UserItem(us[0], now) && c[0].id[0] == 'u';
      }
      assert c[0] != Fallback(now);
    }
  }

  /** At most five event items and three user items, so at most eight and
      at least one, newest first; every item comes from a source and starts
      unread; the fallback appears exactly when neither request brought
      anything. */
  lemma BuiltShape(eventsResponse: Settled<DeptEvent>, usersResponse: Settled<DeptUser>, now: int)
    ensures var events := Received(eventsResponse);
      var users := Received(usersResponse);
      var built := SortNewestFirst(Collected(events, users, now));
      1 <= |built| <= MaxEventItems + MaxUserItems
      && NewestFirst(built)
      && (forall k :: 0 <= k < |built| ==> FromSources(built[k], events, users, now))
      && (built == [Fallback(now)] <==> events == [] && users == [])
  {
    var events := Received(eventsResponse);
    var users := Received(usersResponse);
    var c := Collected(events, users, now);
    var built := SortNewestFirst(c);
    SortNewestFirstCorrect(c);
    CollectedShape(events, users, now);
    SortedFromSources(c, events, users, now);
    SortedSingleton(c, Fallback(now));
  }

  /** Sorting only moves items, so every sorted item still comes from a
      source. */
  lemma SortedFromSources(c: seq<HeadNotification>, events: seq<DeptEvent>, users: seq<DeptUser>, now: int)
    requires forall k :: 0 <= k < |c| ==> FromSources(c[k], events, users, now)
    ensures forall k :: 0 <= k < |SortNewestFirst(c)| ==> FromSources(SortNewestFirst(c)[k], events, users, now)
  {
    var built := SortNewestFirst(c);
    SortedMembers(c);
    forall k | 0 <= k < |built| ensures FromSources(built[k], events, users, now) {
      var m :| 0 <= m < |c| && c[m] == built[k];
    }
  }

  /** Sorting keeps exactly the items it was given. */
  lemma SortedMembers(c: seq<HeadNotification>)
    ensures forall k :: 0 <= k < |SortNewestFirst(c)| ==> SortNewestFirst(c)[k] in c
  {
    var built := SortNewestFirst(c);
    forall k | 0 <= k < |built| ensures built[k] in c {
      assert built[k] in multiset(built);
    }
  }

  /** A list sorts to a single item exactly when it is that item alone. */
  lemma SortedSingleton(c: seq<HeadNotification>, x: HeadNotification)
    ensures SortNewestFirst(c) == [x] <==> c == [x]
  {
    if SortNewestFirst(c) == [x] {
      assert multiset(c) == multiset{x};
      assert c[0] in multiset(c);
      assert c == [c[0]];
    }
    if c == [x] {
      assert SortNewestFirst(c) == Insert(x, SortNewestFirst([]));
    }
  }

  /** A rejected request counts as an empty list. */
  lemma RejectedIsEmpty(usersResponse: Settled<DeptUser>, now: int)
    ensures Collected([], Received(usersResponse), now) == Collected(Received(Rejected), Received(usersResponse), now)
    ensures Collected(Received(Rejected), Received(Rejected), now) == [Fallback(now)]
  {
  }

  // ---- read flags ---------------------------------------------------------------

  /** `markAsRead(id)` (Notifications.js:98-104). */
  function MarkRead(ns: seq<HeadNotification>, id: string): (r: seq<HeadNotification>)
    ensures |r| == |ns|
    ensures forall i :: 0 <= i < |ns| ==> r[i] == ns[i].(read := r[i].read)
    ensures forall i :: 0 <= i < |ns| ==> (ns[i].id == id ==> r[i].read) && (ns[i].id != id ==> r[i] == ns[i])
  {
    if ns == [] then []
    else [if ns[0].id == id then ns[0].(read := true) else ns[0]] + MarkRead(ns[1..], id)
  }

  /** `markAllAsRead()` (Notifications.js:106-110). */
  function MarkAllRead(ns: seq<HeadNotification>): (r: seq<HeadNotification>)
    ensures |r| == |ns|
    ensures forall i :: 0 <= i < |ns| ==> r[i] == ns[i].(read := true)
  {
    if ns == [] then [] else [ns[0].(read := true)] + MarkAllRead(ns[1..])
  }

  /** `notifications.filter(n => !n.read)` */
  function UnreadItems(ns: seq<HeadNotification>): (r: seq<HeadNotification>)
    ensures |r| <= |ns|
    ensures forall k :: 0 <= k < |r| ==> !r[k].read && r[k] in ns
    ensures forall i :: 0 <= i < |ns| && !ns[i].read ==> ns[i] in r
  {
    if ns == [] then []
    else (if ns[0].read then [] else [ns[0]]) + UnreadItems(ns[1..])
  }

  /** `notifications.filter(n => !n.read).length` (Notifications.js:120). */
  function UnreadCount(ns: seq<HeadNotification>): nat {
    |UnreadItems(ns)|
  }

  /** The unread count is zero exactly when every item is read. */
  lemma UnreadCountZeroIffAllRead(ns: seq<HeadNotification>)
    ensures UnreadCount(ns) == 0 <==> forall i :: 0 <= i < |ns| ==> ns[i].read
  {
    if UnreadCount(ns) > 0 {
      var x := UnreadItems(ns)[0];
      var i :| 0 <= i < |ns| && ns[i] == x;
    }
  }

  /** After mark-all the count is zero; after marking one id, no unread
      item carries that id. */
  lemma MarkAllReadClears(ns: seq<HeadNotification>, id: string)
    ensures UnreadCount(MarkAllRead(ns)) == 0
    ensures forall n :: n in UnreadItems(MarkRead(ns, id)) ==> n.id != id
  {
    UnreadCountZeroIffAllRead(MarkAllRead(ns));
  }

  /** Marking one id is idempotent and never raises the unread count. */
  lemma {:induction false} MarkReadMonotone(ns: seq<HeadNotification>, id: string)
    ensures MarkRead(MarkRead(ns, id), id) == MarkRead(ns, id)
    ensures UnreadCount(MarkRead(ns, id)) <= UnreadCount(ns)
  {
    if ns != [] {
      MarkReadMonotone(ns[1..], id);
      assert MarkRead(ns, id)[1..] == MarkRead(ns[1..], id);
    }
  }

  class HeadNotificationsPage {
    var notifications: seq<HeadNotification>
    var loading: bool

    constructor ()
      ensures notifications == [] && loading
    {
      notifications := [];
      loading := true;
    }

    /** The mount effect: build the list, then stop loading. */
    method FetchData(eventsResponse: Settled<DeptEvent>, usersResponse: Settled<DeptUser>, now: int)
      modifies this
      ensures notifications == SortNewestFirst(Collected(Received(eventsResponse), Received(usersResponse), now))
      ensures !loading
    {
      notifications := BuildNotifications(eventsResponse, usersResponse, now);
      loading := false;
    }

    method MarkAsRead(id: string)
      modifies this`notifications
      ensures notifications == MarkRead(old(notifications), id)
    {
      notifications := MarkRead(notifications, id);
    }

    method MarkAllAsRead()
      modifies this`notifications
      ensures notifications == MarkAllRead(old(notifications))
    {
      notifications := MarkAllRead(notifications);
    }
  }
}
