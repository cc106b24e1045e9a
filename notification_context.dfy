/** src/context/NotificationContext.js: the shared notification list, the
    unread counter and the calls that refresh or update them.  The signed-in
    user is a parameter of each call (the provider reads it from the
    session); the answers of the student endpoints are inputs. */
module NotificationContext {
  import opened Common
  import JsText
  import StudentService

  /** One notification as the student endpoints return it.  `createdAt` is
      a timestamp; the pages only display it. */
  datatype Notification = Notification(id: string, notificationType: string, title: string,
                                       message: string, createdAt: int, isRead: bool)

  // ---- list updates, shared with the student page ----------------------------

  /** `prev.map(n => n.id === id ? {...n, is_read: true} : n)` */
  function MarkOneRead(ns: seq<Notification>, id: string): (r: seq<Notification>)
    ensures |r| == |ns|
    ensures forall i :: 0 <= i < |ns| ==> r[i] == ns[i].(isRead := r[i].isRead)
    ensures forall i :: 0 <= i < |ns| ==> (ns[i].id == id ==> r[i].isRead) && (ns[i].id != id ==> r[i] == ns[i])
  {
    if ns == [] then []
    else [if ns[0].id == id then ns[0].(isRead := true) else ns[0]] + MarkOneRead(ns[1..], id)
  }

  /** `prev.map(n => ({...n, is_read: true}))` */
  function MarkAllRead(ns: seq<Notification>): (r: seq<Notification>)
    ensures |r| == |ns|
    ensures forall i :: 0 <= i < |ns| ==> r[i] == ns[i].(isRead := true)
  {
    if ns == [] then [] else [ns[0].(isRead := true)] + MarkAllRead(ns[1..])
  }

  /** The number of notifications not yet read. */
  function CountUnread(ns: seq<Notification>): (n: nat)
    ensures n <= |ns|
  {
    if ns == [] then 0 else (if ns[0].isRead then 0 else 1) + CountUnread(ns[1..])
  }

  lemma {:induction false} CountUnreadZeroIffAllRead(ns: seq<Notification>)
    ensures CountUnread(ns) == 0 <==> forall i :: 0 <= i < |ns| ==> ns[i].isRead
  {
    if ns != [] {
      CountUnreadZeroIffAllRead(ns[1..]);
      assert forall i :: 1 <= i < |ns| ==> ns[i] == ns[1..][i - 1];
    }
  }

  /** After mark-all nothing is unread. */
  lemma MarkAllReadLeavesNoneUnread(ns: seq<Notification>)
    ensures CountUnread(MarkAllRead(ns)) == 0
  {
    CountUnreadZeroIffAllRead(MarkAllRead(ns));
  }

  /** Marking one id read never raises the unread number, and lowers it by
      exactly the unread notifications carrying that id. */
  lemma {:induction false} MarkOneReadCount(ns: seq<Notification>, id: string)
    ensures CountUnread(MarkOneRead(ns, id)) == CountUnread(ns) - CountUnreadWithId(ns, id)
  {
    if ns != [] {
      MarkOneReadCount(ns[1..], id);
      assert MarkOneRead(ns, id)[1..] == MarkOneRead(ns[1..], id);
    }
  }

  function CountUnreadWithId(ns: seq<Notification>, id: string): (n: nat)
    ensures n <= CountUnread(ns)
  {
    if ns == [] then 0
    else (if !ns[0].isRead && ns[0].id == id then 1 else 0) + CountUnreadWithId(ns[1..], id)
  }

  /** Marking the same id twice is marking it once. */
  lemma {:induction false} MarkOneReadIdempotent(ns: seq<Notification>, id: string)
    ensures MarkOneRead(MarkOneRead(ns, id), id) == MarkOneRead(ns, id)
  {
    if ns != [] {
      MarkOneReadIdempotent(ns[1..], id);
      assert MarkOneRead(ns, id)[1..] == MarkOneRead(ns[1..], id);
    }
  }

  // ---- the unread counter -------------------------------------------------------

  /** `setUnreadCount(prev => Math.max(0, prev - 1))` */
  function Decremented(count: int): (r: int)
    ensures r >= 0
    ensures count >= 1 ==> r == count - 1
    ensures count <= 1 ==> r == 0
  {
    if count - 1 > 0 then count - 1 else 0
  }

  /** The counter after `fetchUnreadCount` settles with `response`, whose
      body `parseInt` reads: replaced only by a number, kept on NaN and on a
      failed request. */
  function CountAfterFetch(count: int, response: Outcome<string>): (r: int)
    ensures response.Failure? ==> r == count
    ensures response.Success? && JsText.ParseInt(response.data).None? ==> r == count
    ensures response.Success? && JsText.ParseInt(response.data).Some? ==> r == JsText.ParseInt(response.data).value
  {
    match response
    case Failure(_) => count
    case Success(body) =>
      match JsText.ParseInt(body)
      case None => count
      case Some(n) => n
  }

  /** A server that answers with the number `n` sets the counter to `n`. */
  lemma CountAfterNumber(count: int, n: int)
    ensures CountAfterFetch(count, Success(JsText.IntToString(n))) == n
  {
    JsText.ParseIntOfIntToString(n);
  }

  /** The message set when the list cannot be fetched. */
  const FetchFailedMessage: string := "Failed to fetch notifications."

  /** The defaults of the context's `fetchNotifications`
      (NotificationContext.js:52). */
  const DefaultQuery: StudentService.NotificationQuery := StudentService.NotificationQuery(0, 10, false, None)

  class NotificationProvider {
    var notifications: seq<Notification>
    var unreadCount: int
    var loading: bool
    var error: Option<string>

    constructor ()
      ensures notifications == [] && unreadCount == 0 && loading && error.None?
    {
      notifications := [];
      unreadCount := 0;
      loading := true;
      error := None;
    }

    /** `fetchUnreadCount` (NotificationContext.js:30-50): `requested` tells
        whether the request was made. */
    method FetchUnreadCount(user: Option<User>, response: Outcome<string>) returns (requested: bool)
      modifies this`unreadCount
      ensures requested == user.Some?
      ensures unreadCount == if user.Some? then CountAfterFetch(old(unreadCount), response) else old(unreadCount)
    {
      requested := user.Some?;
      if user.None? {
        return;
      }
      if response.Success? {
        var count := JsText.ParseInt(response.data);
        if count.Some? {
          unreadCount := count.value;
        }
      }
    }

    /** `fetchNotifications(skip, limit, unreadOnly, notificationType)`
        (NotificationContext.js:52-77).  `response` answers the list
        request and `countResponse` the unread-count refresh it starts on
        success.  `params` is the query sent, when a request is made. */
    method FetchNotifications(user: Option<User>, q: StudentService.NotificationQuery,
                              response: Outcome<seq<Notification>>, countResponse: Outcome<string>)
      returns (data: seq<Notification>, params: Option<map<string, StudentService.ParamValue>>)
      modifies this
      ensures user.None? ==>
        data == [] && params.None?
        && notifications == old(notifications) && unreadCount == old(unreadCount)
        && loading == old(loading) && error == old(error)
      ensures user.Some? ==> params == Some(StudentService.QueryParams(q)) && !loading
      ensures user.Some? && response.Success? ==>
        data == response.data && notifications == response.data && error.None?
        && unreadCount == CountAfterFetch(old(unreadCount), countResponse)
      ensures user.Some? && response.Failure? ==>
        data == [] && notifications == old(notifications) && error == Some(FetchFailedMessage)
        && unreadCount == old(unreadCount)
    {
      if user.None? {
        data := [];
        params := None;
        return;
      }
      loading := true;
      var p := StudentService.NotificationParams(q);
      params := Some(p);
      if response.Success? {
        notifications := response.data;
        error := None;
        var _ := FetchUnreadCount(user, countResponse);
        data := response.data;
      } else {
        error := Some(FetchFailedMessage);
        data := [];
      }
      loading := false;
    }

    /** `markAsRead(id)` (NotificationContext.js:79-104): `response` is the
        answer to the mark-read request. */
    method MarkAsRead<T>(user: Option<User>, id: string, response: Outcome<T>) returns (success: bool)
      modifies this
      ensures success <==> user.Some? && response.Success?
      ensures success ==> notifications == MarkOneRead(old(notifications), id) && unreadCount == Decremented(old(unreadCount))
      ensures !success ==> notifications == old(notifications) && unreadCount == old(unreadCount)
      ensures loading == old(loading) && error == old(error)
    {
      if user.None? || response.Failure? {
        return false;
      }
      notifications := MarkOneRead(notifications, id);
      unreadCount := Decremented(unreadCount);
      return true;
    }

    /** `markAllAsRead()` (NotificationContext.js:106-127). */
    method MarkAllAsRead<T>(user: Option<User>, response: Outcome<T>) returns (success: bool)
      modifies this
      ensures success <==> user.Some? && response.Success?
      ensures success ==> notifications == MarkAllRead(old(notifications)) && unreadCount == 0
      ensures !success ==> notifications == old(notifications) && unreadCount == old(unreadCount)
      ensures loading == old(loading) && error == old(error)
    {
      if user.None? || response.Failure? {
        return false;
      }
      notifications := MarkAllRead(notifications);
      unreadCount := 0;
      return true;
    }
  }

  /** The counter kept in step with the list: when it counts the unread
      items, a successful mark-read of a notification that is there and
      unread, and a successful mark-all, keep it so. */
  lemma CounterTracksList(ns: seq<Notification>, id: string, k: nat)
    requires k < |ns| && ns[k].id == id && !ns[k].isRead
    requires forall i :: 0 <= i < |ns| && i != k ==> ns[i].id != id
    ensures CountUnread(MarkOneRead(ns, id)) == Decremented(CountUnread(ns))
    ensures CountUnread(MarkAllRead(ns)) == 0
  {
    MarkOneReadCount(ns, id);
    UniqueUnreadWithId(ns, id, k);
    MarkAllReadLeavesNoneUnread(ns);
  }

  lemma {:induction false} UniqueUnreadWithId(ns: seq<Notification>, id: string, k: nat)
    requires k < |ns| && ns[k].id == id && !ns[k].isRead
    requires forall i :: 0 <= i < |ns| && i != k ==> ns[i].id != id
    ensures CountUnreadWithId(ns, id) == 1
  {
    if k == 0 {
      NoneWithId(ns[1..], id);
    } else {
      assert ns[0].id != id;
      UniqueUnreadWithId(ns[1..], id, k - 1);
    }
  }

  lemma {:induction false} NoneWithId(ns: seq<Notification>, id: string)
    requires forall i :: 0 <= i < |ns| ==> ns[i].id != id
    ensures CountUnreadWithId(ns, id) == 0
  {
    if ns != [] {
      NoneWithId(ns[1..], id);
    }
  }
}
