/** The student notification page, src/pages/student/Notifications.js: a
    local page of notifications fetched with offset pagination, the error
    text shown when a fetch fails, the mark-read actions it delegates to
    the notification context, and the icon of each notification type. */
module StudentNotifications {
  import opened Common
  import opened NotificationContext
  import StudentService

  const PageSize: int := 10
  const LoginRequiredMessage: string := "Please login to view notifications"
  const AuthRequiredMessage: string := "Authentication required. Please log in again."
  const DefaultFetchMessage: string := "Failed to fetch notifications."

  /** The text `fetchNotifications` shows for a failed request
      (Notifications.js:71-78): `err.response?.status === 401` first, then
      a truthy `err.response?.data`, verbatim when it is a string and as
      JSON otherwise, then the default. */
  function FetchErrorMessage(err: HttpFailure): (m: string)
    ensures StatusOf(err) == Some(401) ==> m == AuthRequiredMessage
    ensures StatusOf(err) != Some(401) && err.ResponseError? && err.body.TextBody? && err.body.text != "" ==>
      m == err.body.text
    ensures StatusOf(err) != Some(401) && err.ResponseError? && err.body.ValueBody? ==> m == err.body.json
    ensures !err.ResponseError? ==> m == DefaultFetchMessage
    ensures err.ResponseError? && err.status != 401 && (err.body.NoBody? || err.body == TextBody("")) ==>
      m == DefaultFetchMessage
  {
    if StatusOf(err) == Some(401) then AuthRequiredMessage
    else if err.ResponseError? then
      match err.body
      case TextBody(t) => if t != "" then t else DefaultFetchMessage
      case ValueBody(j) => j
      case NoBody => DefaultFetchMessage
    else DefaultFetchMessage
  }

  /** The state of the page: the list, `loading`, `error`, the filter and
      the pagination record. */
  datatype PageState = PageState(notifications: seq<Notification>, loading: bool, error: Option<string>,
                                 unreadOnly: bool, notificationType: Option<string>,
                                 skip: int, limit: int, hasMore: bool)

  const Initial: PageState := PageState([], true, None, false, None, 0, PageSize, true)

  /** The query a fetch sends. */
  function QueryFor(s: PageState, reset: bool): (q: StudentService.NotificationQuery)
    ensures q.skip == (if reset then 0 else s.skip) && q.limit == s.limit
    ensures q.unreadOnly == s.unreadOnly && q.notificationType == s.notificationType
  {
    StudentService.NotificationQuery(if reset then 0 else s.skip, s.limit, s.unreadOnly, s.notificationType)
  }

  /** `fetchNotifications(reset)` (Notifications.js:32-84) settling with
      `response`; the second component is the query sent, if any. */
  function FetchStep(s: PageState, user: Option<User>, reset: bool,
                     response: Outcome<seq<Notification>>): (r: (PageState, Option<StudentService.NotificationQuery>))
    ensures !r.0.loading
    ensures r.0.unreadOnly == s.unreadOnly && r.0.notificationType == s.notificationType && r.0.limit == s.limit
    ensures user.None? ==> r.1.None? && r.0 == s.(error := Some(LoginRequiredMessage), loading := false)
    ensures user.Some? ==> r.1 == Some(QueryFor(s, reset))
    ensures user.Some? && response.Success? && reset ==>
      r.0.notifications == response.data && r.0.skip == s.limit
    ensures user.Some? && response.Success? && !reset ==>
      r.0.notifications == s.notifications + response.data && r.0.skip == s.skip + s.limit
    ensures user.Some? && response.Success? ==>
      r.0.error.None? && (r.0.hasMore <==> |response.data| == s.limit)
    ensures user.Some? && response.Failure? ==>
      r.0 == s.(error := Some(FetchErrorMessage(response.err)), loading := false)
  {
    if user.None? then (s.(error := Some(LoginRequiredMessage), loading := false), None)
    else
      var q := QueryFor(s, reset);
      match response
      case Success(data) =>
        (s.(notifications := if reset then data else s.notifications + data,
            skip := if reset then s.limit else s.skip + s.limit,
            hasMore := |data| == s.limit,
            error := None, loading := false), Some(q))
      case Failure(e) => (s.(error := Some(FetchErrorMessage(e)), loading := false), Some(q))
  }

  /** `loadMore()` (Notifications.js:246-249): nothing happens when there
      is nothing more or a load is running; otherwise the next page is
      fetched. */
  function LoadMoreStep(s: PageState, user: Option<User>,
                        response: Outcome<seq<Notification>>): (r: (PageState, Option<StudentService.NotificationQuery>))
    ensures !s.hasMore || s.loading ==> r == (s, None)
    ensures s.hasMore && !s.loading ==> r == FetchStep(s, user, false, response)
  {
    if !s.hasMore || s.loading then (s, None) else FetchStep(s, user, false, response)
  }

  /** A filter change: the effect of Notifications.js:86-91 refetches from
      the start when the filter really changed and a user is signed in. */
  function FilterStep(s: PageState, user: Option<User>, unreadOnly: bool, notificationType: Option<string>,
                      response: Outcome<seq<Notification>>): (r: (PageState, Option<StudentService.NotificationQuery>))
    ensures r.0.unreadOnly == unreadOnly && r.0.notificationType == notificationType
    ensures r.1.Some? <==>
      user.Some? && (unreadOnly != s.unreadOnly || notificationType != s.notificationType)
    ensures r.1.Some? ==>
      r.1.value.skip == 0 && r.1.value.unreadOnly == unreadOnly
      && r.1.value.notificationType == notificationType
  {
    var s1 := s.(unreadOnly := unreadOnly, notificationType := notificationType);
    if user.Some? && (unreadOnly != s.unreadOnly || notificationType != s.notificationType) then
      FetchStep(s1, user, true, response)
    else (s1, None)
  }

  /** As long as more pages may follow, the offset is the number of items
      shown: every item fetched so far is on the page once, and nothing was
      skipped. */
  predicate OffsetMatchesList(s: PageState) {
    s.hasMore ==> s.skip == |s.notifications|
  }

  /** The page starts consistent, and every fetch the page makes keeps it
      so: the reset fetches of the filter effect and the appends of
      `loadMore`. */
  lemma OffsetInvariant(s: PageState, user: Option<User>, response: Outcome<seq<Notification>>,
                        unreadOnly: bool, notificationType: Option<string>)
    ensures OffsetMatchesList(Initial)
    ensures user.Some? && response.Success? ==> OffsetMatchesList(FetchStep(s, user, true, response).0)
    ensures OffsetMatchesList(s) ==> OffsetMatchesList(FetchStep(s, user, true, response).0)
    ensures OffsetMatchesList(s) ==> OffsetMatchesList(LoadMoreStep(s, user, response).0)
    ensures OffsetMatchesList(s) ==> OffsetMatchesList(FilterStep(s, user, unreadOnly, notificationType, response).0)
  {
    var s1 := s.(unreadOnly := unreadOnly, notificationType := notificationType);
    assert OffsetMatchesList(s) ==> OffsetMatchesList(s1);
  }

  /** Consequently each `loadMore` asks for the page that starts right
      after the last item shown. */
  lemma LoadMoreAsksForNext(s: PageState, user: User, response: Outcome<seq<Notification>>)
    requires OffsetMatchesList(s) && s.hasMore && !s.loading
    ensures var r := LoadMoreStep(s, Some(user), response);
      r.1.Some? && r.1.value.skip == |s.notifications| && r.1.value.limit == s.limit
  {
  }

  /** A reset followed by `loadMore`s that bring full pages shows the pages
      one after the other, in the order fetched. */
  lemma {:induction false} FullPagesConcatenate(s: PageState, user: User, pages: seq<seq<Notification>>)
    requires OffsetMatchesList(s) && s.hasMore && !s.loading && s.limit >= 0
    requires forall i :: 0 <= i < |pages| ==> |pages[i]| == s.limit
    ensures var r := LoadPages(s, user, pages);
      r.notifications == s.notifications + Flatten(pages) && r.hasMore
      && r.skip == |r.notifications| && !r.loading
    decreases |pages|
  {
    if pages != [] {
      var next := FetchStep(s, Some(user), false, Success(pages[0])).0;
      FullPagesConcatenate(next, user, pages[1..]);
      assert s.notifications + Flatten(pages) == next.notifications + Flatten(pages[1..]);
    }
  }

  /** The state after one `loadMore` per page of `pages`. */
  function LoadPages(s: PageState, user: User, pages: seq<seq<Notification>>): (r: PageState)
    decreases |pages|
  {
    if pages == [] then s
    else LoadPages(LoadMoreStep(s, Some(user), Success(pages[0])).0, user, pages[1..])
  }

  function Flatten(pages: seq<seq<Notification>>): (r: seq<Notification>)
    decreases |pages|
  {
    if pages == [] then [] else pages[0] + Flatten(pages[1..])
  }

  /** What the page shows in a toast after a mark-read action. */
  datatype Toast = NoToast | SuccessToast(title: string) | ErrorToast(title: string, text: string)

  const SignInToast: Toast := ErrorToast("Authentication Required", "Please log in to mark notifications as read.")

  /** `getNotificationIcon(type)` (Notifications.js:206-219). */
  function NotificationIcon(notificationType: string): (icon: string)
    ensures notificationType !in KnownTypes ==> icon == DefaultIcon
    ensures notificationType in KnownTypes ==> icon != DefaultIcon
  {
    if notificationType == "event" then "\U{1F4C5}"
    else if notificationType == "opportunity" then "\U{1F31F}"
    else if notificationType == "announcement" then "\U{1F4E2}"
    else if notificationType == "reminder" then "\U{23F0}"
    else DefaultIcon
  }

  const KnownTypes: set<string> := {"event", "opportunity", "announcement", "reminder"}
  const DefaultIcon: string := "\U{1F4EC}"

  /** The four known types have four different icons. */
  lemma IconsDistinct(a: string, b: string)
    requires a in KnownTypes && b in KnownTypes && a != b
    ensures NotificationIcon(a) != NotificationIcon(b)
  {
  }

  class StudentNotificationsPage {
    var notifications: seq<Notification>
    var loading: bool
    var error: Option<string>
    var unreadOnly: bool
    var notificationType: Option<string>
    var skip: int
    var limit: int
    var hasMore: bool

    function State(): PageState
      reads this
    {
      PageState(notifications, loading, error, unreadOnly, notificationType, skip, limit, hasMore)
    }

    constructor ()
      ensures State() == Initial
    {
      notifications := [];
      loading := true;
      error := None;
      unreadOnly := false;
      notificationType := None;
      skip := 0;
      limit := PageSize;
      hasMore := true;
    }

    method FetchNotifications(user: Option<User>, reset: bool, response: Outcome<seq<Notification>>)
      returns (request: Option<StudentService.NotificationQuery>)
      modifies this
      ensures (State(), request) == FetchStep(old(State()), user, reset, response)
    {
      if user.None? {
        error := Some(LoginRequiredMessage);
        loading := false;
        return None;
      }
      loading := true;
      request := Some(StudentService.NotificationQuery(if reset then 0 else skip, limit, unreadOnly, notificationType));
      if response.Success? {
        if reset {
          notifications := response.data;
          skip := limit;
        } else {
          notifications := notifications + response.data;
          skip := skip + limit;
        }
        hasMore := |response.data| == limit;
        error := None;
      } else {
        error := Some(FetchErrorMessage(response.err));
      }
      loading := false;
    }

    method LoadMore(user: Option<User>, response: Outcome<seq<Notification>>)
      returns (request: Option<StudentService.NotificationQuery>)
      modifies this
      ensures (State(), request) == LoadMoreStep(old(State()), user, response)
    {
      if !hasMore || loading {
        return None;
      }
      request := FetchNotifications(user, false, response);
    }

    method ChangeFilter(user: Option<User>, newUnreadOnly: bool, newType: Option<string>,
                        response: Outcome<seq<Notification>>)
      returns (request: Option<StudentService.NotificationQuery>)
      modifies this
      ensures (State(), request) == FilterStep(old(State()), user, newUnreadOnly, newType, response)
    {
      var changed := newUnreadOnly != unreadOnly || newType != notificationType;
      unreadOnly := newUnreadOnly;
      notificationType := newType;
      request := None;
      if user.Some? && changed {
        request := FetchNotifications(user, true, response);
      }
    }

    /** `markAsRead(id)` (Notifications.js:93-149): the context call decides;
        the local list follows only on success.  The context reports failure
        by returning false, so the page's own catch branch is not reached. */
    method MarkAsRead<T>(user: Option<User>, id: string, ctx: NotificationProvider, response: Outcome<T>)
      returns (toast: Toast)
      modifies this, ctx
      ensures user.None? ==>
        toast == SignInToast && notifications == old(notifications)
        && ctx.notifications == old(ctx.notifications) && ctx.unreadCount == old(ctx.unreadCount)
      ensures user.Some? && response.Success? ==>
        toast == SuccessToast("Marked as read") && notifications == MarkOneRead(old(notifications), id)
        && ctx.notifications == MarkOneRead(old(ctx.notifications), id)
        && ctx.unreadCount == Decremented(old(ctx.unreadCount))
      ensures user.Some? && response.Failure? ==>
        toast == NoToast && notifications == old(notifications)
        && ctx.notifications == old(ctx.notifications) && ctx.unreadCount == old(ctx.unreadCount)
      ensures loading == old(loading) && error == old(error) && skip == old(skip) && hasMore == old(hasMore)
        && unreadOnly == old(unreadOnly) && notificationType == old(notificationType) && limit == old(limit)
    {
      if user.None? {
        return SignInToast;
      }
      var success := ctx.MarkAsRead(user, id, response);
      toast := NoToast;
      if success {
        notifications := MarkOneRead(notifications, id);
        toast := SuccessToast("Marked as read");
      }
    }

    /** `markAllAsRead()` (Notifications.js:151-204). */
    method MarkAllAsRead<T>(user: Option<User>, ctx: NotificationProvider, response: Outcome<T>)
      returns (toast: Toast)
      modifies this, ctx
      ensures user.None? ==>
        toast == SignInToast && notifications == old(notifications)
        && ctx.notifications == old(ctx.notifications) && ctx.unreadCount == old(ctx.unreadCount)
      ensures user.Some? && response.Success? ==>
        toast == SuccessToast("All notifications marked as read")
        && notifications == MarkAllRead(old(notifications))
        && ctx.notifications == MarkAllRead(old(ctx.notifications)) && ctx.unreadCount == 0
      ensures user.Some? && response.Failure? ==>
        toast == NoToast && notifications == old(notifications)
        && ctx.notifications == old(ctx.notifications) && ctx.unreadCount == old(ctx.unreadCount)
      ensures loading == old(loading) && error == old(error) && skip == old(skip) && hasMore == old(hasMore)
        && unreadOnly == old(unreadOnly) && notificationType == old(notificationType) && limit == old(limit)
    {
      if user.None? {
        return SignInToast;
      }
      var success := ctx.MarkAllAsRead(user, response);
      toast := NoToast;
      if success {
        notifications := MarkAllRead(notifications);
        toast := SuccessToast("All notifications marked as read");
      }
    }
  }
}
