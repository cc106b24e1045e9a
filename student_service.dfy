/** The request builders of src/services/studentService.js: the payload of
    an event confirmation, the query of the notification list, and the
    URLs of the student endpoints.  `api` is the configured API base URL
    (`REACT_APP_API_URL`). */
module StudentService {
  import opened Common
  import JsText

  // ---- event confirmation --------------------------------------------------

  /** The fields of `data` the builder looks at: `event_id`, and `note`
      when it is a string (`None` for every falsy note).  `others` stands
      for whatever else the caller put into `data`. */
  datatype ConfirmationInput = ConfirmationInput(eventId: string, note: Option<string>, others: map<string, string>)

  const EventIdField: string := "event_id"
  const StatusField: string := "status"
  const NoteField: string := "note"
  const Confirmed: string := "confirmed"

  /** `data.note && data.note.trim() !== ''` */
  predicate HasNote(data: ConfirmationInput) {
    data.note.Some? && data.note.value != "" && JsText.Trim(data.note.value) != ""
  }

  /** The payload `createEventConfirmation` sends
      (studentService.js:56-65), built field by field. */
  method ConfirmationPayload(data: ConfirmationInput) returns (payload: map<string, string>)
    ensures EventIdField in payload && payload[EventIdField] == data.eventId
    ensures StatusField in payload && payload[StatusField] == Confirmed
    ensures NoteField in payload <==> HasNote(data)
    ensures NoteField in payload ==> payload[NoteField] == JsText.Trim(data.note.value)
    ensures payload.Keys <= {EventIdField, StatusField, NoteField}
  {
    payload := map[EventIdField := data.eventId, StatusField := Confirmed];
    if data.note.Some? && data.note.value != "" && JsText.Trim(data.note.value) != "" {
      payload := payload[NoteField := JsText.Trim(data.note.value)];
    }
  }

  /** A note is sent exactly when it holds a character other than
      whitespace, and what is sent neither starts nor ends with whitespace. */
  lemma NoteSentIffNotBlank(data: ConfirmationInput)
    requires data.note.Some?
    ensures HasNote(data) <==> exists i :: 0 <= i < |data.note.value| && !JsText.IsJsWhitespace(data.note.value[i])
    ensures HasNote(data) ==> var t := JsText.Trim(data.note.value);
      !JsText.IsJsWhitespace(t[0]) && !JsText.IsJsWhitespace(t[|t| - 1])
  {
    JsText.TrimEmptyIffAllSpace(data.note.value);
  }

  // ---- notification list query ----------------------------------------------

  /** One value of the query string. */
  datatype ParamValue = IntParam(n: int) | BoolParam(b: bool) | TextParam(t: string)

  /** The arguments of `getNotifications`; `notificationType` is `None` for
      `null` and every other falsy value but ''. */
  datatype NotificationQuery = NotificationQuery(skip: int, limit: int, unreadOnly: bool, notificationType: Option<string>)

  /** The defaults of `getNotifications` (studentService.js:134), which are
      also those of `getEvents` and `getOpportunities`
      (studentService.js:21,38). */
  const DefaultSkip: int := 0
  const DefaultLimit: int := 100
  const DefaultUnreadOnly: bool := false

  const DefaultQuery: NotificationQuery := NotificationQuery(DefaultSkip, DefaultLimit, DefaultUnreadOnly, None)

  /** The query string `getNotifications` sends
      (studentService.js:135-143): always `skip`, `limit` and
      `unread_only`, and `notification_type` only when it is truthy. */
  function QueryParams(q: NotificationQuery): (params: map<string, ParamValue>)
    ensures "skip" in params && params["skip"] == IntParam(q.skip)
    ensures "limit" in params && params["limit"] == IntParam(q.limit)
    ensures "unread_only" in params && params["unread_only"] == BoolParam(q.unreadOnly)
    ensures "notification_type" in params <==> q.notificationType.Some? && q.notificationType.value != ""
    ensures "notification_type" in params ==> params["notification_type"] == TextParam(q.notificationType.value)
    ensures params.Keys <= {"skip", "limit", "unread_only", "notification_type"}
  {
    var base := map["skip" := IntParam(q.skip), "limit" := IntParam(q.limit), "unread_only" := BoolParam(q.unreadOnly)];
    if q.notificationType.Some? && q.notificationType.value != "" then
      base["notification_type" := TextParam(q.notificationType.value)]
    else base
  }

  /** `getNotifications` building its `params` object field by field. */
  method NotificationParams(q: NotificationQuery) returns (params: map<string, ParamValue>)
    ensures params == QueryParams(q)
  {
    params := map["skip" := IntParam(q.skip), "limit" := IntParam(q.limit), "unread_only" := BoolParam(q.unreadOnly)];
    if q.notificationType.Some? && q.notificationType.value != "" {
      params := params["notification_type" := TextParam(q.notificationType.value)];
    }
  }

  /** Called with no arguments, `getNotifications` asks for the first 100
      notifications, read and unread, of every type. */
  lemma DefaultParams()
    ensures QueryParams(DefaultQuery) ==
      map["skip" := IntParam(0), "limit" := IntParam(100), "unread_only" := BoolParam(false)]
  {
  }

  // ---- URLs -------------------------------------------------------------------

  /** `${API_URL}/student/` */
  function StudentBase(api: string): string {
    api + "/student/"
  }

  /** `${API_URL}/student/<resource>/<id><tail>`: the shape of every
      per-item URL of the service.  The identifier can be read back. */
  function ItemUrl(api: string, resource: string, id: string, tail: string): (u: string)
    ensures ItemIdOf(api, resource, tail, u) == Some(id)
  {
    var u := StudentBase(api) + resource + "/" + id + tail;
    var prefix := StudentBase(api) + resource + "/";
    assert u[..|prefix|] == prefix && u[|u| - |tail|..] == tail;
    assert u[|prefix|..|u| - |tail|] == id;
    u
  }

  /** The identifier of a per-item URL: what lies between
      `${API_URL}/student/<resource>/` and the tail, when the URL has that
      shape. */
  function ItemIdOf(api: string, resource: string, tail: string, u: string): (id: Option<string>)
    ensures id.Some? ==> StudentBase(api) + resource + "/" + id.value + tail == u
  {
    var prefix := StudentBase(api) + resource + "/";
    if |prefix| + |tail| <= |u| && u[..|prefix|] == prefix && u[|u| - |tail|..] == tail then
      var id := u[|prefix|..|u| - |tail|];
      assert prefix + id + tail == u[..|prefix|] + u[|prefix|..|u| - |tail|] + u[|u| - |tail|..];
      Some(id)
    else None
  }

  /** `getEvent` (studentService.js:26). */
  function EventUrl(api: string, eventId: string): (u: string)
    ensures ItemIdOf(api, "events", "", u) == Some(eventId)
  {
    ItemUrl(api, "events", eventId, "")
  }

  /** `getOpportunity` (studentService.js:43). */
  function OpportunityUrl(api: string, opportunityId: string): (u: string)
    ensures ItemIdOf(api, "opportunities", "", u) == Some(opportunityId)
  {
    ItemUrl(api, "opportunities", opportunityId, "")
  }

  /** `getNotification` (studentService.js:149). */
  function NotificationUrl(api: string, notificationId: string): (u: string)
    ensures ItemIdOf(api, "notifications", "", u) == Some(notificationId)
  {
    ItemUrl(api, "notifications", notificationId, "")
  }

  /** `markNotificationAsRead` (studentService.js:153). */
  function MarkReadUrl(api: string, notificationId: string): (u: string)
    ensures ItemIdOf(api, "notifications", "/read", u) == Some(notificationId)
  {
    ItemUrl(api, "notifications", notificationId, "/read")
  }

  /** The fixed URLs the notification code calls
      (studentService.js:145,157,161). */
  function NotificationsUrl(api: string): string { StudentBase(api) + "notifications/" }
  function UnreadCountUrl(api: string): string { StudentBase(api) + "notifications/unread_count" }
  function MarkAllReadUrl(api: string): string { StudentBase(api) + "notifications/mark_all_read" }

  /** The list, the unread count and mark-all are three different URLs,
      and none of them is the mark-read URL of any notification. */
  lemma FixedUrlsDistinct(api: string, id: string)
    ensures NotificationsUrl(api) != UnreadCountUrl(api)
    ensures NotificationsUrl(api) != MarkAllReadUrl(api)
    ensures UnreadCountUrl(api) != MarkAllReadUrl(api)
    ensures MarkReadUrl(api, id) !in {NotificationsUrl(api), UnreadCountUrl(api), MarkAllReadUrl(api)}
  {
    var base := StudentBase(api) + "notifications/";
    var n := |base|;
    assert NotificationsUrl(api) == base && UnreadCountUrl(api) == base + "unread_count";
    assert MarkAllReadUrl(api) == base + "mark_all_read";
    assert UnreadCountUrl(api)[n] == 'u' && MarkAllReadUrl(api)[n] == 'm';
    var m := MarkReadUrl(api, id);
    assert m == base + id + "/read";
    assert m[|m| - 5] == '/' && m[|m| - 1] == 'd';
    assert UnreadCountUrl(api)[|UnreadCountUrl(api)| - 1] == 't';
    assert MarkAllReadUrl(api)[|MarkAllReadUrl(api)| - 5] == '_';
  }

  /** The identifier sits between the resource prefix and the tail, so it
      can be read back from the URL: the builders are injective in it. */
  lemma ItemUrlId(api: string, resource: string, id: string, tail: string)
    ensures var u := ItemUrl(api, resource, id, tail);
      var start := |StudentBase(api)| + |resource| + 1;
      u[..start] == StudentBase(api) + resource + "/" && u[start..start + |id|] == id
      && u[start + |id|..] == tail
  {
  }

  lemma ItemUrlInjective(api: string, resource: string, a: string, b: string, tail: string)
    requires ItemUrl(api, resource, a, tail) == ItemUrl(api, resource, b, tail)
    ensures a == b
  {
    assert ItemIdOf(api, resource, tail, ItemUrl(api, resource, a, tail)) == Some(a);
  }

  /** Different events, opportunities or notifications get different URLs. */
  lemma UrlsInjective(api: string, a: string, b: string)
    ensures EventUrl(api, a) == EventUrl(api, b) ==> a == b
    ensures OpportunityUrl(api, a) == OpportunityUrl(api, b) ==> a == b
    ensures NotificationUrl(api, a) == NotificationUrl(api, b) ==> a == b
    ensures MarkReadUrl(api, a) == MarkReadUrl(api, b) ==> a == b
  {
    if EventUrl(api, a) == EventUrl(api, b) { ItemUrlInjective(api, "events", a, b, ""); }
    if OpportunityUrl(api, a) == OpportunityUrl(api, b) { ItemUrlInjective(api, "opportunities", a, b, ""); }
    if NotificationUrl(api, a) == NotificationUrl(api, b) { ItemUrlInjective(api, "notifications", a, b, ""); }
    if MarkReadUrl(api, a) == MarkReadUrl(api, b) { ItemUrlInjective(api, "notifications", a, b, "/read"); }
  }
}
