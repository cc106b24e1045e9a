# Portal front end in Dafny

This project models the client-side logic of a university event portal's
React front end: the UUID and text helpers, the e-mail and password rules of
the sign-in form, the session store and its Axios interceptors, the route
guard and route table, the notification context and the two notification
pages, the change-password form, the sidebar menu, the unread badge, and the
request builders of the student service. Network answers, the current time
and the browser's storage are inputs. Each stateful component is a class
whose methods are proved equal to a pure step function; the properties are
proved about those functions.

Modules, one per source file, plus three shared ones:

- `Common`: `Option`, `Outcome` (an HTTP call that succeeded with data or
  failed with a status, no response, or a setup error), and the user record
  with the four roles.
- `JsText`: JavaScript whitespace, `trim`, decimal rendering and
  `parseInt`.
- `Regex`: an anchored matcher for character classes with `{n}` and `+`,
  used for the three regular expressions.
- `Validation`, `Email`, `Routing`, `Auth`, `StudentService`,
  `NotificationContext`, `StudentNotifications`, `HeadNotifications`,
  `LoginForm`, `ChangePasswordForm`, `Sidebar` and `NotificationBadge`:
  one for each source file, named after it.

Two places where one part of the code relies on something another part
does not provide:

- `src/App.js:45` and `src/App.js:131` read `isInitialized` from the
  session, and `src/components/ChangePassword.js:11` reads
  `changePassword`. The provider value at
  `src/context/AuthContext.js:75` holds only `user`, `login`, `logout`
  and `loading`.
- Logout (`src/context/AuthContext.js:68-72`) removes `accessToken` and
  `refreshToken`. The interceptors at `src/services/axiosConfig.js:6` and
  `src/services/axiosConfig.js:37` read and remove `token`.

The model follows the code. The consequences are under "Findings".

Two modelling choices matter when reading the contracts:

- Axios runs request interceptors from the most recently registered. The
  provider's interceptor (`accessToken`) therefore runs first, and the
  module-level one (`token`) overrides it when both keys are stored.
- JavaScript truthiness is kept: an empty stored string counts as absent.

## Model

| member | source | states |
|---|---|---|
| Validation.TruncateText | src/utils/validation.js:82-86 | empty text gives ''; text no longer than `maxLength` is returned unchanged; longer text gives its first `maxLength` characters (none when `maxLength` is negative) followed by '...', `maxLength`+3 long |
| Validation.IsValidUUID | src/utils/validation.js:10-13 | a non-empty string matched by the UUID expression; `IsValidUUIDIffLayout` characterises it |
| Validation.NormalizeUUID | src/utils/validation.js:22-38 | the normalised identifier; its cases and idempotence are `NormalizeUUIDCases` and `NormalizeUUIDIdempotent` |
| Validation.UuidPatternIffLayout | src/utils/validation.js:11 | the UUID regular expression accepts exactly the RFC 4122 text layout: 36 characters, dashes at 8, 13, 18 and 23, version digit 1-5 at 14, variant 8, 9, a or b at 19, hexadecimal digits elsewhere, any case |
| Validation.IsValidUUIDIffLayout | src/utils/validation.js:10-13 | `isValidUUID` holds exactly for a string with that layout; it is false for the empty string and for every non-string value |
| Validation.Hex32PatternIff | src/utils/validation.js:32 | the dashless pattern accepts exactly 32 hexadecimal digits |
| Validation.DashedLayout | src/utils/validation.js:33 | the re-dashed string is 36 long, with a dash at exactly 8, 13, 18 and 23 |
| Validation.DashedRoundTrip | src/utils/validation.js:33 | deleting the dashes from the re-dashed string gives back the 32 digits |
| Validation.NormalizeUUIDCases | src/utils/validation.js:22-38 | a valid UUID is returned unchanged; 32 hex digits come back dashed at 8/13/18/23 and, without the dashes, equal to the input; anything else comes back as its string form |
| Validation.NormalizeUUIDIdempotent | src/utils/validation.js:22-38 | normalising the result again changes nothing |
| Email.IsValidEmailIffShape | src/components/LoginNew.js:19-22 | `isValidEmail` holds exactly when there is no whitespace, exactly one '@' with text before it, and a '.' after the '@' with text on both sides |
| Email.IsValidEmail | src/components/LoginNew.js:19-22 | the e-mail expression matches the whole text; `IsValidEmailIffShape` characterises it |
| JsText.Trim | src/services/studentService.js:63-64 | the result is the input between its leading and trailing whitespace: no whitespace at either end, and everything removed is whitespace |
| JsText.TrimIdempotent | src/services/studentService.js:63-64 | trimming twice is trimming once |
| JsText.TrimEmptyIffAllSpace | src/services/studentService.js:63 | the trimmed text is empty exactly when every character is whitespace |
| JsText.ParseIntOfIntToString | src/context/NotificationContext.js:40 | `parseInt` reads back the decimal text of every integer |
| JsText.ParseInt | src/context/NotificationContext.js:40 | `parseInt(text, 10)`: leading whitespace skipped, one optional sign, the longest run of decimal digits; NaN when there is none; `ParseIntOfIntToString` is its round trip |
| Routing.PrivateRoute | src/App.js:44-60 | spinner whenever not initialised; otherwise `/login` without a user; `/unauthorized` exactly when a role list is given and lacks the role (so a given empty list rejects everyone); children exactly when a user is there and the list is absent or holds the role |
| Routing.Scoped | src/App.js:90-120 | each route of a role is `/<role>/<page>`, guarded by the one-role list `[role]` |
| Routing.FindRoute | src/App.js:84-123 | the entry found is in the table and has the key looked up; no entry is found only when no entry has that key (the `*` route) |
| Routing.StripTrailingSlashes | src/App.js:138-139 | the result is a prefix of the path, does not end in '/', and everything removed is '/' |
| Routing.RouterKey | src/App.js:138-139 | the key React Router v6 matches route patterns against: the path without its trailing slashes, ASCII letters lower-cased, always a normal form |
| Routing.RouterKeyIff | src/App.js:138-139 | a location is read as the normal form q exactly when it is q with some ASCII letters capitalised and some slashes appended |
| Routing.CanonicalKey | src/App.js:138-139 | a path with no capital letter and no final slash is its own key, so taking the key twice is taking it once |
| Routing.RouteTableCanonical | src/App.js:84-120 | every path of the route table is a normal form, so a location reaches the route whose path it is read as |
| Routing.LocationExamples | src/App.js:138-139 | `/Admin/Dashboard/` is read as `/admin/dashboard`, `/student/events//` as `/student/events`, and `/LOGIN/` as `/login` |
| Routing.ProtectedLayout | src/App.js:63-73 | no user redirects to `/login` before any route is looked at; otherwise the route matching the location's `RouterKey` decides |
| Routing.RouteScreen | src/App.js:84-123 | an unmatched location goes to `/login`; the unguarded route shows the notice; a guarded route shows its page exactly when its guard renders the children |
| Routing.AppContent | src/App.js:130-143 | spinner until initialised; then a location the router reads as `/login` (in any letter case, with any trailing slashes) is the login form, and every other location goes through `ProtectedLayout` |
| Routing.RouteTableRoles | src/App.js:84-120 | every route under `/<role>/` admits exactly that role; `/change-password` admits the four roles; `/unauthorized` is the only unguarded route |
| Routing.RolePageAccess | src/App.js:90-120 | on a location whose key is a path of the table under `/<role>/`, a signed-in user sees the page exactly when their role is that role, and is sent to `/unauthorized` otherwise |
| Routing.ChangePasswordAccess | src/App.js:88 | every location read as `/change-password` shows the form to each of the four roles and sends any other role to `/unauthorized` |
| Routing.SpinnerUntilInitialized | src/App.js:133-135 | before initialisation the whole application is the spinner, whoever the user and whatever the path |
| Routing.UnknownPathToLogin | src/App.js:123 | a location whose key is neither `/login` nor a path of the table is redirected to `/login`, whoever is signed in (what the login page then does is `LoginForm.UnknownPathEndsOnDashboard`) |
| Auth.BearerFrom | src/context/AuthContext.js:12-17 | `Authorization` becomes "Bearer " + the stored value exactly when that value is truthy; otherwise the headers are untouched; no other header changes |
| Auth.OutgoingHeaders | src/services/axiosConfig.js:4-15 | a truthy `token` wins; otherwise a truthy `accessToken` is sent; with neither the headers go out unchanged; no other header changes |
| Auth.AfterResponse | src/services/axiosConfig.js:23-50 | a 401 removes `token`; every other outcome leaves storage as it was; no other key is touched |
| Auth.Mounted | src/context/AuthContext.js:7-8 | a fresh provider has no user and is loading |
| Auth.Restore | src/context/AuthContext.js:26-39 | loading always ends; without a truthy `accessToken` nothing else changes; a successful `GET me/` sets the user; a failed one removes both tokens (and `token` too on a 401) and keeps the user |
| Auth.WithTokens | src/context/AuthContext.js:55-56 | `access` is stored under `accessToken` and `refresh` under `refreshToken`; nothing else changes |
| Auth.LoginStep | src/context/AuthContext.js:49-66 | resolves true exactly when both requests succeed, and then the user is the fetched record and both tokens are stored; a failed `POST login/` clears the user and re-throws its error; a failed `GET me/` clears the user, re-throws, and keeps the tokens just written |
| Auth.LogoutStep | src/context/AuthContext.js:68-72 | no user, neither token, every other key kept |
| Auth.RequestStep | src/services/axiosConfig.js:23-50 | any other request leaves user and loading alone and applies the response interceptor to storage |
| Auth.ContextLookup | src/context/AuthContext.js:74-78 | a name is defined exactly when it is `user`, `login`, `logout` or `loading`; `user` and `loading` read the state |
| Auth.IsInitializedAsWritten | src/App.js:45 | `isInitialized` read from the context as App.js reads it; `AppStuckOnSpinner` proves it is never truthy |
| Auth.ContextLookupCorrected | src/App.js:45 | the corrected context value adds `isInitialized` (true once loading has ended) and `changePassword`, and agrees with the original on its four names |
| Auth.AuthProvider.constructor | src/context/AuthContext.js:7-8 | the provider starts in the mount state |
| Auth.AuthProvider.FetchUser | src/context/AuthContext.js:26-39 | the new state is `Restore` of the old one; `GET me/` is sent, with the interceptors' headers, only when a truthy `accessToken` is stored |
| Auth.AuthProvider.Login | src/context/AuthContext.js:49-66 | state and result are `LoginStep`; the `GET me/` carries the headers computed from the storage that holds the new tokens |
| Auth.AuthProvider.Logout | src/context/AuthContext.js:68-72 | the new state is `LogoutStep` of the old one |
| Auth.AuthProvider.Send | src/services/axiosConfig.js:4-50 | the request leaves with `OutgoingHeaders`; the caller sees the outcome unchanged (errors are still rejected); storage follows `AfterResponse` |
| Auth.SessionBackedPreserved | src/context/AuthContext.js:26-72 | restore from a signed-out state, every login, every logout and every other request keep a signed-in user paired with an `accessToken` key present in storage (presence, not the truthiness `Stored` checks) |
| Auth.StaleSessionAfterUnauthorized | src/services/axiosConfig.js:35-38 | a 401 purges only `token`: the user stays signed in and, when no `token` is left, the next request still carries the old `accessToken` |
| Auth.LogoutIdempotent | src/context/AuthContext.js:68-72 | logging out twice leaves the state of logging out once |
| Auth.RestoreWithoutToken | src/context/AuthContext.js:27-38 | a restore without a truthy `accessToken` ends loading with no user and the storage untouched |
| Auth.LoginThenReload | src/context/AuthContext.js:49-60 | after a successful login, the restore of a reload keeps the storage, sends the new access token (unless `token` overrides it) and adopts the answer as the user |
| Auth.FailedLoginKeepsTokens | src/context/AuthContext.js:61-65 | a login whose `GET me/` fails (not with 401) re-throws, clears the user, and leaves the tokens already written |
| Auth.ExposesOnlyFour | src/context/AuthContext.js:75 | the context has no `isInitialized` and no `changePassword`; its four names are defined |
| Auth.AppStuckOnSpinner | src/App.js:130-135 | as written, `isInitialized` is never truthy, so the application shows the spinner for every session and path |
| Auth.AppPastSpinnerAfterRestore | src/App.js:130-143 | with the corrected context, after the restore `/login` shows the form and no path shows the spinner |
| StudentService.ConfirmationPayload | src/services/studentService.js:56-65 | the payload has `event_id` from the input and `status` "confirmed"; `note` is present exactly when the note is a string with a non-whitespace character, and then it is trimmed; no other field is copied |
| StudentService.HasNote | src/services/studentService.js:63 | a note is present, non-empty and not all whitespace; `NoteSentIffNotBlank` states it |
| StudentService.NoteSentIffNotBlank | src/services/studentService.js:63-64 | a note is sent exactly when it has a non-whitespace character, and what is sent neither starts nor ends with whitespace |
| StudentService.QueryParams | src/services/studentService.js:134-143 | the query always has `skip`, `limit` and `unread_only` from the arguments; `notification_type` is present exactly when the type is truthy; no other key |
| StudentService.NotificationParams | src/services/studentService.js:135-143 | the object built field by field is that query |
| StudentService.DefaultParams | src/services/studentService.js:134 | without arguments, the query is skip 0, limit 100, unread_only false, and no type |
| StudentService.ItemUrl | src/services/studentService.js:26 | the identifier is read back from a per-item URL by `ItemIdOf` |
| StudentService.ItemIdOf | src/services/studentService.js:26 | a URL it reads an identifier out of is that identifier's per-item URL |
| StudentService.EventUrl | src/services/studentService.js:25-26 | `getEvent`'s URL, from which the event id reads back |
| StudentService.OpportunityUrl | src/services/studentService.js:42-43 | `getOpportunity`'s URL, from which the opportunity id reads back |
| StudentService.NotificationUrl | src/services/studentService.js:148-149 | `getNotification`'s URL, from which the notification id reads back |
| StudentService.MarkReadUrl | src/services/studentService.js:152-153 | `markNotificationAsRead`'s URL, from which the notification id reads back behind `/read` |
| StudentService.NotificationsUrl | src/services/studentService.js:145 | `${API_URL}/student/notifications/`; see `FixedUrlsDistinct` |
| StudentService.UnreadCountUrl | src/services/studentService.js:157 | `${API_URL}/student/notifications/unread_count`; see `FixedUrlsDistinct` |
| StudentService.MarkAllReadUrl | src/services/studentService.js:161 | `${API_URL}/student/notifications/mark_all_read`; see `FixedUrlsDistinct` |
| StudentService.FixedUrlsDistinct | src/services/studentService.js:145-161 | the list, unread-count and mark-all URLs are pairwise different, and none is the mark-read URL of any notification |
| StudentService.ItemUrlId | src/services/studentService.js:26 | a per-item URL splits into the student base with the resource and a '/', then the identifier, then the tail |
| StudentService.ItemUrlInjective | src/services/studentService.js:26 | two per-item URLs with the same resource and tail are equal only for the same identifier |
| StudentService.UrlsInjective | src/services/studentService.js:26-153 | different events, opportunities or notifications get different URLs, including the mark-read URL |
| NotificationContext.MarkOneRead | src/context/NotificationContext.js:90-94 | same length; items with the id become read; every other item is unchanged; nothing but the read flag changes |
| NotificationContext.MarkAllRead | src/context/NotificationContext.js:117 | every item becomes read, and nothing else changes |
| NotificationContext.CountUnreadZeroIffAllRead | src/context/NotificationContext.js:117-120 | no unread item is left exactly when every item is read |
| NotificationContext.MarkAllReadLeavesNoneUnread | src/context/NotificationContext.js:117-120 | after mark-all nothing is unread, in line with the counter being set to 0 |
| NotificationContext.MarkOneReadCount | src/context/NotificationContext.js:90-97 | marking one id read lowers the unread number by exactly the unread items carrying that id |
| NotificationContext.MarkOneReadIdempotent | src/context/NotificationContext.js:90-94 | marking the same id twice is marking it once |
| NotificationContext.Decremented | src/context/NotificationContext.js:97 | the counter goes down by one but never below zero |
| NotificationContext.CountAfterFetch | src/context/NotificationContext.js:37-49 | the counter is replaced only when the body parses to a number; on NaN or a failed request it is kept |
| NotificationContext.CountAfterNumber | src/context/NotificationContext.js:40-43 | a server answering with the number n sets the counter to n |
| NotificationContext.CounterTracksList | src/context/NotificationContext.js:90-120 | when the counter equals the unread items, marking a present, unique, unread notification and marking all keep it equal |
| NotificationContext.UniqueUnreadWithId | src/context/NotificationContext.js:90-94 | an id held by exactly one unread item counts once |
| NotificationContext.NotificationProvider.constructor | src/context/NotificationContext.js:9-12 | empty list, zero counter, loading, no error |
| NotificationContext.NotificationProvider.FetchUnreadCount | src/context/NotificationContext.js:30-50 | no request and no change without a user; otherwise the counter follows `CountAfterFetch` |
| NotificationContext.NotificationProvider.FetchNotifications | src/context/NotificationContext.js:52-77 | without a user, [] and no change; otherwise the query of `getNotifications`, loading false; on success the list and the returned data are the page, the error is cleared and the counter refreshed; on failure the error message is set, [] is returned and the list is kept |
| NotificationContext.NotificationProvider.MarkAsRead | src/context/NotificationContext.js:79-104 | true exactly with a user and a successful request, and then the list is `MarkOneRead` and the counter `Decremented`; false changes nothing |
| NotificationContext.NotificationProvider.MarkAllAsRead | src/context/NotificationContext.js:106-127 | true exactly with a user and a successful request, and then everything is read and the counter is 0; false changes nothing |
| StudentNotifications.FetchErrorMessage | src/pages/student/Notifications.js:71-78 | a 401 gives the authentication message; otherwise a non-empty string body verbatim, any other truthy body as JSON, and the default message for no body, an empty one, or no response |
| StudentNotifications.QueryFor | src/pages/student/Notifications.js:43-50 | the query asks from 0 on a reset and from the current offset otherwise, with the page's limit and filter |
| StudentNotifications.FetchStep | src/pages/student/Notifications.js:32-84 | without a user, the login message and no request; a reset replaces the list and sets the offset to the limit; otherwise the page is appended and the offset advances by the limit; `hasMore` exactly when a full page came; a failure keeps the list and sets the classified message; loading ends |
| StudentNotifications.LoadMoreStep | src/pages/student/Notifications.js:246-249 | nothing happens when there is no more or a load runs; otherwise a non-reset fetch |
| StudentNotifications.FilterStep | src/pages/student/Notifications.js:86-91 | the filter is stored; a reset fetch with the new filter is made exactly when a user is signed in and the filter changed |
| StudentNotifications.OffsetInvariant | src/pages/student/Notifications.js:56-65 | while more may follow, the offset equals the number of items shown; the initial state, every successful reset, every fetch, `loadMore` and filter change keep this |
| StudentNotifications.LoadMoreAsksForNext | src/pages/student/Notifications.js:246-249 | each `loadMore` asks for the page starting right after the last item shown |
| StudentNotifications.FullPagesConcatenate | src/pages/student/Notifications.js:56-65 | `loadMore`s that bring full pages show the pages one after another, in order, the offset keeping up |
| StudentNotifications.NotificationIcon | src/pages/student/Notifications.js:206-219 | an unknown type gets the default icon, a known type never does |
| StudentNotifications.IconsDistinct | src/pages/student/Notifications.js:206-219 | event, opportunity, announcement and reminder get four different icons |
| StudentNotifications.StudentNotificationsPage.constructor | src/pages/student/Notifications.js:19-30 | empty list, loading, no filter, offset 0, limit 10, more to come |
| StudentNotifications.StudentNotificationsPage.FetchNotifications | src/pages/student/Notifications.js:32-84 | state and request are `FetchStep` |
| StudentNotifications.StudentNotificationsPage.LoadMore | src/pages/student/Notifications.js:246-249 | state and request are `LoadMoreStep` |
| StudentNotifications.StudentNotificationsPage.ChangeFilter | src/pages/student/Notifications.js:86-91 | state and request are `FilterStep` |
| StudentNotifications.StudentNotificationsPage.MarkAsRead | src/pages/student/Notifications.js:93-149 | without a user, the sign-in toast and no change; the local list and the context follow exactly when the context reports success; pagination and filter stay |
| StudentNotifications.StudentNotificationsPage.MarkAllAsRead | src/pages/student/Notifications.js:151-204 | the same for mark-all: everything read locally and in the context, and the counter 0, only on success |
| HeadNotifications.Received | src/pages/head/Notifications.js:24-27 | a rejected request or a falsy body is the empty list; otherwise the data |
| HeadNotifications.Take | src/pages/head/Notifications.js:34 | the first `min(n, length)` items, in order |
| HeadNotifications.EventItem | src/pages/head/Notifications.js:35-42 | id `event-<id>`, kind event, unread, created at the event's time or now |
| HeadNotifications.UserItem | src/pages/head/Notifications.js:49-56 | id `user-<id>`, kind user, unread, created at the user's time or now |
| HeadNotifications.Fallback | src/pages/head/Notifications.js:61-70 | the single `fallback-1` system item, unread, created now |
| HeadNotifications.Title | src/pages/head/Notifications.js:38-65 | the title of each kind of item: `New Event: <title>`, `User Activity: <name>`, or the welcome title |
| HeadNotifications.TitleInjective | src/pages/head/Notifications.js:38-65 | two items with the same title talk about the same thing |
| HeadNotifications.Message | src/pages/head/Notifications.js:39-66 | the message of each kind of item, naming the event or the user, or the welcome text |
| HeadNotifications.EventItems | src/pages/head/Notifications.js:34-43 | one item per event, in order |
| HeadNotifications.UserItems | src/pages/head/Notifications.js:48-57 | one item per user, in order |
| HeadNotifications.Collected | src/pages/head/Notifications.js:29-70 | the pushed items before sorting: the first five event items, then the first three user items, or the fallback alone; `CollectedShape` states its shape |
| HeadNotifications.Insert | src/pages/head/Notifications.js:73 | inserting adds exactly the one item |
| HeadNotifications.SortNewestFirst | src/pages/head/Notifications.js:73 | the sorted list holds exactly the items given |
| HeadNotifications.InsertKeepsOrder | src/pages/head/Notifications.js:73 | inserting into a newest-first list keeps it newest first |
| HeadNotifications.SortNewestFirstCorrect | src/pages/head/Notifications.js:73 | the sorted list is newest first and a permutation of its input |
| HeadNotifications.SortNewestFirstStable | src/pages/head/Notifications.js:73 | the sort is stable: for every time, the items created at that time come out in the order they went in |
| HeadNotifications.PushEventItems | src/pages/head/Notifications.js:33-44 | the list pushed item by item is one event item for each of the first five events, in order, and empty without events |
| HeadNotifications.PushUserItems | src/pages/head/Notifications.js:47-58 | the user loop appends one user item for each of the first three users, in order, to what is there |
| HeadNotifications.BuildNotifications | src/pages/head/Notifications.js:16-75 | the list the loops push and then sort is the sorted collection of the first five event items, the first three user items, or the fallback alone |
| HeadNotifications.CollectedShape | src/pages/head/Notifications.js:29-70 | one to eight items, each from one of the first five events or first three users or the fallback, all unread; the fallback alone exactly when both lists are empty |
| HeadNotifications.BuiltShape | src/pages/head/Notifications.js:16-75 | the same for the sorted list, which is also newest first |
| HeadNotifications.RejectedIsEmpty | src/pages/head/Notifications.js:24-27 | a rejected request counts as an empty list; two rejected requests give the fallback alone |
| HeadNotifications.MarkRead | src/pages/head/Notifications.js:98-104 | items with the id become read; every other item is unchanged |
| HeadNotifications.MarkAllRead | src/pages/head/Notifications.js:106-110 | every item becomes read, nothing else changes |
| HeadNotifications.UnreadItems | src/pages/head/Notifications.js:120 | the kept items are unread and from the list, and every unread item is kept |
| HeadNotifications.UnreadCount | src/pages/head/Notifications.js:120 | the number of unread items; `UnreadCountZeroIffAllRead` and `MarkAllReadClears` state its properties |
| HeadNotifications.UnreadCountZeroIffAllRead | src/pages/head/Notifications.js:120 | the unread count is zero exactly when every item is read |
| HeadNotifications.MarkAllReadClears | src/pages/head/Notifications.js:98-120 | after mark-all the unread count is zero; after marking one id, no unread item carries that id |
| HeadNotifications.MarkReadMonotone | src/pages/head/Notifications.js:98-104 | marking one id is idempotent and never raises the unread count |
| HeadNotifications.HeadNotificationsPage.constructor | src/pages/head/Notifications.js:7-8 | empty list, loading |
| HeadNotifications.HeadNotificationsPage.FetchData | src/pages/head/Notifications.js:15-92 | the list is the built list and loading ends |
| HeadNotifications.HeadNotificationsPage.MarkAsRead | src/pages/head/Notifications.js:98-104 | the list becomes `MarkRead` of the old one |
| HeadNotifications.HeadNotificationsPage.MarkAllAsRead | src/pages/head/Notifications.js:106-110 | the list becomes `MarkAllRead` of the old one |
| LoginForm.SubmitError | src/components/LoginNew.js:28-56 | the e-mail message exactly when the e-mail is invalid; the password message exactly when the e-mail is valid and the password short; the failed-login message exactly when both pass and `login` threw; no message exactly when both pass and `login` resolved |
| LoginForm.IsValidPassword | src/components/LoginNew.js:24-26 | at least six characters; `SubmitError` and `SubmitDisabled` use it |
| LoginForm.SubmitDisabled | src/components/LoginNew.js:214 | the button is disabled while loading, with an empty field, an invalid e-mail or a short password; `EnabledSubmitReachesLogin` and `SuccessStylingIffEnabled` state its consequences |
| LoginForm.EnabledSubmitReachesLogin | src/components/LoginNew.js:214 | a submit through the enabled button passes both checks, so only the failed-login message can result |
| LoginForm.InputClass | src/components/LoginNew.js:104-126 | plain while untouched or empty; then marked success when the value passes its check and error when it does not |
| LoginForm.SuccessStylingIffEnabled | src/components/LoginNew.js:104-126 | once both inputs are touched, both marked success is exactly an enabled button when nothing is loading |
| LoginForm.RedirectFor | src/components/LoginNew.js:59-78 | a known role goes to `/<role>/dashboard`, any other role to `/login`, and nothing happens without a user |
| LoginForm.RedirectLandsOnDashboard | src/components/LoginNew.js:59-78 | the dashboard chosen is a route the user's role may open: the application shows its page |
| LoginForm.LoginPageShown | src/App.js:138 | once initialised, `/login` shows the login form whoever is signed in |
| LoginForm.UnknownPathEndsOnDashboard | src/App.js:123-139 | a user of a known role at a location the table does not hold is redirected to `/login`, which shows the login form, whose redirect effect sends them on to `/<role>/dashboard`, and that page is shown |
| LoginForm.ClearEffectAsWritten | src/components/LoginNew.js:81-85 | the error is emptied exactly when it is set and either field holds text |
| LoginForm.ShownErrorAsWritten | src/components/LoginNew.js:28-85 | the error left after a submit: the one `handleSubmit` sets, passed through the clearing effect as written; `SubmitErrorNeverShown` states that it is empty once a field holds text |
| LoginForm.SubmitErrorNeverShown | src/components/LoginNew.js:81-85 | as written, once anything was typed, the message a submit leaves is cleared at once |
| LoginForm.SubmitErrorNeverShownExample | src/components/LoginNew.js:35-38 | the e-mail "abc" with an empty password gets the e-mail message, and it is cleared at once |
| LoginForm.ClearOnChange | src/components/LoginNew.js:80 | corrected: the error is emptied exactly when the field's value changes |
| LoginForm.ShownErrorCorrected | src/components/LoginNew.js:80-85 | corrected: the submit's message stays until a field changes, and it names the check that failed |
| LoginForm.Form.constructor | src/components/LoginNew.js:7-13 | empty fields, no error, not loading, untouched |
| LoginForm.Form.ChangeEmail | src/components/LoginNew.js:81-91 | the e-mail is set and marked touched; the handler leaves the error alone and the clearing effect then runs as written (`ClearEffectAsWritten` of the old error, the new e-mail and the password); afterwards an error is shown only while both fields are empty; nothing else changes |
| LoginForm.Form.ChangePassword | src/components/LoginNew.js:81-97 | the same for the password |
| LoginForm.Form.EmailInputClass | src/components/LoginNew.js:104-114 | the class built by appending is `InputClass` of the e-mail |
| LoginForm.Form.PasswordInputClass | src/components/LoginNew.js:116-126 | the class built by appending is `InputClass` of the password |
| LoginForm.Form.HandleSubmit | src/components/LoginNew.js:28-85 | `login` is called exactly when both checks pass; the error left is `SubmitError` after the clearing effect as written (`ShownErrorAsWritten`, so empty whenever a field holds text); the session changes only through that call; loading is false at the end; fields are kept |
| ChangePasswordForm.CallChangePassword | src/components/ChangePassword.js:26 | a function settles like the server's answer; anything else throws before any request is sent |
| ChangePasswordForm.SubmitStep | src/components/ChangePassword.js:13-36 | exactly one message is left; success only for a long enough password and a resolved call, and then both fields are emptied; on an error the fields are kept and the message is the length one for a short password and the failure one otherwise; loading ends |
| ChangePasswordForm.SubmitDisabled | src/components/ChangePassword.js:80 | disabled while loading or with either field empty; the length is not checked |
| ChangePasswordForm.EnabledSubmitOutcome | src/components/ChangePassword.js:13-36 | the button is enabled exactly when nothing is loading and both fields hold text; an enabled submit gets the length message exactly when the new password is shorter than six, and succeeds exactly when it is long enough and the call resolves |
| ChangePasswordForm.ShortPasswordSubmittable | src/components/ChangePassword.js:19-23 | the button does not check the length: a one-character new password can be submitted and is refused with the length message |
| ChangePasswordForm.ChangePasswordNeverSucceeds | src/components/ChangePassword.js:11-31 | as written, no submit succeeds, and a long enough password always gets the failure message |
| ChangePasswordForm.ChangePasswordCorrected | src/components/ChangePassword.js:25-32 | with the corrected context, success exactly when the server accepts and failure exactly when it refuses |
| ChangePasswordForm.Form.constructor | src/components/ChangePassword.js:6-10 | empty fields and messages, not loading |
| ChangePasswordForm.Form.SetOldPassword | src/components/ChangePassword.js:53 | only the old password changes |
| ChangePasswordForm.Form.SetNewPassword | src/components/ChangePassword.js:69 | only the new password changes |
| ChangePasswordForm.Form.HandleSubmit | src/components/ChangePassword.js:13-36 | the new state is `SubmitStep` of the old one |
| Sidebar.RoleMenu | src/components/Sidebar.js:9-42 | one item per entry, in order, linking to `/<role>/<page>` |
| Sidebar.MenuItems | src/components/Sidebar.js:7-46 | an unknown role gets the empty menu; admin, head and employee get five items and student seven; every link is under `/<role>/` |
| Sidebar.MenuItemsDistinct | src/components/Sidebar.js:9-42 | within each menu no two items share a label or a link |
| Sidebar.MenuLinksOpen | src/components/Sidebar.js:9-42 | every link of a user's own menu except the admin's notifications opens its page |
| Sidebar.AdminNotificationsToLogin | src/components/Sidebar.js:15 | `/admin/notifications` is on the admin menu, no route matches it, and following it redirects to `/login` |
| Sidebar.AdminNotificationsEndsOnDashboard | src/components/Sidebar.js:15 | the admin who follows that link is redirected to `/login`, which shows the login form; its redirect effect picks `/admin/dashboard`, which shows the dashboard overview |
| Sidebar.AdminDashboardShown | src/App.js:91 | an admin at `/admin/dashboard` sees `DashboardOverview` |
| Sidebar.AdminLinkAt | src/components/Sidebar.js:15 | the fifth admin link, and no other, is `/admin/notifications` |
| NotificationBadge.Badge | src/components/NotificationBadge.js:16-22 | nothing exactly when there is no user, the count is 0, or loading; "9+" exactly for a count above nine; otherwise the count's decimal text |
| NotificationBadge.BadgeReadsBack | src/components/NotificationBadge.js:22 | the badge text parses back to the count, or to nine for "9+" |

## Left out

- Real HTTP, promise scheduling and `Promise.allSettled`: each answer is an input, and the steps of one call run in order with no interleaving.
- React rendering, hooks and effect scheduling. Rendering becomes the screen shown, and navigation a returned path.
- The one-minute polling of the unread count and the effect that starts it. That effect also waits for `isInitialized`, so as written it never runs.
- The `NotificationProvider` mount. `src/App.js` never mounts it, so `useNotifications()` returns `null` there. The model assumes a mounted provider.
- The interceptors' effect on storage during notification calls. The notification models take their answers as inputs and do not thread the session storage through them.
- NotificationContext.NotificationProvider.FetchNotifications: the counter refresh that the source starts without awaiting is modelled as settled before the call returns.
- Console logging, the Swal toast timing and placement, and the password visibility toggle.
- Date formatting (`formatDate`, `formatDateTime`, the student `formatDate`). Timestamps are integers, and the head page's `new Date()` is one input `now` per load.
- HeadNotifications.BuildNotifications: the catch branch that falls back on an exception is not modelled, because no modelled step can throw.
- StudentNotifications.StudentNotificationsPage.MarkAsRead: the page's own catch branches are not modelled. The context reports failure with `false` and never throws, so they cannot be reached.
- The temporary interceptor that `createEventConfirmation` registers and ejects, and the request it sends. Only the payload is modelled.
- StudentService.ConfirmationPayload: a non-string truthy note (which makes `trim` throw) is not modelled, and neither are values of `event_id` other than strings.
- Validation.TruncateText, LoginForm.IsValidPassword, ChangePasswordForm.SubmitStep: lengths count Unicode code points, whereas JavaScript counts UTF-16 code units. The two differ for characters outside the Basic Multilingual Plane.
- Validation.IsValidUUID: a non-string is represented by its `String()` text only.
- JsText.ParseInt: the result is an exact integer. JavaScript's `parseInt` returns a double, which rounds digit strings above 2^53; counts that large are not modelled.
- Routing.RouterKey: percent-decoding of the location and the `caseSensitive` option (which no route of the table sets) are not modelled; a location is compared as given.
- LoginForm.Form.ChangeEmail, LoginForm.Form.ChangePassword, LoginForm.Form.HandleSubmit: the form follows the clearing effect as written; the corrected clearing (`ClearOnChange`) is stated and proved only as a function, not run by the form.
- The other services, the CRUD pages, the dashboards and the purely presentational components are not part of this model.

## Findings

| source | as written | input that shows it | evidently intended | confidence | as-written member | corrected member |
|---|---|---|---|---|---|---|
| src/App.js:45 | `PrivateRoute` and `AppContent` read `isInitialized`, which the provider does not expose, so it is always undefined | any session and path: the spinner is shown forever | `isInitialized` true once the restore has finished | not executed | Auth.AppStuckOnSpinner | Auth.AppPastSpinnerAfterRestore |
| src/components/ChangePassword.js:11 | `changePassword` is taken from a context that has no such member, so calling it throws | old password "a", new password "abcdef": the failure message, whatever the server would say | the provider exposes `changePassword`, and the outcome follows the server | not executed | ChangePasswordForm.ChangePasswordNeverSucceeds | ChangePasswordForm.ChangePasswordCorrected |
| src/components/LoginNew.js:81-85 | the clearing effect depends on `error` too, so it erases every error the moment it is set while either field holds text | e-mail "abc", empty password: the e-mail message is set and cleared in the next render | clear the error when the user types, as the comment on line 80 says | not executed | LoginForm.SubmitErrorNeverShown | LoginForm.ShownErrorCorrected |

A further consequence appears without a corrected member: the admin menu links to `/admin/notifications`, which has no route. Following that link redirects to `/login`, and from there the login page's redirect effect sends the admin to the dashboard (`Sidebar.AdminNotificationsEndsOnDashboard`).
