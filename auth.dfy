/** The session store of src/context/AuthContext.js together with the two
    global Axios interceptors of src/services/axiosConfig.js, which every
    request of the portal passes through.  Browser storage is a map from
    key to string; each network answer is an input. */
module Auth {
  import opened Common
  import Routing

  /** `window.localStorage`. */
  type Storage = map<string, string>

  /** The headers of one outgoing request. */
  type Headers = map<string, string>

  const AccessTokenKey: string := "accessToken"
  const RefreshTokenKey: string := "refreshToken"
  /** The key the Axios interceptors read and purge; AuthContext never
      writes it. */
  const TokenKey: string := "token"
  const AuthorizationHeader: string := "Authorization"

  /** `localStorage.getItem(key)` is truthy: the key is there and its value
      is not the empty string. */
  predicate Stored(st: Storage, key: string) {
    key in st && st[key] != ""
  }

  function Bearer(token: string): string {
    "Bearer " + token
  }

  /** `a` and `b` agree on every key outside `keys`. */
  ghost predicate SameExcept(a: Storage, b: Storage, keys: set<string>) {
    forall k :: k !in keys ==> (k in a <==> k in b) && (k in a ==> a[k] == b[k])
  }

  // ---- interceptors ------------------------------------------------------

  /** One request interceptor: with a truthy value under `key`, the
      `Authorization` header becomes `Bearer <value>`; otherwise the headers
      are left as they are. */
  function BearerFrom(st: Storage, key: string, h: Headers): (r: Headers)
    ensures Stored(st, key) ==> AuthorizationHeader in r && r[AuthorizationHeader] == Bearer(st[key])
    ensures !Stored(st, key) ==> r == h
    ensures forall k :: k != AuthorizationHeader ==> (k in r <==> k in h) && (k in h ==> r[k] == h[k])
  {
    if Stored(st, key) then h[AuthorizationHeader := Bearer(st[key])] else h
  }

  /** The headers a request leaves with.  Axios runs request interceptors
      last-registered first: AuthContext's (reading `accessToken`) is
      registered when the provider mounts, after the module-level one of
      axiosConfig (reading `token`), so it runs first and axiosConfig's
      runs on its result. */
  function OutgoingHeaders(st: Storage, h: Headers): (r: Headers)
    ensures Stored(st, TokenKey) ==> AuthorizationHeader in r && r[AuthorizationHeader] == Bearer(st[TokenKey])
    ensures !Stored(st, TokenKey) && Stored(st, AccessTokenKey) ==>
      AuthorizationHeader in r && r[AuthorizationHeader] == Bearer(st[AccessTokenKey])
    ensures !Stored(st, TokenKey) && !Stored(st, AccessTokenKey) ==> r == h
    ensures forall k :: k != AuthorizationHeader ==> (k in r <==> k in h) && (k in h ==> r[k] == h[k])
  {
    BearerFrom(st, TokenKey, BearerFrom(st, AccessTokenKey, h))
  }

  /** The storage axiosConfig's response interceptor leaves behind: a 401
      removes `token`; a success, another status, a missing response or a
      setup error leave storage alone.  The outcome itself reaches the
      caller unchanged in every case. */
  function AfterResponse<T>(st: Storage, o: Outcome<T>): (r: Storage)
    ensures IsUnauthorized(o) ==> TokenKey !in r
    ensures !IsUnauthorized(o) ==> r == st
    ensures SameExcept(r, st, {TokenKey})
    ensures forall k :: k in r ==> k in st
  {
    if IsUnauthorized(o) then st - {TokenKey} else st
  }

  // ---- provider state and its steps --------------------------------------

  /** What AuthProvider holds: `user`, `loading` and the browser storage. */
  datatype AuthState = AuthState(user: Option<User>, loading: bool, storage: Storage)

  /** The provider just after it mounts: no user, still loading. */
  function Mounted(st: Storage): (s: AuthState)
    ensures s.user.None? && s.loading && s.storage == st
  {
    AuthState(None, true, st)
  }

  /** `fetchUser` (AuthContext.js:26-39).  `me` is what `GET me/` answers;
      it is only consulted when a truthy `accessToken` is stored. */
  function Restore(s: AuthState, me: Outcome<User>): (r: AuthState)
    ensures !r.loading
    ensures !Stored(s.storage, AccessTokenKey) ==> r.user == s.user && r.storage == s.storage
    ensures Stored(s.storage, AccessTokenKey) && me.Success? ==>
      r.user == Some(me.data) && r.storage == s.storage
    ensures Stored(s.storage, AccessTokenKey) && me.Failure? ==>
      r.user == s.user && AccessTokenKey !in r.storage && RefreshTokenKey !in r.storage
      && (TokenKey in r.storage <==> TokenKey in s.storage && !IsUnauthorized(me))
      && SameExcept(r.storage, s.storage, {AccessTokenKey, RefreshTokenKey, TokenKey})
  {
    if !Stored(s.storage, AccessTokenKey) then s.(loading := false)
    else
      var st := AfterResponse(s.storage, me);
      match me
      case Success(u) => AuthState(Some(u), false, st)
      case Failure(_) => AuthState(s.user, false, st - {AccessTokenKey} - {RefreshTokenKey})
  }

  /** The JSON body of a successful `POST login/`. */
  datatype Tokens = Tokens(access: string, refresh: string)

  /** How `login` settles: it resolves to `true`, or re-throws the error of
      whichever request failed. */
  datatype LoginResult = ResolvedTrue | Threw(err: HttpFailure)

  /** The storage after a successful `POST login/`, before `GET me/`. */
  function WithTokens(st: Storage, t: Tokens): (r: Storage)
    ensures AccessTokenKey in r && r[AccessTokenKey] == t.access
    ensures RefreshTokenKey in r && r[RefreshTokenKey] == t.refresh
    ensures SameExcept(r, st, {AccessTokenKey, RefreshTokenKey})
  {
    st[AccessTokenKey := t.access][RefreshTokenKey := t.refresh]
  }

  /** `login(email, password)` (AuthContext.js:49-66): `post` is the answer
      to `POST login/`, `me` the answer to the `GET me/` that follows it. */
  function LoginStep(s: AuthState, post: Outcome<Tokens>, me: Outcome<User>): (r: (AuthState, LoginResult))
    ensures r.0.loading == s.loading
    ensures r.1 == ResolvedTrue <==> post.Success? && me.Success?
    ensures r.1 == ResolvedTrue ==> r.0.user == Some(me.data) && r.0.storage == WithTokens(s.storage, post.data)
    ensures post.Failure? ==> r == (s.(user := None, storage := AfterResponse(s.storage, post)), Threw(post.err))
    ensures post.Success? && me.Failure? ==>
      r.0.user.None? && r.1 == Threw(me.err)
      && r.0.storage == AfterResponse(WithTokens(s.storage, post.data), me)
  {
    match post
    case Failure(e) => (s.(user := None, storage := AfterResponse(s.storage, post)), Threw(e))
    case Success(t) =>
      var st := WithTokens(s.storage, t);
      match me
      case Success(u) => (s.(user := Some(u), storage := st), ResolvedTrue)
      case Failure(e) => (s.(user := None, storage := AfterResponse(st, me)), Threw(e))
  }

  /** `logout()` (AuthContext.js:68-72). */
  function LogoutStep(s: AuthState): (r: AuthState)
    ensures r.user.None? && r.loading == s.loading
    ensures AccessTokenKey !in r.storage && RefreshTokenKey !in r.storage
    ensures SameExcept(r.storage, s.storage, {AccessTokenKey, RefreshTokenKey})
  {
    AuthState(None, s.loading, s.storage - {AccessTokenKey} - {RefreshTokenKey})
  }

  /** Any other request made through Axios while the provider is mounted:
      only the response interceptor touches the state. */
  function RequestStep<T>(s: AuthState, o: Outcome<T>): (r: AuthState)
    ensures r.user == s.user && r.loading == s.loading
    ensures r.storage == AfterResponse(s.storage, o)
  {
    s.(storage := AfterResponse(s.storage, o))
  }

  // ---- what the provider exposes -----------------------------------------

  /** One property of the context value, as a consumer destructures it. */
  datatype ContextField = UserField(user: Option<User>) | FunctionField | FlagField(flag: bool) | Undefined

  /** The names in the context value (AuthContext.js:75). */
  const ExposedNames: set<string> := {"user", "login", "logout", "loading"}

  /** `useAuth()[name]`. */
  function ContextLookup(s: AuthState, name: string): (f: ContextField)
    ensures f.Undefined? <==> name !in ExposedNames
    ensures name == "user" ==> f == UserField(s.user)
    ensures name == "loading" ==> f == FlagField(s.loading)
  {
    if name == "user" then UserField(s.user)
    else if name == "login" || name == "logout" then FunctionField
    else if name == "loading" then FlagField(s.loading)
    else Undefined
  }

  /** JavaScript truthiness of a context property. */
  predicate Truthy(f: ContextField) {
    match f
    case UserField(u) => u.Some?
    case FunctionField => true
    case FlagField(b) => b
    case Undefined => false
  }

  /** `isInitialized` as App.js reads it (App.js:45,131): a name the
      provider does not expose. */
  predicate IsInitializedAsWritten(s: AuthState) {
    Truthy(ContextLookup(s, "isInitialized"))
  }

  /** The context value with the two names its consumers read added:
      `isInitialized`, which evidently stands for "the restore has
      finished", and `changePassword`, a function. */
  const ExposedNamesCorrected: set<string> := ExposedNames + {"isInitialized", "changePassword"}

  function ContextLookupCorrected(s: AuthState, name: string): (f: ContextField)
    ensures f.Undefined? <==> name !in ExposedNamesCorrected
    ensures name in ExposedNames ==> f == ContextLookup(s, name)
    ensures name == "isInitialized" ==> f == FlagField(!s.loading)
    ensures name == "changePassword" ==> f == FunctionField
  {
    if name == "isInitialized" then FlagField(!s.loading)
    else if name == "changePassword" then FunctionField
    else ContextLookup(s, name)
  }

  /** `isInitialized` read from the corrected context value. */
  predicate IsInitializedCorrected(s: AuthState) {
    Truthy(ContextLookupCorrected(s, "isInitialized"))
  }

  // ---- the provider as a stateful object ---------------------------------

  class AuthProvider {
    var user: Option<User>
    var loading: bool
    var storage: Storage

    function State(): AuthState
      reads this
    {
      AuthState(user, loading, storage)
    }

    constructor (st: Storage)
      ensures State() == Mounted(st)
    {
      user := None;
      loading := true;
      storage := st;
    }

    /** The mount effect's `fetchUser`; `sent` holds the headers of
        `GET me/` when that request is made. */
    method FetchUser(me: Outcome<User>) returns (sent: Option<Headers>)
      modifies this
      ensures State() == Restore(old(State()), me)
      ensures sent == if Stored(old(storage), AccessTokenKey) then Some(OutgoingHeaders(old(storage), map[])) else None
    {
      sent := None;
      if Stored(storage, AccessTokenKey) {
        sent := Some(OutgoingHeaders(storage, map[]));
        storage := AfterResponse(storage, me);
        if me.Success? {
          user := Some(me.data);
        } else {
          storage := storage - {AccessTokenKey};
          storage := storage - {RefreshTokenKey};
        }
      }
      loading := false;
    }

    /** `login`; `sentMe` holds the headers of the `GET me/` made after the
        tokens were stored. */
    method Login(post: Outcome<Tokens>, me: Outcome<User>) returns (result: LoginResult, sentMe: Option<Headers>)
      modifies this
      ensures (State(), result) == LoginStep(old(State()), post, me)
      ensures sentMe == if post.Success? then Some(OutgoingHeaders(WithTokens(old(storage), post.data), map[])) else None
    {
      sentMe := None;
      storage := AfterResponse(storage, post);
      if post.Failure? {
        user := None;
        result := Threw(post.err);
        return;
      }
      storage := storage[AccessTokenKey := post.data.access];
      storage := storage[RefreshTokenKey := post.data.refresh];
      sentMe := Some(OutgoingHeaders(storage, map[]));
      storage := AfterResponse(storage, me);
      if me.Success? {
        user := Some(me.data);
        result := ResolvedTrue;
      } else {
        user := None;
        result := Threw(me.err);
      }
    }

    method Logout()
      modifies this
      ensures State() == LogoutStep(old(State()))
    {
      storage := storage - {AccessTokenKey};
      storage := storage - {RefreshTokenKey};
      user := None;
    }

    /** Any other request: the headers it leaves with and the outcome the
        caller sees. */
    method Send<T>(h: Headers, o: Outcome<T>) returns (sent: Headers, seen: Outcome<T>)
      modifies this
      ensures sent == OutgoingHeaders(old(storage), h) && seen == o
      ensures State() == RequestStep(old(State()), o)
    {
      sent := OutgoingHeaders(storage, h);
      storage := AfterResponse(storage, o);
      seen := o;
    }
  }

  // ---- properties ---------------------------------------------------------

  /** A signed-in user always has an `accessToken` entry behind it. */
  predicate SessionBacked(s: AuthState) {
    s.user.Some? ==> AccessTokenKey in s.storage
  }

  /** The restore run from the mount state, every login, every logout and
      every other request keep a signed-in user backed by a stored token. */
  lemma SessionBackedPreserved<T>(s: AuthState, me: Outcome<User>, post: Outcome<Tokens>, o: Outcome<T>)
    ensures s.user.None? ==> SessionBacked(Restore(s, me))
    ensures SessionBacked(LoginStep(s, post, me).0)
    ensures SessionBacked(LogoutStep(s))
    ensures SessionBacked(s) ==> SessionBacked(RequestStep(s, o))
  {
    var r := RequestStep(s, o);
    if r.user.Some? && SessionBacked(s) {
      assert AccessTokenKey != TokenKey;
      assert AccessTokenKey in s.storage;
    }
  }

  /** A 401 on any request removes only `token`: the `accessToken` that
      AuthContext wrote survives, the user stays signed in, and the next
      request still carries it when no `token` exists. */
  lemma StaleSessionAfterUnauthorized<T>(s: AuthState, o: Outcome<T>, h: Headers)
    requires IsUnauthorized(o) && Stored(s.storage, AccessTokenKey)
    ensures var r := RequestStep(s, o);
      r.user == s.user && Stored(r.storage, AccessTokenKey)
      && r.storage[AccessTokenKey] == s.storage[AccessTokenKey]
      && OutgoingHeaders(r.storage, h)[AuthorizationHeader] == Bearer(s.storage[AccessTokenKey])
  {
    var r := RequestStep(s, o);
    assert AccessTokenKey != TokenKey;
    assert AccessTokenKey in r.storage;
    assert !Stored(r.storage, TokenKey);
  }

  /** Logging out twice leaves the state of logging out once. */
  lemma LogoutIdempotent(s: AuthState)
    ensures LogoutStep(LogoutStep(s)) == LogoutStep(s)
  {
    var once := LogoutStep(s).storage;
    assert once - {AccessTokenKey} - {RefreshTokenKey} == once;
  }

  /** A restore without a truthy `accessToken` makes no request: the user
      and storage are as they were and loading ends. */
  lemma RestoreWithoutToken(st: Storage, me: Outcome<User>)
    requires !Stored(st, AccessTokenKey)
    ensures Restore(Mounted(st), me) == AuthState(None, false, st)
  {
  }

  /** After a successful login with a non-empty access token, reloading
      the page restores the same session: the `GET me/` of the restore is
      made, carries the token (unless a `token` entry overrides it) and its
      answer becomes the user. */
  lemma LoginThenReload(s: AuthState, t: Tokens, me: Outcome<User>, me2: User)
    requires me.Success? && t.access != ""
    ensures var after := LoginStep(s, Success(t), me).0;
      var reloaded := Restore(Mounted(after.storage), Success(me2));
      after.user == Some(me.data) && reloaded.user == Some(me2) && !reloaded.loading
      && reloaded.storage == after.storage
      && (!Stored(after.storage, TokenKey) ==>
            OutgoingHeaders(after.storage, map[])[AuthorizationHeader] == Bearer(t.access))
  {
    var after := LoginStep(s, Success(t), me).0;
    assert Stored(after.storage, AccessTokenKey);
  }

  /** A failed login leaves the tokens it already wrote. */
  lemma FailedLoginKeepsTokens(s: AuthState, t: Tokens, e: HttpFailure)
    requires StatusOf(e) != Some(401)
    ensures var r := LoginStep(s, Success(t), Failure(e));
      r.1 == Threw(e) && r.0.user.None?
      && r.0.storage[AccessTokenKey] == t.access && r.0.storage[RefreshTokenKey] == t.refresh
  {
  }

  /** The context has no `isInitialized` and no `changePassword`. */
  lemma ExposesOnlyFour(s: AuthState)
    ensures ContextLookup(s, "isInitialized") == Undefined
    ensures ContextLookup(s, "changePassword") == Undefined
    ensures forall n :: n in ExposedNames ==> ContextLookup(s, n) != Undefined
  {
  }

  /** As written, App.js never leaves the spinner: whatever the session
      and the location, the screen is the loading spinner. */
  lemma AppStuckOnSpinner(s: AuthState, path: string)
    ensures !IsInitializedAsWritten(s)
    ensures Routing.AppContent(IsInitializedAsWritten(s), s.user, path) == Routing.Spinner
  {
  }

  /** With `isInitialized` read as "loading has finished", the restore
      always ends with the application past the spinner: `/login` shows
      the login form, and a restored user reaches the routes. */
  lemma AppPastSpinnerAfterRestore(s: AuthState, me: Outcome<User>, path: string)
    ensures var r := Restore(s, me);
      IsInitializedCorrected(r)
      && Routing.AppContent(IsInitializedCorrected(r), r.user, Routing.LoginPath) == Routing.LoginPage
      && Routing.AppContent(IsInitializedCorrected(r), r.user, path) != Routing.Spinner
  {
    var r := Restore(s, me);
    Routing.GeneralPathsCanonical();
    Routing.CanonicalKey(Routing.LoginPath);
    if Routing.RouterKey(path) != Routing.LoginPath && r.user.Some? {
      var found := Routing.FindRoute(Routing.RouteTable, Routing.RouterKey(path));
      assert Routing.AppContent(true, r.user, path) == Routing.RouteScreen(true, r.user, found);
    }
  }
}
