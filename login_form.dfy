/** src/components/LoginNew.js: the sign-in form.  Its checks, the messages
    a submit leaves, the input styling, when the submit button is enabled,
    where a signed-in user is sent, and the effect that clears the error. */
module LoginForm {
  import opened Common
  import Email
  import Auth
  import Routing

  const InvalidEmailMessage: string := "Please enter a valid email address"
  const ShortPasswordMessage: string := "Password must be at least 6 characters long"
  const LoginFailedMessage: string := "Invalid email or password. Please try again."

  /** `isValidPassword(password)` (LoginNew.js:24-26). */
  predicate IsValidPassword(password: string) {
    |password| >= 6
  }

  /** The error `handleSubmit` leaves (LoginNew.js:28-56): the e-mail is
      checked first, then the password, and only then is `login` called,
      whose outcome is `login`.  Each message names exactly the check that
      failed. */
  function SubmitError(email: string, password: string, login: Auth.LoginResult): (m: string)
    ensures m == InvalidEmailMessage <==> !Email.IsValidEmail(email)
    ensures m == ShortPasswordMessage <==> Email.IsValidEmail(email) && !IsValidPassword(password)
    ensures m == LoginFailedMessage <==> Email.IsValidEmail(email) && IsValidPassword(password) && login.Threw?
    ensures m == "" <==> Email.IsValidEmail(email) && IsValidPassword(password) && login == Auth.ResolvedTrue
  {
    if !Email.IsValidEmail(email) then InvalidEmailMessage
    else if !IsValidPassword(password) then ShortPasswordMessage
    else if login.Threw? then LoginFailedMessage
    else ""
  }

  /** `disabled={isLoading || !email || !password || !isValidEmail(email) || !isValidPassword(password)}` */
  predicate SubmitDisabled(isLoading: bool, email: string, password: string) {
    isLoading || email == "" || password == "" || !Email.IsValidEmail(email) || !IsValidPassword(password)
  }

  /** A submit through the enabled button passes both checks and reaches
      `login`: the only error it can leave is the failed-login one. */
  lemma EnabledSubmitReachesLogin(email: string, password: string, login: Auth.LoginResult)
    requires !SubmitDisabled(false, email, password)
    ensures SubmitError(email, password, login) == if login.Threw? then LoginFailedMessage else ""
  {
  }

  /** The class one input gets: plain until touched or while empty, then
      marked by whether its value passes its check. */
  function InputClass(touched: bool, value: string, valid: bool): (c: string)
    ensures !touched || value == "" ==> c == "form-input"
    ensures touched && value != "" ==> c == if valid then "form-input success" else "form-input error"
  {
    if touched && value != "" then
      (if valid then "form-input success" else "form-input error")
    else "form-input"
  }

  /** Both inputs marked as passing, and no submit under way, is exactly
      an enabled submit button. */
  lemma SuccessStylingIffEnabled(email: string, password: string, emailTouched: bool, passwordTouched: bool)
    requires emailTouched && passwordTouched
    ensures InputClass(emailTouched, email, Email.IsValidEmail(email)) == "form-input success"
            && InputClass(passwordTouched, password, IsValidPassword(password)) == "form-input success"
            <==> !SubmitDisabled(false, email, password)
  {
  }

  /** Where the redirect effect (LoginNew.js:59-78) sends a signed-in user:
      the dashboard of a known role, the login page for any other role,
      nowhere while nobody is signed in. */
  function RedirectFor(user: Option<User>): (to: Option<string>)
    ensures user.None? ==> to.None?
    ensures user.Some? && user.value.role in Roles ==> to == Some("/" + user.value.role + "/dashboard")
    ensures user.Some? && user.value.role !in Roles ==> to == Some(Routing.LoginPath)
  {
    match user
    case None => None
    case Some(u) =>
      if u.role == Admin then assert "/admin/dashboard" == "/" + Admin + "/dashboard"; Some("/admin/dashboard")
      else if u.role == Student then assert "/student/dashboard" == "/" + Student + "/dashboard"; Some("/student/dashboard")
      else if u.role == Head then assert "/head/dashboard" == "/" + Head + "/dashboard"; Some("/head/dashboard")
      else if u.role == Employee then assert "/employee/dashboard" == "/" + Employee + "/dashboard"; Some("/employee/dashboard")
      else Some(Routing.LoginPath)
  }

  /** The dashboard the redirect picks is a route the user's own role may
      open: the application shows that page rather than another redirect. */
  lemma RedirectLandsOnDashboard(u: User)
    requires u.role in Roles
    ensures var to := RedirectFor(Some(u)).value;
      Routing.FindRoute(Routing.RouteTable, to).Some?
      && Routing.AppContent(true, Some(u), to) == Routing.Page(Routing.FindRoute(Routing.RouteTable, to).value.page)
  {
    var to := RedirectFor(Some(u)).value;
    var prefix := "/" + u.role + "/";
    assert to == prefix + "dashboard";
    assert to[..|prefix|] == prefix;
    var e: Routing.RouteEntry;
    if u.role == Admin {
      e := Routing.AdminRoutes[0];
      assert e in Routing.AdminRoutes;
    } else if u.role == Student {
      e := Routing.StudentRoutes[0];
      assert e in Routing.StudentRoutes;
    } else if u.role == Head {
      e := Routing.HeadRoutes[0];
      assert e in Routing.HeadRoutes;
    } else {
      e := Routing.EmployeeRoutes[0];
      assert e in Routing.EmployeeRoutes;
    }
    assert e in Routing.RouteTable && e.path == to;
    Routing.RouteTableCanonical();
    Routing.CanonicalKey(to);
    Routing.RolePageAccess(u, u.role, to);
  }

  /** A location read as `/login` shows the login form once the session is
      initialised, whoever is signed in; its redirect effect then takes
      over (`RedirectFor`). */
  lemma LoginPageShown(user: Option<User>)
    ensures Routing.AppContent(true, user, Routing.LoginPath) == Routing.LoginPage
  {
    Routing.GeneralPathsCanonical();
    Routing.CanonicalKey(Routing.LoginPath);
  }

  /** A signed-in user of a known role who is sent to `/login` (by the `*`
      route, for a location the table does not hold) sees the login form,
      whose redirect effect takes them on to their dashboard, and that
      dashboard is shown. */
  lemma UnknownPathEndsOnDashboard(u: User, path: string)
    requires u.role in Roles
    requires Routing.RouterKey(path) != Routing.LoginPath
    requires Routing.FindRoute(Routing.RouteTable, Routing.RouterKey(path)).None?
    ensures Routing.AppContent(true, Some(u), path) == Routing.Navigate(Routing.LoginPath)
    ensures Routing.AppContent(true, Some(u), Routing.LoginPath) == Routing.LoginPage
    ensures RedirectFor(Some(u)) == Some("/" + u.role + "/dashboard")
    ensures var to := RedirectFor(Some(u)).value;
      Routing.FindRoute(Routing.RouteTable, to).Some?
      && Routing.AppContent(true, Some(u), to) == Routing.Page(Routing.FindRoute(Routing.RouteTable, to).value.page)
  {
    Routing.UnknownPathToLogin(Some(u), path);
    LoginPageShown(Some(u));
    RedirectLandsOnDashboard(u);
  }

  // ---- the error-clearing effect ------------------------------------------

  /** The effect of LoginNew.js:81-85 as written: it runs after every render
      in which `email`, `password` or `error` changed, and empties a set
      error whenever either field holds text. */
  function ClearEffectAsWritten(error: string, email: string, password: string): (r: string)
    ensures r == "" <==> error == "" || email != "" || password != ""
    ensures r != "" ==> r == error
  {
    if error != "" && (email != "" || password != "") then "" else error
  }

  /** What the form shows after a submit, as written: `handleSubmit` sets
      the error, which changes `error`, so the effect runs straight away. */
  function ShownErrorAsWritten(email: string, password: string, login: Auth.LoginResult): (r: string)
    ensures r == "" <==> email != "" || password != "" || SubmitError(email, password, login) == ""
    ensures r != "" ==> r == SubmitError(email, password, login)
  {
    ClearEffectAsWritten(SubmitError(email, password, login), email, password)
  }

  /** As written, no submit error is ever seen once something was typed:
      it is cleared in the render that follows the submit.  With the
      e-mail "abc" and an empty password the e-mail message is erased at
      once, and so is the failed-login message for any filled-in form. */
  lemma SubmitErrorNeverShown(email: string, password: string, login: Auth.LoginResult)
    requires email != "" || password != ""
    ensures ShownErrorAsWritten(email, password, login) == ""
  {
  }

  lemma SubmitErrorNeverShownExample()
    ensures SubmitError("abc", "", Auth.ResolvedTrue) == InvalidEmailMessage
    ensures ShownErrorAsWritten("abc", "", Auth.ResolvedTrue) == ""
  {
    assert !Email.IsValidEmail("abc") by {
      Email.IsValidEmailIffShape("abc");
    }
  }

  /** The evidently intended behaviour: the error is cleared when the user
      types (a field changes), not when the error itself is set. */
  function ClearOnChange(error: string, before: string, after: string): (r: string)
    ensures r == "" <==> error == "" || before != after
    ensures r != "" ==> r == error
  {
    if before != after then "" else error
  }

  /** With clearing on change, the submit's message stays on screen until
      the next keystroke, and the message names the check that failed. */
  lemma ShownErrorCorrected(email: string, password: string, login: Auth.LoginResult, typed: string)
    ensures var m := SubmitError(email, password, login);
      ClearOnChange(m, email, email) == m && ClearOnChange(m, password, password) == m
      && (typed != email ==> ClearOnChange(m, email, typed) == "")
      && (ClearOnChange(m, email, email) == InvalidEmailMessage <==> !Email.IsValidEmail(email))
  {
  }

  // ---- the form as a component -----------------------------------------------

  class Form {
    var email: string
    var password: string
    var error: string
    var isLoading: bool
    var emailTouched: bool
    var passwordTouched: bool

    /** The state after the effect of LoginNew.js:81-85 has run: an error
        is on screen only while both fields are empty.  Each step below
        ends with that effect, and in a state that already satisfies this,
        running the effect changes nothing, so it does not matter whether
        React actually re-runs it. */
    predicate ErrorSettled()
      reads this
    {
      error == "" || (email == "" && password == "")
    }

    constructor ()
      ensures email == "" && password == "" && error == "" && !isLoading
      ensures !emailTouched && !passwordTouched
      ensures ErrorSettled()
    {
      email := "";
      password := "";
      error := "";
      isLoading := false;
      emailTouched := false;
      passwordTouched := false;
    }

    /** `handleEmailChange` (LoginNew.js:87-91): the handler sets the field
        and marks it touched; the clearing effect then runs as written. */
    method ChangeEmail(value: string)
      modifies this
      ensures email == value && emailTouched
      ensures error == ClearEffectAsWritten(old(error), value, old(password))
      ensures password == old(password) && passwordTouched == old(passwordTouched) && isLoading == old(isLoading)
      ensures ErrorSettled()
    {
      email := value;
      emailTouched := true;
      error := ClearEffectAsWritten(error, email, password);
    }

    /** `handlePasswordChange` (LoginNew.js:93-97), followed by the clearing
        effect as written. */
    method ChangePassword(value: string)
      modifies this
      ensures password == value && passwordTouched
      ensures error == ClearEffectAsWritten(old(error), old(email), value)
      ensures email == old(email) && emailTouched == old(emailTouched) && isLoading == old(isLoading)
      ensures ErrorSettled()
    {
      password := value;
      passwordTouched := true;
      error := ClearEffectAsWritten(error, email, password);
    }

    /** `getEmailInputClass` (LoginNew.js:104-114), building the class
        name by appending. */
    method EmailInputClass() returns (c: string)
      ensures c == InputClass(emailTouched, email, Email.IsValidEmail(email))
    {
      c := "form-input";
      if emailTouched {
        if email != "" && Email.IsValidEmail(email) {
          c := c + " success";
        } else if email != "" && !Email.IsValidEmail(email) {
          c := c + " error";
        }
      }
    }

    /** `getPasswordInputClass` (LoginNew.js:116-126). */
    method PasswordInputClass() returns (c: string)
      ensures c == InputClass(passwordTouched, password, IsValidPassword(password))
    {
      c := "form-input";
      if passwordTouched {
        if password != "" && IsValidPassword(password) {
          c := c + " success";
        } else if password != "" && !IsValidPassword(password) {
          c := c + " error";
        }
      }
    }

    /** `handleSubmit` against the session `auth`; `post` and `me` answer
        the login request and the current-user request that follows it.
        `loginCalled` tells whether `login` was called at all.  Every exit
        ends with the render that the new `error` triggers, in which the
        clearing effect runs as written. */
    method HandleSubmit(auth: Auth.AuthProvider, post: Outcome<Auth.Tokens>, me: Outcome<User>)
      returns (loginCalled: bool)
      modifies this, auth
      ensures loginCalled <==> Email.IsValidEmail(email) && IsValidPassword(password)
      ensures error == ShownErrorAsWritten(email, password, Auth.LoginStep(old(auth.State()), post, me).1)
      ensures ErrorSettled()
      ensures auth.State() ==
        if loginCalled then Auth.LoginStep(old(auth.State()), post, me).0 else old(auth.State())
      ensures !isLoading
      ensures email == old(email) && password == old(password)
      ensures emailTouched == old(emailTouched) && passwordTouched == old(passwordTouched)
    {
      isLoading := true;
      error := "";
      if !Email.IsValidEmail(email) {
        error := ClearEffectAsWritten(InvalidEmailMessage, email, password);
        isLoading := false;
        return false;
      }
      if !IsValidPassword(password) {
        error := ClearEffectAsWritten(ShortPasswordMessage, email, password);
        isLoading := false;
        return false;
      }
      loginCalled := true;
      var result, _ := auth.Login(post, me);
      if result.Threw? {
        error := LoginFailedMessage;
      }
      isLoading := false;
      error := ClearEffectAsWritten(error, email, password);
    }
  }
}
