/** src/components/ChangePassword.js: the form that changes the signed-in
    user's password through the session's `changePassword`. */
module ChangePasswordForm {
  import opened Common
  import Auth

  const ShortPasswordMessage: string := "New password must be at least 6 characters long."
  const SuccessMessage: string := "Password changed successfully!"
  const FailedMessage: string := "Failed to change password. Please check your old password."

  /** The component's state. */
  datatype FormState = FormState(oldPassword: string, newPassword: string, error: string,
                                 success: string, isLoading: bool)

  const Initial: FormState := FormState("", "", "", "", false)

  /** `await changePassword(oldPassword, newPassword)` with whatever the
      component destructured from the context under that name: a function
      settles like the server's answer `server`; anything else is not
      callable, and the call throws before a request is made. */
  function CallChangePassword(field: Auth.ContextField, server: Outcome<Body>): (o: Outcome<Body>)
    ensures field.FunctionField? ==> o == server
    ensures !field.FunctionField? ==> o.Failure? && o.err.SetupError?
  {
    if field.FunctionField? then server
    else Failure(SetupError("changePassword is not a function"))
  }

  /** `handleSubmit` (ChangePassword.js:13-36) once the call, if made, has
      settled with `call`.  Exactly one message is left; the success
      message comes only from a long enough password and a call that
      resolved, and only then are both fields emptied. */
  function SubmitStep(s: FormState, call: Outcome<Body>): (r: FormState)
    ensures !r.isLoading
    ensures r.error == "" <==> r.success != ""
    ensures r.success != "" <==> |s.newPassword| >= 6 && call.Success?
    ensures r.success != "" ==> r.success == SuccessMessage && r.oldPassword == "" && r.newPassword == ""
    ensures r.error != "" ==>
      r.oldPassword == s.oldPassword && r.newPassword == s.newPassword
      && r.error == (if |s.newPassword| < 6 then ShortPasswordMessage else FailedMessage)
  {
    if |s.newPassword| < 6 then s.(error := ShortPasswordMessage, success := "", isLoading := false)
    else if call.Success? then FormState("", "", "", SuccessMessage, false)
    else s.(error := FailedMessage, success := "", isLoading := false)
  }

  /** `disabled={isLoading || !oldPassword || !newPassword}` */
  predicate SubmitDisabled(s: FormState) {
    s.isLoading || s.oldPassword == "" || s.newPassword == ""
  }

  /** The button does not check the length: a one-character new password
      can be submitted, and is refused by `handleSubmit` itself without a
      call. */
  lemma ShortPasswordSubmittable(s: FormState, call: Outcome<Body>)
    requires !s.isLoading && s.oldPassword != "" && |s.newPassword| == 1
    ensures !SubmitDisabled(s)
    ensures SubmitStep(s, call) == s.(error := ShortPasswordMessage, success := "")
  {
  }

  /** The button checks emptiness and loading only, while `handleSubmit`
      checks the length: every non-empty pair of fields can be submitted,
      and an enabled submit gets the length message exactly when the new
      password is shorter than six characters, and succeeds exactly when
      it is long enough and the call resolves. */
  lemma EnabledSubmitOutcome(s: FormState, call: Outcome<Body>)
    ensures !s.isLoading && s.oldPassword != "" && s.newPassword != "" <==> !SubmitDisabled(s)
    ensures !SubmitDisabled(s) ==>
      (SubmitStep(s, call).error == ShortPasswordMessage <==> |s.newPassword| < 6)
      && (SubmitStep(s, call).success == SuccessMessage <==> |s.newPassword| >= 6 && call.Success?)
  {
    assert ShortPasswordMessage != FailedMessage by {
      assert |ShortPasswordMessage| != |FailedMessage|;
    }
  }

  /** As written the provider has no `changePassword`, so every submit
      ends in an error: a new password of six or more characters always
      gets the failure message, whatever the server would have answered. */
  lemma ChangePasswordNeverSucceeds(session: Auth.AuthState, s: FormState, server: Outcome<Body>)
    ensures var r := SubmitStep(s, CallChangePassword(Auth.ContextLookup(session, "changePassword"), server));
      r.success == "" && (|s.newPassword| >= 6 ==> r.error == FailedMessage)
  {
    Auth.ExposesOnlyFour(session);
  }

  /** With the corrected context value the outcome follows the server:
      success exactly when the server accepted the change. */
  lemma ChangePasswordCorrected(session: Auth.AuthState, s: FormState, server: Outcome<Body>)
    requires |s.newPassword| >= 6
    ensures var r := SubmitStep(s, CallChangePassword(Auth.ContextLookupCorrected(session, "changePassword"), server));
      (r.success == SuccessMessage <==> server.Success?)
      && (r.error == FailedMessage <==> server.Failure?)
  {
  }

  class Form {
    var oldPassword: string
    var newPassword: string
    var error: string
    var success: string
    var isLoading: bool

    function State(): FormState
      reads this
    {
      FormState(oldPassword, newPassword, error, success, isLoading)
    }

    constructor ()
      ensures State() == Initial
    {
      oldPassword := "";
      newPassword := "";
      error := "";
      success := "";
      isLoading := false;
    }

    method SetOldPassword(value: string)
      modifies this
      ensures State() == old(State()).(oldPassword := value)
    {
      oldPassword := value;
    }

    method SetNewPassword(value: string)
      modifies this
      ensures State() == old(State()).(newPassword := value)
    {
      newPassword := value;
    }

    /** `handleSubmit` with `changePassword` destructured from the context
        as `field`; `server` is what the request would settle with. */
    method HandleSubmit(field: Auth.ContextField, server: Outcome<Body>)
      modifies this
      ensures State() == SubmitStep(old(State()), CallChangePassword(field, server))
    {
      isLoading := true;
      error := "";
      success := "";
      if |newPassword| < 6 {
        error := ShortPasswordMessage;
        isLoading := false;
        return;
      }
      var outcome := CallChangePassword(field, server);
      if outcome.Success? {
        success := SuccessMessage;
        oldPassword := "";
        newPassword := "";
      } else {
        error := FailedMessage;
      }
      isLoading := false;
    }
  }
}
