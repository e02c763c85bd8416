/** The new-password page: it needs the reset token handed over by the code page, and
    checks the new password and its confirmation independently. */
module UpdatePassword {
  import opened Common
  import opened Interaction

  datatype Field = NewPassword | ConfirmPassword

  datatype Form = Form(newPassword: string, confirmPassword: string)

  datatype Page = Page(form: Form, resetToken: string, errors: map<Field, string>, loading: bool, message: Message)

  const MinPasswordLength := 6
  const PasswordRequired := "Password is required"
  const PasswordTooShort := "Password must be at least 6 characters"
  const ConfirmRequired := "Please confirm your password"
  const Mismatch := "Passwords do not match"
  const Updated := "Password updated successfully!"
  const UpdateFailed := "Failed to update password. Please try again."

  datatype Outcome = Outcome(page: Page, effects: Effects)

  /** The mount effect: without a reset token in the navigation state the visitor is
      sent to the forgot-password page. */
  function Mount(state: NavState): (r: Outcome)
    ensures NavResetToken(state).Some? ==>
      r.page.resetToken == NavResetToken(state).value && r.page.resetToken != "" && r.effects == NoEffects
    ensures NavResetToken(state).None? ==>
      r.page.resetToken == "" && r.effects == Effects([], Some(Nav("/forgot-password", NoState)))
    ensures r.page.form == Form("", "") && r.page.errors == map[] && !r.page.loading
  {
    var p := Page(Form("", ""), "", map[], false, NoMessage);
    match NavResetToken(state)
    case Some(t) => Outcome(p.(resetToken := t), NoEffects)
    case None => Outcome(p, Effects([], Some(Nav("/forgot-password", NoState))))
  }

  /** An acceptable pair: a long enough password, confirmed exactly. */
  predicate Acceptable(f: Form) {
    |f.newPassword| >= MinPasswordLength && f.confirmPassword == f.newPassword
  }

  /** `validateForm`: each field has its own error, so both can be reported at once;
      a mismatch is reported on the confirmation only. */
  function Validate(f: Form): (errors: map<Field, string>)
    ensures NewPassword in errors <==> |f.newPassword| < MinPasswordLength
    ensures NewPassword in errors ==>
      errors[NewPassword] == (if f.newPassword == "" then PasswordRequired else PasswordTooShort)
    ensures ConfirmPassword in errors <==> f.confirmPassword != f.newPassword || f.confirmPassword == ""
    ensures ConfirmPassword in errors ==>
      errors[ConfirmPassword] == (if f.confirmPassword == "" then ConfirmRequired else Mismatch)
    ensures errors == map[] <==> Acceptable(f)
  {
    var e1: map<Field, string> :=
      if f.newPassword == "" then map[NewPassword := PasswordRequired]
      else if |f.newPassword| < MinPasswordLength then map[NewPassword := PasswordTooShort]
      else map[];
    var e2 :=
      if f.confirmPassword == "" then e1[ConfirmPassword := ConfirmRequired]
      else if f.newPassword != f.confirmPassword then e1[ConfirmPassword := Mismatch]
      else e1;
    assert e2 == map[] <==> Acceptable(f) by {
      if e2 != map[] {
        var k :| k in e2;
        assert k == NewPassword || k == ConfirmPassword;
      }
      if !Acceptable(f) {
        assert NewPassword in e2 || ConfirmPassword in e2;
      }
    }
    e2
  }

  /** A too-short password with no confirmation yields both errors. */
  lemma BothErrorsAtOnce()
    ensures Validate(Form("abc", "")) == map[NewPassword := PasswordTooShort, ConfirmPassword := ConfirmRequired]
  {
  }

  /** `handleChange`: updates one field and clears that field's shown error only. */
  function Change(p: Page, field: Field, value: string): (r: Page)
    ensures field == NewPassword ==> r.form == p.form.(newPassword := value)
    ensures field == ConfirmPassword ==> r.form == p.form.(confirmPassword := value)
    ensures r.errors.Keys == p.errors.Keys
    ensures field in r.errors ==> r.errors[field] == ""
    ensures forall f :: f in p.errors && f != field ==> r.errors[f] == p.errors[f]
    ensures r.resetToken == p.resetToken
  {
    var form := if field == NewPassword then p.form.(newPassword := value) else p.form.(confirmPassword := value);
    p.(form := form, errors := ClearError(p.errors, field))
  }

  /** `handleSubmit`: sends the stored token with the new password. */
  function Submit(p: Page, reply: Reply<()>): (r: Outcome)
    ensures r.page.errors == Validate(p.form) && r.page.form == p.form
    ensures !Acceptable(p.form) ==> r.effects == NoEffects && r.page == p.(errors := Validate(p.form))
    ensures Acceptable(p.form) ==>
      r.effects.calls == [UpdatePasswordCall(p.resetToken, p.form.newPassword)] && !r.page.loading
    ensures Acceptable(p.form) && reply.Ok? ==>
      r.page.message == Message(Success, Updated) && r.effects.nav == Some(Nav("/login", NoState))
    ensures Acceptable(p.form) && reply.Err? ==>
      r.page.message == Message(Failure, ErrorText(reply.message, UpdateFailed)) && r.effects.nav.None?
  {
    var errors := Validate(p.form);
    var checked := p.(errors := errors);
    if errors != map[] then Outcome(checked, NoEffects)
    else
      var calls := [UpdatePasswordCall(p.resetToken, p.form.newPassword)];
      match reply
      case Ok(_) =>
        Outcome(checked.(loading := false, message := Message(Success, Updated)), Effects(calls, Some(Nav("/login", NoState))))
      case Err(m) =>
        Outcome(checked.(loading := false, message := Message(Failure, ErrorText(m, UpdateFailed))), Effects(calls, None))
  }
}
