/** The signup page: a name/email/password form with a field-scoped error map. The same
    rules serve the owner signup page, which differs only in the role it registers. */
module Signup {
  import opened Common
  import opened Email
  import opened Interaction

  datatype Field = Name | EmailField | Password

  datatype Form = Form(name: string, email: string, password: string)

  datatype Page = Page(form: Form, errors: map<Field, string>, loading: bool, message: Message)

  const Initial := Page(Form("", "", ""), map[], false, NoMessage)

  const NameRequired := "Name is required"
  const EmailRequired := "Email is required"
  const EmailInvalid := "Email is invalid"
  const PasswordRequired := "Password is required"
  const PasswordTooShort := "Password must be at least 6 characters"

  const MinPasswordLength := 6

  /** What an acceptable submission looks like, stated without the error map. */
  predicate Acceptable(f: Form) {
    !Blank(f.name) && LooksLikeEmail(f.email) && |f.password| >= MinPasswordLength
  }

  /** `validateForm`: one message per offending field; for each field the "required"
      check takes precedence over the shape or length check. */
  function Validate(f: Form): (errors: map<Field, string>)
    ensures Name in errors <==> Blank(f.name)
    ensures Name in errors ==> errors[Name] == NameRequired
    ensures EmailField in errors <==> !LooksLikeEmail(f.email)
    ensures EmailField in errors ==>
      errors[EmailField] == (if Blank(f.email) then EmailRequired else EmailInvalid)
    ensures Password in errors <==> |f.password| < MinPasswordLength
    ensures Password in errors ==>
      errors[Password] == (if f.password == "" then PasswordRequired else PasswordTooShort)
    ensures errors == map[] <==> Acceptable(f)
  {
    MatchIsNotBlank(f.email);
    var e1: map<Field, string> := if Blank(f.name) then map[Name := NameRequired] else map[];
    var e2 :=
      if Blank(f.email) then e1[EmailField := EmailRequired]
      else if !LooksLikeEmail(f.email) then e1[EmailField := EmailInvalid]
      else e1;
    var e3 :=
      if f.password == "" then e2[Password := PasswordRequired]
      else if |f.password| < MinPasswordLength then e2[Password := PasswordTooShort]
      else e2;
    assert e3 == map[] <==> Acceptable(f) by {
      if e3 != map[] {
        var k :| k in e3;
        assert k == Name || k == EmailField || k == Password;
      }
      if !Acceptable(f) {
        assert Name in e3 || EmailField in e3 || Password in e3;
      }
    }
    e3
  }

  /** `handleChange`: updates one field and clears that field's shown error only. */
  function Change(p: Page, field: Field, value: string): (r: Page)
    ensures field == Name ==> r.form == p.form.(name := value)
    ensures field == EmailField ==> r.form == p.form.(email := value)
    ensures field == Password ==> r.form == p.form.(password := value)
    ensures r.errors.Keys == p.errors.Keys
    ensures field in r.errors ==> r.errors[field] == ""
    ensures forall f :: f in p.errors && f != field ==> r.errors[f] == p.errors[f]
    ensures r.loading == p.loading && r.message == p.message
  {
    var form := match field
      case Name => p.form.(name := value)
      case EmailField => p.form.(email := value)
      case Password => p.form.(password := value);
    p.(form := form, errors := ClearError(p.errors, field))
  }

  /** The result of a submit: the page and what it did. */
  datatype Outcome = Outcome(page: Page, effects: Effects)

  /** `handleSubmit` registering `role`, shared by both signup pages. An invalid form
      stores its errors and stops without a request. */
  function SubmitAs(p: Page, role: string, successText: string, reply: Reply<()>): (r: Outcome)
    ensures r.page.errors == Validate(p.form) && r.page.form == p.form
    ensures !Acceptable(p.form) ==> r.effects == NoEffects && r.page == p.(errors := Validate(p.form))
    ensures Acceptable(p.form) ==>
      && r.effects.calls == [SignupCall(p.form.email, p.form.password, p.form.name, role)]
      && !r.page.loading
    ensures Acceptable(p.form) && reply.Ok? ==>
      r.page.message == Message(Success, successText)
      && r.effects.nav == Some(Nav("/verify-email", EmailState(p.form.email)))
    ensures Acceptable(p.form) && reply.Err? ==>
      r.page.message == Message(Failure, ErrorText(reply.message, "Signup failed. Please try again."))
      && r.effects.nav.None?
  {
    var errors := Validate(p.form);
    var checked := p.(errors := errors);
    if errors != map[] then Outcome(checked, NoEffects)
    else
      var call := [SignupCall(p.form.email, p.form.password, p.form.name, role)];
      match reply
      case Ok(_) =>
        Outcome(checked.(loading := false, message := Message(Success, successText)),
                Effects(call, Some(Nav("/verify-email", EmailState(p.form.email)))))
      case Err(m) =>
        Outcome(checked.(loading := false, message := Message(Failure, ErrorText(m, "Signup failed. Please try again."))),
                Effects(call, None))
  }

  const SignupSucceeded := "Signup successful! Please verify your email."

  /** The signup page's `handleSubmit`: the service's default role `"user"` is used. */
  function Submit(p: Page, reply: Reply<()>): (r: Outcome)
    ensures r.effects.calls != [] <==> Acceptable(p.form)
    ensures forall c :: c in r.effects.calls ==> c == SignupCall(p.form.email, p.form.password, p.form.name, "user")
    ensures r.effects.nav.Some? <==> Acceptable(p.form) && reply.Ok?
  {
    SubmitAs(p, "user", SignupSucceeded, reply)
  }
}
