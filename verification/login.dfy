/** The login page: email and password checks, then the session's `login`, then a
    redirect chosen by the signed-in user's role. */
module Login {
  import opened Common
  import opened Entities
  import opened Email
  import opened Interaction
  import Session
  import Router

  datatype Field = EmailField | Password

  datatype Form = Form(email: string, password: string)

  datatype Page = Page(form: Form, errors: map<Field, string>, loading: bool, message: Message)

  const EmailRequired := "Email is required"
  const EmailInvalid := "Email is invalid"
  const PasswordRequired := "Password is required"
  const LoginFailed := "Login failed. Please check your credentials."
  const LoginSucceeded := "Login successful! Redirecting..."

  /** The login form only requires a well-shaped email and some password. */
  predicate Acceptable(f: Form) {
    LooksLikeEmail(f.email) && f.password != ""
  }

  /** `validateForm`: email required before shape; the password is only required, with
      no minimum length. */
  function Validate(f: Form): (errors: map<Field, string>)
    ensures EmailField in errors <==> !LooksLikeEmail(f.email)
    ensures EmailField in errors ==>
      errors[EmailField] == (if Blank(f.email) then EmailRequired else EmailInvalid)
    ensures Password in errors <==> f.password == ""
    ensures Password in errors ==> errors[Password] == PasswordRequired
    ensures errors == map[] <==> Acceptable(f)
  {
    MatchIsNotBlank(f.email);
    var e1: map<Field, string> :=
      if Blank(f.email) then map[EmailField := EmailRequired]
      else if !LooksLikeEmail(f.email) then map[EmailField := EmailInvalid]
      else map[];
    var e2 := if f.password == "" then e1[Password := PasswordRequired] else e1;
    assert e2 == map[] <==> Acceptable(f) by {
      if e2 != map[] {
        var k :| k in e2;
        assert k == EmailField || k == Password;
      }
      if !Acceptable(f) {
        assert EmailField in e2 || Password in e2;
      }
    }
    e2
  }

  /** `handleChange`: updates one field and clears that field's shown error only. */
  function Change(p: Page, field: Field, value: string): (r: Page)
    ensures field == EmailField ==> r.form == p.form.(email := value)
    ensures field == Password ==> r.form == p.form.(password := value)
    ensures r.errors.Keys == p.errors.Keys
    ensures field in r.errors ==> r.errors[field] == ""
    ensures forall f :: f in p.errors && f != field ==> r.errors[f] == p.errors[f]
  {
    var form := if field == EmailField then p.form.(email := value) else p.form.(password := value);
    p.(form := form, errors := ClearError(p.errors, field))
  }

  /** Where a successful login leads: `/owner` for an owner, `/` for anyone else,
      including when no user came back. */
  function Destination(me: Option<User>): (path: string)
    ensures path == "/owner" <==> IsOwner(me)
    ensures path == "/" <==> !IsOwner(me)
  {
    if IsOwner(me) then "/owner" else "/"
  }

  datatype Outcome = Outcome(page: Page, session: Session.Session, effects: Effects)

  /** `handleSubmit`. */
  function Submit(p: Page, s: Session.Session, loginReply: Reply<()>, checkReply: Reply<Option<User>>): (r: Outcome)
    ensures r.page.errors == Validate(p.form) && r.page.form == p.form
    ensures !Acceptable(p.form) ==>
      r.effects == NoEffects && r.session == s && r.page == p.(errors := Validate(p.form))
    ensures Acceptable(p.form) ==>
      var l := Session.Login(s, p.form.email, p.form.password, loginReply, checkReply);
      r.session == l.session && r.effects.calls == l.calls && !r.page.loading
    ensures Acceptable(p.form) && loginReply.Err? ==>
      r.session == s && r.effects.nav.None?
      && r.page.message == Message(Failure, ErrorText(loginReply.message, LoginFailed))
    ensures Acceptable(p.form) && loginReply.Ok? ==>
      var me := Session.CheckAuthStatus(s, checkReply).me;
      r.effects.nav == Some(Nav(Destination(me), NoState))
      && r.page.message == Message(Success, LoginSucceeded)
  {
    var errors := Validate(p.form);
    var checked := p.(errors := errors);
    if errors != map[] then Outcome(checked, s, NoEffects)
    else
      var l := Session.Login(s, p.form.email, p.form.password, loginReply, checkReply);
      match l.result
      case Ok(me) =>
        Outcome(checked.(loading := false, message := Message(Success, LoginSucceeded)),
                l.session, Effects(l.calls, Some(Nav(Destination(me), NoState))))
      case Err(m) =>
        Outcome(checked.(loading := false, message := Message(Failure, ErrorText(m, LoginFailed))),
                l.session, Effects(l.calls, None))
  }

  /** Signing in from any reachable session, the redirect always ends on a page the
      router shows: an owner's `/owner` is not routed and falls back to the home page, and
      a login whose session check failed ends on the login page again. A session that is
      already signed in skips the check and lands on the home page. */
  lemma RedirectSettles(p: Page, s: Session.Session, loginReply: Reply<()>, checkReply: Reply<Option<User>>)
    requires Session.Consistent(s)
    requires Acceptable(p.form) && loginReply.Ok?
    ensures var r := Submit(p, s, loginReply, checkReply);
            var landing := Router.Settle(r.session.loading, r.session.isAuthenticated, r.effects.nav.value.path, 2);
            landing == Router.Show(if s.isAuthenticated || checkReply.Ok? then Router.HomePage else Router.LoginPage)
  {
    var r := Submit(p, s, loginReply, checkReply);
    Router.OwnerPathIsNotRouted(r.session.isAuthenticated);
    assert Router.BusinessPlaceId("/").None?;
    assert Router.BusinessPlaceId("/login").None?;
  }
}
