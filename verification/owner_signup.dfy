/** The owner signup page: the signup form's fields, rules and error-clearing, with the
    account registered under the role `"owner"`. */
module OwnerSignup {
  import opened Common
  import opened Interaction
  import Signup

  const OwnerCreated := "Owner account created! Please verify your email."

  /** `handleSubmit` of the owner page: a request is made iff the form is acceptable, and
      every request registers an owner. */
  function Submit(p: Signup.Page, reply: Reply<()>): (r: Signup.Outcome)
    ensures r.page.errors == Signup.Validate(p.form)
    ensures r.effects.calls != [] <==> Signup.Acceptable(p.form)
    ensures forall c :: c in r.effects.calls ==> c.SignupCall? && c.role == "owner"
    ensures r.effects.nav.Some? <==> Signup.Acceptable(p.form) && reply.Ok?
    ensures r.effects.nav.Some? ==> r.effects.nav.value == Nav("/verify-email", EmailState(p.form.email))
    ensures Signup.Acceptable(p.form) && reply.Ok? ==> r.page.message == Message(Success, OwnerCreated)
  {
    Signup.SubmitAs(p, "owner", OwnerCreated, reply)
  }

  /** Both signup pages send the same request apart from the role. */
  lemma SameRequestButRole(p: Signup.Page, reply: Reply<()>)
    requires Signup.Acceptable(p.form)
    ensures var u := Signup.Submit(p, reply).effects.calls[0];
            var o := Submit(p, reply).effects.calls[0];
            u.role == "user" && o.role == "owner" && u.(role := "owner") == o
  {
  }
}
