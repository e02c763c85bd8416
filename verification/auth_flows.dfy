/** How the auth pages hand data to each other through navigation state: the page a
    successful submit navigates to accepts what it is given. */
module AuthFlows {
  import opened Common
  import opened Email
  import opened Interaction
  import Signup
  import OwnerSignup
  import ForgotPassword
  import VerifyEmail
  import VerifyOtp
  import UpdatePassword

  /** After a successful signup, by either signup page, the verification page opens on
      the email that was registered and does not bounce back. */
  lemma SignupReachesVerification(p: Signup.Page, owner: bool)
    requires Signup.Acceptable(p.form)
    ensures var r := if owner then OwnerSignup.Submit(p, Ok(())) else Signup.Submit(p, Ok(()));
            var m := VerifyEmail.Mount(r.effects.nav.value.state);
            r.effects.nav.value.path == "/verify-email" && m.page.email == p.form.email && m.effects == NoEffects
  {
    MatchIsNotBlank(p.form.email);
  }

  /** After a reset code is sent, the code page opens on the same email. */
  lemma ResetCodeReachesOtpPage(p: ForgotPassword.Page)
    requires LooksLikeEmail(p.email)
    ensures var r := ForgotPassword.Submit(p, Ok(()));
            var m := VerifyOtp.Mount(r.effects.nav.value.state);
            r.effects.nav.value.path == "/verify-otp" && m.page.email == p.email && m.effects == NoEffects
  {
    MatchIsNotBlank(p.email);
  }

  /** An accepted code hands its reset token to the update page; a reply without a usable
      token sends the visitor back to the forgot-password page. */
  lemma TokenReachesUpdatePage(p: VerifyOtp.Page, token: Option<string>)
    requires |p.otp| == VerifyOtp.OtpLength
    ensures var r := VerifyOtp.Submit(p, Ok(token));
            var m := UpdatePassword.Mount(r.effects.nav.value.state);
            && r.effects.nav.value.path == "/update-password"
            && (Truthy(token) ==> m.page.resetToken == token.value && m.effects == NoEffects)
            && (!Truthy(token) ==> m.effects.nav == Some(Nav("/forgot-password", NoState)))
  {
  }
}
