/** The forgot-password page: one email field checked before a reset code is requested;
    the banner message carries the outcome. */
module ForgotPassword {
  import opened Common
  import opened Email
  import opened Interaction

  datatype Page = Page(email: string, loading: bool, message: Message)

  const EmailRequired := "Email is required"
  const EmailInvalid := "Please enter a valid email"
  const CodeSent := "Password reset code sent to your email!"
  const SendFailed := "Failed to send reset code. Please try again."

  datatype Outcome = Outcome(page: Page, effects: Effects)

  /** `handleSubmit`: blank email first, then the untrimmed email's shape; only a
      well-shaped email reaches the backend. */
  function Submit(p: Page, reply: Reply<()>): (r: Outcome)
    ensures r.page.email == p.email
    ensures r.effects.calls != [] <==> LooksLikeEmail(p.email)
    ensures Blank(p.email) ==>
      r == Outcome(p.(message := Message(Failure, EmailRequired)), NoEffects)
    ensures !Blank(p.email) && !LooksLikeEmail(p.email) ==>
      r == Outcome(p.(message := Message(Failure, EmailInvalid)), NoEffects)
    ensures LooksLikeEmail(p.email) ==>
      r.effects.calls == [ForgotPasswordCall(p.email)] && !r.page.loading
    ensures LooksLikeEmail(p.email) && reply.Ok? ==>
      r.page.message == Message(Success, CodeSent)
      && r.effects.nav == Some(Nav("/verify-otp", EmailState(p.email)))
    ensures LooksLikeEmail(p.email) && reply.Err? ==>
      r.page.message == Message(Failure, ErrorText(reply.message, SendFailed)) && r.effects.nav.None?
  {
    MatchIsNotBlank(p.email);
    if Blank(p.email) then Outcome(p.(message := Message(Failure, EmailRequired)), NoEffects)
    else if !LooksLikeEmail(p.email) then Outcome(p.(message := Message(Failure, EmailInvalid)), NoEffects)
    else
      var calls := [ForgotPasswordCall(p.email)];
      match reply
      case Ok(_) =>
        Outcome(p.(loading := false, message := Message(Success, CodeSent)),
                Effects(calls, Some(Nav("/verify-otp", EmailState(p.email)))))
      case Err(m) =>
        Outcome(p.(loading := false, message := Message(Failure, ErrorText(m, SendFailed))), Effects(calls, None))
  }
}
