/** The email verification page reached after signup: it needs the email from the
    navigation state and a code of exactly six characters. */
module VerifyEmail {
  import opened Common
  import opened Interaction

  datatype Page = Page(email: string, otp: string, loading: bool, message: Message)

  const OtpLength := 6
  const BadOtp := "Please enter a valid 6-digit OTP"
  const Verified := "Email verified successfully!"
  const VerifyFailed := "Verification failed. Please try again."
  const ResendInfo := "Resend functionality coming soon!"

  datatype Outcome = Outcome(page: Page, effects: Effects)

  /** The mount effect: without an email in the navigation state the visitor is sent
      back to the signup page. */
  function Mount(state: NavState): (r: Outcome)
    ensures NavEmail(state).Some? ==> r.page.email == NavEmail(state).value && r.effects == NoEffects
    ensures NavEmail(state).None? ==> r.page.email == "" && r.effects == Effects([], Some(Nav("/signup", NoState)))
    ensures r.page.otp == "" && !r.page.loading && r.page.message == NoMessage
  {
    var p := Page("", "", false, NoMessage);
    match NavEmail(state)
    case Some(e) => Outcome(p.(email := e), NoEffects)
    case None => Outcome(p, Effects([], Some(Nav("/signup", NoState))))
  }

  /** `handleSubmit`: only the code's length is checked, not that it is made of digits. */
  function Submit(p: Page, reply: Reply<()>): (r: Outcome)
    ensures r.page.email == p.email && r.page.otp == p.otp
    ensures r.effects.calls != [] <==> |p.otp| == OtpLength
    ensures |p.otp| != OtpLength ==> r == Outcome(p.(message := Message(Failure, BadOtp)), NoEffects)
    ensures |p.otp| == OtpLength ==> r.effects.calls == [VerifyEmailCall(p.email, p.otp)] && !r.page.loading
    ensures |p.otp| == OtpLength && reply.Ok? ==>
      r.page.message == Message(Success, Verified) && r.effects.nav == Some(Nav("/login", NoState))
    ensures |p.otp| == OtpLength && reply.Err? ==>
      r.page.message == Message(Failure, ErrorText(reply.message, VerifyFailed)) && r.effects.nav.None?
  {
    if p.otp == "" || |p.otp| != OtpLength then Outcome(p.(message := Message(Failure, BadOtp)), NoEffects)
    else
      var calls := [VerifyEmailCall(p.email, p.otp)];
      match reply
      case Ok(_) =>
        Outcome(p.(loading := false, message := Message(Success, Verified)), Effects(calls, Some(Nav("/login", NoState))))
      case Err(m) =>
        Outcome(p.(loading := false, message := Message(Failure, ErrorText(m, VerifyFailed))), Effects(calls, None))
  }

  /** The "Resend" button only shows an informational banner. */
  function Resend(p: Page): (r: Page)
    ensures r.message.kind == Info && r.message.text == ResendInfo
    ensures r.email == p.email && r.otp == p.otp && r.loading == p.loading
  {
    p.(message := Message(Info, ResendInfo))
  }

  /** Pressing "Resend" never changes what a later verify does: the request, the page and
      the navigation are those of a submit without it, and its banner is always replaced. */
  lemma ResendDoesNotChangeVerification(p: Page, reply: Reply<()>)
    ensures Submit(Resend(p), reply) == Submit(p, reply)
    ensures Submit(Resend(p), reply).page.message != Resend(p).message
  {
  }
}
