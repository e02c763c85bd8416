/** The password-reset code page: it needs the email handed over by the forgot-password
    page, checks the code's length, and passes the reset token on to the update page. */
module VerifyOtp {
  import opened Common
  import opened Interaction

  datatype Page = Page(email: string, otp: string, loading: bool, message: Message)

  const OtpLength := 6
  const BadOtp := "Please enter a valid 6-digit OTP"
  const Verified := "OTP verified! Redirecting..."
  const VerifyFailed := "Invalid OTP. Please try again."

  datatype Outcome = Outcome(page: Page, effects: Effects)

  /** The mount effect: without an email in the navigation state the visitor is sent
      back to the forgot-password page. */
  function Mount(state: NavState): (r: Outcome)
    ensures NavEmail(state).Some? ==> r.page.email == NavEmail(state).value && r.effects == NoEffects
    ensures NavEmail(state).None? ==> r.page.email == "" && r.effects == Effects([], Some(Nav("/forgot-password", NoState)))
    ensures r.page.otp == "" && !r.page.loading && r.page.message == NoMessage
  {
    var p := Page("", "", false, NoMessage);
    match NavEmail(state)
    case Some(e) => Outcome(p.(email := e), NoEffects)
    case None => Outcome(p, Effects([], Some(Nav("/forgot-password", NoState))))
  }

  /** `handleSubmit`. A successful reply carries `data.resetToken`, absent when the
      payload has none; it is handed on in the navigation state. */
  function Submit(p: Page, reply: Reply<Option<string>>): (r: Outcome)
    ensures r.page.email == p.email && r.page.otp == p.otp
    ensures r.effects.calls != [] <==> |p.otp| == OtpLength
    ensures |p.otp| != OtpLength ==> r == Outcome(p.(message := Message(Failure, BadOtp)), NoEffects)
    ensures |p.otp| == OtpLength ==> r.effects.calls == [VerifyOtpCall(p.email, p.otp)] && !r.page.loading
    ensures |p.otp| == OtpLength && reply.Ok? ==>
      r.page.message == Message(Success, Verified)
      && r.effects.nav == Some(Nav("/update-password", TokenState(reply.payload)))
    ensures |p.otp| == OtpLength && reply.Err? ==>
      r.page.message == Message(Failure, ErrorText(reply.message, VerifyFailed)) && r.effects.nav.None?
  {
    if p.otp == "" || |p.otp| != OtpLength then Outcome(p.(message := Message(Failure, BadOtp)), NoEffects)
    else
      var calls := [VerifyOtpCall(p.email, p.otp)];
      match reply
      case Ok(token) =>
        Outcome(p.(loading := false, message := Message(Success, Verified)),
                Effects(calls, Some(Nav("/update-password", TokenState(token)))))
      case Err(m) =>
        Outcome(p.(loading := false, message := Message(Failure, ErrorText(m, VerifyFailed))), Effects(calls, None))
  }
}
