/** The claim modal: a three-step wizard (business email, one-time code, business
    details) over one business. Each submit is one atomic transition taking the backend's
    reply as input; the step only moves forward on success. */
module ClaimWizard {
  import opened Common
  import opened Entities
  import opened Interaction

  datatype Step = EnterEmail | EnterOtp | UpdateInfo

  /** The step's number as the modal shows it. */
  function StepNumber(s: Step): nat {
    match s
    case EnterEmail => 1
    case EnterOtp => 2
    case UpdateInfo => 3
  }

  datatype Wizard = Wizard(
    step: Step,
    loading: bool,
    error: string,
    businessEmail: string,
    otp: string,
    info: BusinessInfo)

  /** `business.x || ''` for an optional text property. */
  function OrEmpty(s: Option<string>): (r: string)
    ensures Truthy(s) ==> r == s.value
    ensures !Truthy(s) ==> r == ""
  {
    if s.Some? then s.value else ""
  }

  /** The wizard as the modal opens it for `b`. */
  function Open(b: Business): (w: Wizard)
    ensures w.step == EnterEmail && !w.loading && w.error == ""
    ensures w.businessEmail == "" && w.otp == ""
    ensures w.info.description == OrEmpty(b.description) && w.info.phone == OrEmpty(b.phone)
    ensures w.info.website == OrEmpty(b.website) && w.info.hours == OrEmpty(b.hours)
  {
    Wizard(EnterEmail, false, "", "", "",
           BusinessInfo(OrEmpty(b.description), OrEmpty(b.phone), OrEmpty(b.website), OrEmpty(b.hours)))
  }

  const SendFailed := "Failed to send claim request"
  const OtpFailed := "Invalid OTP"
  const UpdateFailed := "Failed to update business information"

  /** After a handler: the wizard, the calls made, and whether `onSuccess` and then
      `onClose` were invoked. */
  datatype Outcome = Outcome(wizard: Wizard, calls: seq<Call>, finished: bool)

  /** `handleEmailSubmit`: asks the backend to send a code to the business email. */
  function SubmitEmail(w: Wizard, placeId: string, reply: Reply<()>): (r: Outcome)
    ensures r.calls == [ClaimCall(placeId, w.businessEmail)] && !r.finished
    ensures !r.wizard.loading
    ensures reply.Ok? ==> r.wizard.step == EnterOtp && r.wizard.error == ""
    ensures reply.Err? ==> r.wizard.step == w.step && r.wizard.error == ErrorText(reply.message, SendFailed)
    ensures r.wizard.businessEmail == w.businessEmail && r.wizard.otp == w.otp && r.wizard.info == w.info
  {
    var w' := w.(error := "", loading := true);
    match reply
    case Ok(_) => Outcome(w'.(step := EnterOtp, loading := false), [ClaimCall(placeId, w.businessEmail)], false)
    case Err(m) => Outcome(w'.(error := ErrorText(m, SendFailed), loading := false), [ClaimCall(placeId, w.businessEmail)], false)
  }

  /** `handleOTPSubmit`: asks the backend to verify the code. */
  function SubmitOtp(w: Wizard, placeId: string, reply: Reply<()>): (r: Outcome)
    ensures r.calls == [VerifyClaimCall(placeId, w.otp)] && !r.finished
    ensures !r.wizard.loading
    ensures reply.Ok? ==> r.wizard.step == UpdateInfo && r.wizard.error == ""
    ensures reply.Err? ==> r.wizard.step == w.step && r.wizard.error == ErrorText(reply.message, OtpFailed)
    ensures r.wizard.businessEmail == w.businessEmail && r.wizard.otp == w.otp && r.wizard.info == w.info
  {
    var w' := w.(error := "", loading := true);
    match reply
    case Ok(_) => Outcome(w'.(step := UpdateInfo, loading := false), [VerifyClaimCall(placeId, w.otp)], false)
    case Err(m) => Outcome(w'.(error := ErrorText(m, OtpFailed), loading := false), [VerifyClaimCall(placeId, w.otp)], false)
  }

  /** `handleInfoSubmit`: sends the edited details; success hands control back to the page. */
  function SubmitInfo(w: Wizard, placeId: string, reply: Reply<()>): (r: Outcome)
    ensures r.calls == [UpdateBusinessCall(placeId, w.info)]
    ensures !r.wizard.loading && r.wizard.step == w.step
    ensures r.finished <==> reply.Ok?
    ensures reply.Ok? ==> r.wizard.error == ""
    ensures reply.Err? ==> r.wizard.error == ErrorText(reply.message, UpdateFailed)
    ensures r.wizard.businessEmail == w.businessEmail && r.wizard.otp == w.otp && r.wizard.info == w.info
  {
    var w' := w.(error := "", loading := true);
    match reply
    case Ok(_) => Outcome(w'.(loading := false), [UpdateBusinessCall(placeId, w.info)], true)
    case Err(m) => Outcome(w'.(error := ErrorText(m, UpdateFailed), loading := false), [UpdateBusinessCall(placeId, w.info)], false)
  }

  datatype InfoField = Description | Phone | Website | Hours

  /** What the user can do in the modal. */
  datatype Event =
    | TypeEmail(email: string)
    | TypeOtp(otp: string)
    | EditInfo(field: InfoField, value: string)
    | EmailSubmitted(emailReply: Reply<()>)
    | OtpSubmitted(otpReply: Reply<()>)
    | InfoSubmitted(infoReply: Reply<()>)
    | ChangeEmail

  function SetInfo(info: BusinessInfo, f: InfoField, v: string): BusinessInfo {
    match f
    case Description => info.(description := v)
    case Phone => info.(phone := v)
    case Website => info.(website := v)
    case Hours => info.(hours := v)
  }

  /** The form of each step is the only one rendered, so an event belonging to another
      step cannot occur; it is modelled as leaving everything unchanged. */
  function Handle(w: Wizard, placeId: string, e: Event): (r: Outcome)
    ensures StepNumber(r.wizard.step) <= StepNumber(w.step) + 1
    ensures StepNumber(r.wizard.step) < StepNumber(w.step) ==>
      w.step == EnterOtp && r.wizard.step == EnterEmail && e == ChangeEmail
    ensures e == ChangeEmail && w.step == EnterOtp ==>
      r.wizard.businessEmail == w.businessEmail && r.wizard.otp == w.otp
    ensures w.step != UpdateInfo && r.wizard.step == UpdateInfo ==>
      e.OtpSubmitted? && e.otpReply.Ok?
    ensures r.finished ==> w.step == UpdateInfo && e.InfoSubmitted? && e.infoReply.Ok?
  {
    match e
    case TypeEmail(v) =>
      Outcome(if w.step == EnterEmail then w.(businessEmail := v) else w, [], false)
    case TypeOtp(v) =>
      Outcome(if w.step == EnterOtp then w.(otp := v) else w, [], false)
    case EditInfo(f, v) =>
      Outcome(if w.step == UpdateInfo then w.(info := SetInfo(w.info, f, v)) else w, [], false)
    case EmailSubmitted(reply) =>
      if w.step == EnterEmail then SubmitEmail(w, placeId, reply) else Outcome(w, [], false)
    case OtpSubmitted(reply) =>
      if w.step == EnterOtp then SubmitOtp(w, placeId, reply) else Outcome(w, [], false)
    case InfoSubmitted(reply) =>
      if w.step == UpdateInfo then SubmitInfo(w, placeId, reply) else Outcome(w, [], false)
    case ChangeEmail =>
      Outcome(if w.step == EnterOtp then w.(step := EnterEmail) else w, [], false)
  }

  function Run(w: Wizard, placeId: string, events: seq<Event>): Wizard
    decreases |events|
  {
    if events == [] then w else Run(Handle(w, placeId, events[0]).wizard, placeId, events[1..])
  }

  /** The details step is only ever reached through an accepted one-time code. */
  lemma {:induction false} DetailsNeedVerifiedOtp(w: Wizard, placeId: string, events: seq<Event>)
    requires w.step != UpdateInfo
    requires Run(w, placeId, events).step == UpdateInfo
    ensures exists i :: 0 <= i < |events| && events[i].OtpSubmitted? && events[i].otpReply.Ok?
    decreases |events|
  {
    var w1 := Handle(w, placeId, events[0]).wizard;
    if w1.step == UpdateInfo {
      assert events[0].OtpSubmitted?;
    } else {
      DetailsNeedVerifiedOtp(w1, placeId, events[1..]);
      var i :| 0 <= i < |events[1..]| && events[1..][i].OtpSubmitted? && events[1..][i].otpReply.Ok?;
      assert events[i + 1] == events[1..][i];
    }
  }

  /** Step indicator `k` of the header is active iff the wizard is at step `k` or later. */
  predicate IndicatorActive(s: Step, k: nat) {
    StepNumber(s) >= k
  }

  /** Step indicators 1 and 2 are marked completed iff the wizard is past them. */
  predicate IndicatorCompleted(s: Step, k: nat) {
    k <= 2 && StepNumber(s) > k
  }

  /** The code step is only ever left forward, or reached, through an accepted business email. */
  lemma {:induction false} CodeStepNeedsAcceptedEmail(w: Wizard, placeId: string, events: seq<Event>)
    requires w.step == EnterEmail
    requires Run(w, placeId, events).step != EnterEmail
    ensures exists i :: 0 <= i < |events| && events[i].EmailSubmitted? && events[i].emailReply.Ok?
    decreases |events|
  {
    var w1 := Handle(w, placeId, events[0]).wizard;
    if w1.step != EnterEmail {
      assert events[0].EmailSubmitted?;
    } else {
      CodeStepNeedsAcceptedEmail(w1, placeId, events[1..]);
      var i :| 0 <= i < |events[1..]| && events[1..][i].EmailSubmitted? && events[1..][i].emailReply.Ok?;
      assert events[i + 1] == events[1..][i];
    }
  }

  /** The header's marks are earned: from an opened modal, indicator 1 is always active;
      indicator 2 is active, and indicator 1 completed, only after the backend accepted a
      business email; indicator 3 is active, and indicator 2 completed, only after it
      accepted a one-time code. Indicator 3 is never marked completed. */
  lemma CompletedIndicatorsWereEarned(w: Wizard, placeId: string, events: seq<Event>)
    requires w.step == EnterEmail
    ensures IndicatorActive(Run(w, placeId, events).step, 1)
    ensures IndicatorActive(Run(w, placeId, events).step, 2) ==>
      exists i :: 0 <= i < |events| && events[i].EmailSubmitted? && events[i].emailReply.Ok?
    ensures IndicatorActive(Run(w, placeId, events).step, 3) ==>
      exists i :: 0 <= i < |events| && events[i].OtpSubmitted? && events[i].otpReply.Ok?
    ensures IndicatorCompleted(Run(w, placeId, events).step, 1) ==>
      exists i :: 0 <= i < |events| && events[i].EmailSubmitted? && events[i].emailReply.Ok?
    ensures IndicatorCompleted(Run(w, placeId, events).step, 2) ==>
      exists i :: 0 <= i < |events| && events[i].OtpSubmitted? && events[i].otpReply.Ok?
    ensures !IndicatorCompleted(Run(w, placeId, events).step, 3)
  {
    var s := Run(w, placeId, events).step;
    if s != EnterEmail {
      CodeStepNeedsAcceptedEmail(w, placeId, events);
    }
    if s == UpdateInfo {
      DetailsNeedVerifiedOtp(w, placeId, events);
    }
  }
}
