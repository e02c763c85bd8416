/** What a handler does besides updating its own state: the backend calls it issues, in
    order, and the page it navigates to. The HTTP layer itself is not modelled; a call is
    recorded with the arguments the service function receives. */
module Interaction {
  import opened Common
  import opened Entities

  datatype Call =
    | SignupCall(email: string, password: string, name: string, role: string)
    | VerifyEmailCall(email: string, otp: string)
    | LoginCall(email: string, password: string)
    | ForgotPasswordCall(email: string)
    | VerifyOtpCall(email: string, otp: string)
    | UpdatePasswordCall(resetToken: string, newPassword: string)
    | LogoutCall
    | CheckAuthCall
    | SearchCall(area: string, businessType: string)
    | ClaimCall(placeId: string, businessEmail: string)
    | VerifyClaimCall(placeId: string, otp: string)
    | UpdateBusinessCall(placeId: string, info: BusinessInfo)
      // `createPoll(data)` takes one argument, so only the first argument a caller passes arrives
    | CreatePollCall(data: string)
    | VotePollCall(pollId: string, optionIndex: int)
    | CreateOfferCall(placeId: string, title: string, description: string, validTill: string)
    | GetOffersCall(placeId: string)
    | DeleteOfferCall(offerId: string)

  /** The `state` object carried by a navigation. */
  datatype NavState = NoState | EmailState(email: string) | TokenState(resetToken: Option<string>)

  datatype Nav = Nav(path: string, state: NavState)

  /** The banner of the auth pages: `{type, text}`, where an empty text shows nothing. */
  datatype MessageKind = Plain | Success | Failure | Info
  datatype Message = Message(kind: MessageKind, text: string)

  const NoMessage := Message(Plain, "")

  datatype Effects = Effects(calls: seq<Call>, nav: Option<Nav>)

  const NoEffects := Effects([], None)

  /** `location.state?.email` when truthy. */
  function NavEmail(s: NavState): Option<string> {
    if s.EmailState? && s.email != "" then Some(s.email) else None
  }

  /** `location.state?.resetToken` when truthy. */
  function NavResetToken(s: NavState): Option<string> {
    if s.TokenState? && Truthy(s.resetToken) then s.resetToken else None
  }
}
