# bSEARCH client — a Dafny model of its decision logic

bSEARCH is a React single-page client for a local-business directory. Visitors sign up,
verify their email, log in, search businesses by area and type, open the profiles of
verified businesses, and vote in polls. Owners claim a listing through a three-step
wizard, then manage its offers and polls. All persistence, search and tallying happen on
a remote backend. The client's own logic is the sequence of small decisions it makes
around those calls, and this project models that logic:

- the authentication context's session record and its four operations;
- the route table of the application shell;
- the validators and submit handlers of the seven auth pages;
- the claim wizard;
- the poll editor and the poll widget;
- the search page, its search form and the result cards;
- the owner's offer list.

Every handler is one atomic, pure transition. Each backend call it makes is an input,
`Reply<T> = Ok(payload) | Err(message?)`. A handler returns its new state together with
`Effects`: the backend calls it issued, in order, and the navigation it requested.
"No request is made" therefore reads `effects.calls == []`.

Modules follow the source files:

- `Common`: `Option`, `Reply`, the JavaScript `err.message || fallback` idiom, `\s`
  whitespace, `trim()` and order-preserving `filter`.
- `Email`: the pattern `/\S+@\S+\.\S+/`, stated as a match condition. A one-pass scanner
  is proved to decide it exactly.
- `Entities` and `Interaction`: the records, the backend calls, the navigation targets and
  the message banner.
- `Session`, `Router`, `ClaimWizard`, `Signup`, `OwnerSignup`, `Login`, `ForgotPassword`,
  `VerifyEmail`, `VerifyOtp`, `UpdatePassword`, `PollManager`, `PollDisplay`, `HomePage`,
  `SearchForm`, `BusinessCard` and `OfferManager`: one module per component.
- `AuthFlows`: how the auth pages hand data to each other.

Two behaviours of the code are easy to misread; the model follows the code:

- **A "who am I" reply with no user.** A successful reply whose body has no `user`
  leaves the session authenticated with no user
  (src/apps/Auth/context/AuthContext.jsx:29-36). Hence "unauthenticated implies no user"
  holds, but its converse does not; `Session.AuthenticatedWithoutUser` exhibits the case.
- **The poll request.** The poll editor calls `createPoll(placeId, {question, options})`.
  The service's `createPoll(data)` takes one argument, so the request carries the place
  id alone (src/apps/Owner/components/PollManager.jsx:45-48).
  `PollManager.RequestIgnoresForm` states that the entered question and options never
  reach the request.

## Model

| member | source | states |
|---|---|---|
| Session.CheckAuthStatus | src/apps/Auth/context/AuthContext.jsx:25-43 | An authenticated session is returned unchanged with its user and no request. Otherwise exactly one check request is made and loading ends. A success authenticates with the reply's user and returns it. A failure never propagates: it clears the user and returns none. |
| Session.Mount | src/apps/Auth/context/AuthContext.jsx:7-16 | The mount check always runs from the initial state. Afterwards the spinner is gone, and the session is authenticated iff the check succeeded. |
| Session.Login | src/apps/Auth/context/AuthContext.jsx:47-51 | The login request comes first. A rejected login propagates its message with the session untouched. Otherwise the result and the session are exactly those of the following `checkAuthStatus`. |
| Session.Logout | src/apps/Auth/context/AuthContext.jsx:54-63 | Whatever the backend answers, the user is cleared and the session is unauthenticated. `loading` is kept. |
| Session.ResetSession | src/apps/Auth/context/AuthContext.jsx:19-22 | Clears the user and the flag without a request and keeps `loading`. |
| Session.LoadingMonotone | src/apps/Auth/context/AuthContext.jsx:9-42 | Once `loading` is false, no sequence of operations sets it back to true. |
| Session.RunKeepsConsistent | src/apps/Auth/context/AuthContext.jsx:19-63 | Every operation sequence preserves two facts: an unauthenticated session holds no user, and an authenticated session has finished loading. |
| Session.InitialConsistent | src/apps/Auth/context/AuthContext.jsx:7-9 | The initial session is loading, unauthenticated, has no user, and satisfies the invariant. |
| Session.AuthenticatedWithoutUser | src/apps/Auth/context/AuthContext.jsx:29-36 | A successful check whose body lacks `user` gives an authenticated session without a user. |
| Router.Route | src/App.jsx:13-49 | While loading, every path shows the spinner. The seven auth paths render regardless of authentication. `/` and `/business/:placeId` render iff authenticated and otherwise redirect to `/login`. Every other path redirects to `/`. A protected page is only ever shown to an authenticated session. |
| Router.RoutesDisjoint | src/App.jsx:27-43 | No path matches both an auth route and the home or business route. |
| Router.SettlesWithinTwoRedirects | src/App.jsx:36-45 | Every path settles on a page within two redirects. A signed-out session never settles on the home page or a business profile. A signed-in session on any undeclared path lands on the home page. |
| Router.OwnerPathIsNotRouted | src/App.jsx:45 | `/owner` is undeclared. It redirects to `/` and settles on the home page or the login page. |
| ClaimWizard.OrEmpty | src/apps/HomePage/components/ClaimModal.jsx:13-16 | `x \|\| ''`: the value when it is present and non-empty, otherwise the empty string. |
| ClaimWizard.Open | src/apps/HomePage/components/ClaimModal.jsx:5-17 | The wizard opens at step 1 with an empty email and code and no error. Each detail is prefilled from the business or empty. |
| ClaimWizard.SubmitEmail | src/apps/HomePage/components/ClaimModal.jsx:19-32 | Exactly one claim request is sent with the typed email. Success moves to step 2. Failure stays at the current step and shows the message or 'Failed to send claim request'. `loading` ends false and the entered data is kept. |
| ClaimWizard.SubmitOtp | src/apps/HomePage/components/ClaimModal.jsx:34-47 | Exactly one verify request is sent with the typed code. Success moves to step 3. Failure stays at the current step and shows the message or 'Invalid OTP'. |
| ClaimWizard.SubmitInfo | src/apps/HomePage/components/ClaimModal.jsx:49-63 | The edited details are sent. The wizard reports finished (`onSuccess` then `onClose`) iff the reply is a success. A failure stays at step 3 with the message or the fallback. |
| ClaimWizard.Handle | src/apps/HomePage/components/ClaimModal.jsx:19-157 | No event skips a step. The only backward move is "Change Email" from step 2 to step 1, which keeps the typed email and code. Step 3 is entered only by an accepted code. The wizard finishes only on an accepted details submit at step 3. |
| ClaimWizard.DetailsNeedVerifiedOtp | src/apps/HomePage/components/ClaimModal.jsx:34-47 | Every event sequence that takes the wizard from an earlier step to step 3 contains an accepted code submit. |
| ClaimWizard.CodeStepNeedsAcceptedEmail | src/apps/HomePage/components/ClaimModal.jsx:18-31 | Every event sequence that takes an opened wizard past the email step contains an accepted email submit. |
| ClaimWizard.CompletedIndicatorsWereEarned | src/apps/HomePage/components/ClaimModal.jsx:78-91 | From an opened modal, header indicator 1 is always active. Indicator 2 is active only if some email submit was accepted, and indicator 3 only if some code submit was accepted. Indicator 1 is marked completed only if some email submit was accepted. Indicator 2 is marked completed only if some code submit was accepted. Indicator 3 is never marked completed. |
| ClaimWizard.IndicatorActive | src/apps/HomePage/components/ClaimModal.jsx:78-91 | Indicator k carries `active` iff the step number is at least k. |
| ClaimWizard.IndicatorCompleted | src/apps/HomePage/components/ClaimModal.jsx:78-91 | Indicators 1 and 2 carry `completed` iff the step number exceeds theirs. Indicator 3 never does. |
| Email.RegexMatchesIffWitness | src/apps/Auth/pages/Signup.jsx:37 | The pattern matches somewhere iff some `@` has a non-space character before it and is followed by a run of non-space characters, a `.` and one more non-space character. |
| Email.ScanCorrect | src/apps/Auth/pages/Signup.jsx:37 | From any consistent scan state with no witness behind it, the one-pass scanner answers true iff a witness exists. |
| Email.LooksLikeEmailCorrect | src/apps/Auth/pages/Signup.jsx:37 | The scanner used by every form decides `/\S+@\S+\.\S+/.test(s)` exactly. |
| Email.MatchIsNotBlank | src/apps/Auth/pages/Login.jsx:32-36 | A string the pattern accepts is not blank, so 'required' and 'invalid' never apply to the same value. |
| Common.ErrorText | src/apps/HomePage/pages/HomePage.jsx:56 | `err.message \|\| fallback`: the message when it is present and non-empty, otherwise the fallback. The result is never empty. |
| Common.Trim | src/apps/HomePage/components/SearchForm.jsx:9-10 | `trim()`: the unique middle slice left after removing the leading and trailing whitespace. It is empty iff the input is blank. |
| Common.TrimIdempotent | src/apps/HomePage/components/SearchForm.jsx:10 | Trimming a trimmed string changes nothing. |
| Common.TrimIgnoresLeadingSpace | src/apps/HomePage/components/SearchForm.jsx:9-10 | Whitespace put in front of a string does not change its trimmed form. |
| Common.Filter | src/apps/Owner/components/PollManager.jsx:36 | `filter`: the result keeps exactly the elements that satisfy the condition and is no longer than the input. |
| Common.FilterConcat | src/apps/Owner/components/OfferManager.jsx:67 | Filtering distributes over concatenation, so the relative order of the kept elements is preserved. |
| Common.ClearError | src/apps/Auth/pages/Signup.jsx:23-25 | A shown error of the edited field becomes empty. Every other field's error, and the set of fields, is unchanged. |
| Signup.Validate | src/apps/Auth/pages/Signup.jsx:28-49 | Name has an error iff it is blank. Email has an error iff it fails the pattern: 'Email is required' when blank, else 'Email is invalid'. Password has an error iff it is shorter than 6: 'Password is required' when empty, else the minimum-length message. The map is empty iff the form is acceptable. |
| Signup.Change | src/apps/Auth/pages/Signup.jsx:19-26 | Only the named field changes, and only that field's error is cleared. |
| Signup.SubmitAs | src/apps/Auth/pages/Signup.jsx:51-80 | An invalid form shows its errors and makes no request. A valid form sends one signup request with the form's fields and the role. Success shows the success text and navigates to `/verify-email` carrying the email. Failure shows the message or the fallback. |
| Signup.Submit | src/apps/Auth/pages/Signup.jsx:51-80 | A request is made iff the form is acceptable, and it registers the role "user". A navigation happens iff the form is acceptable and the signup succeeds. |
| OwnerSignup.Submit | src/apps/Auth/pages/OwnerSignup.jsx:27-75 | The signup rules apply. A request is made iff the form is acceptable, and every request registers the role "owner". Success shows 'Owner account created! Please verify your email.' and navigates to `/verify-email` with the email. |
| OwnerSignup.SameRequestButRole | src/apps/Auth/pages/OwnerSignup.jsx:52-57 | The two signup pages send the same request except that the role is "user" on one and "owner" on the other. |
| Login.Validate | src/apps/Auth/pages/Login.jsx:29-44 | Email is required first, then matched against the pattern. The password is only required and has no minimum length. The map is empty iff the form is acceptable. |
| Login.Change | src/apps/Auth/pages/Login.jsx:21-27 | Only the named field changes, and only its error is cleared. |
| Login.Destination | src/apps/Auth/pages/Login.jsx:62-68 | `/owner` iff the returned user has the role "owner". `/` otherwise, including when no user came back. |
| Login.Submit | src/apps/Auth/pages/Login.jsx:46-78 | An invalid form makes no call and leaves the session alone. A valid form runs the session's `login`. Success navigates by role and shows the success text. Failure keeps the session and shows the message or 'Login failed. Please check your credentials.'. |
| Login.RedirectSettles | src/apps/Auth/pages/Login.jsx:62-68 | From any consistent session, a successful login settles on the home page when the session was already signed in or the session check succeeded. This includes an owner, since `/owner` is undeclared. Otherwise it settles on the login page. |
| ForgotPassword.Submit | src/apps/Auth/pages/ForgotPassword.jsx:14-49 | A blank email gives 'Email is required'. A non-blank email that fails the pattern gives 'Please enter a valid email'. A request is made iff the untrimmed email matches. Success navigates to `/verify-otp` with the email. Failure shows the message or the fallback. |
| VerifyEmail.Mount | src/apps/Auth/pages/VerifyEmail.jsx:16-24 | Without an email in the navigation state the page redirects to `/signup`. Otherwise it takes that email. |
| VerifyEmail.Submit | src/apps/Auth/pages/VerifyEmail.jsx:26-56 | A request is made iff the code has exactly 6 characters; they need not be digits. Success navigates to `/login`. Failure shows the message or 'Verification failed. Please try again.'. |
| VerifyEmail.Resend | src/apps/Auth/pages/VerifyEmail.jsx:90 | "Resend" only sets an informational banner. |
| VerifyEmail.ResendDoesNotChangeVerification | src/apps/Auth/pages/VerifyEmail.jsx:26-90 | A later verify after "Resend" sends the same request, navigates the same way and leaves the same page as one without it. The resend banner never survives that verify. |
| VerifyOtp.Mount | src/apps/Auth/pages/VerifyOTP.jsx:16-24 | Without an email in the navigation state the page redirects to `/forgot-password`. |
| VerifyOtp.Submit | src/apps/Auth/pages/VerifyOTP.jsx:26-58 | A request is made iff the code has exactly 6 characters. Success navigates to `/update-password` carrying the reply's reset token. Failure shows the message or 'Invalid OTP. Please try again.'. |
| UpdatePassword.Mount | src/apps/Auth/pages/UpdatePassword.jsx:20-28 | Without a reset token in the navigation state the page redirects to `/forgot-password`. Otherwise it keeps the token. |
| UpdatePassword.Validate | src/apps/Auth/pages/UpdatePassword.jsx:38-55 | The new password is required, then must have at least 6 characters. The confirmation is required, then must equal the new password; a mismatch gives 'Passwords do not match' on the confirmation only. The map is empty iff the form is acceptable. |
| UpdatePassword.BothErrorsAtOnce | src/apps/Auth/pages/UpdatePassword.jsx:38-54 | A short password with no confirmation reports both field errors at once. |
| UpdatePassword.Change | src/apps/Auth/pages/UpdatePassword.jsx:30-36 | Only the named field changes and only its error is cleared. The token is kept. |
| UpdatePassword.Submit | src/apps/Auth/pages/UpdatePassword.jsx:57-86 | An invalid form makes no request. A valid form sends the stored token with the new password. Success navigates to `/login`. |
| AuthFlows.SignupReachesVerification | src/apps/Auth/pages/Signup.jsx:69-71 | After a successful signup on either page, the verification page opens on the email that was registered. |
| AuthFlows.ResetCodeReachesOtpPage | src/apps/Auth/pages/ForgotPassword.jsx:38-40 | After a reset code is sent, the code page opens on the same email. |
| AuthFlows.TokenReachesUpdatePage | src/apps/Auth/pages/VerifyOTP.jsx:45-49 | An accepted code hands its reset token to the update page. A reply without a usable token sends the visitor back to `/forgot-password`. |
| PollManager.AddOption | src/apps/Owner/components/PollManager.jsx:19-21 | One empty option is appended and the existing options are unchanged. |
| PollManager.RemoveOption | src/apps/Owner/components/PollManager.jsx:23-28 | Only the entry at the index is deleted, and only when more than two remain. Otherwise nothing changes. At least two options always remain. |
| PollManager.ChangeOption | src/apps/Owner/components/PollManager.jsx:13-17 | Only the entry at the index is replaced, and the length is kept. |
| PollManager.AtLeastTwoOptions | src/apps/Owner/components/PollManager.jsx:9-28 | No sequence of edits takes the option list below two entries. |
| PollManager.ValidOptions | src/apps/Owner/components/PollManager.jsx:36 | Exactly the options that are non-blank after trimming are kept, untrimmed. |
| PollManager.ValidOptionsKeepOrder | src/apps/Owner/components/PollManager.jsx:36 | The kept options are in their original order. |
| PollManager.Submit | src/apps/Owner/components/PollManager.jsx:30-55 | With fewer than two kept options, 'Please provide at least 2 options' is shown and no request is made. Otherwise one create request is made. Success navigates to `/owner`. Failure shows the message or 'Failed to create poll'. `loading` always ends false. |
| PollManager.InitialSubmitRejected | src/apps/Owner/components/PollManager.jsx:9-42 | Submitting the fresh editor is rejected without a request. |
| PollManager.RequestIgnoresForm | src/apps/Owner/components/PollManager.jsx:45-48 | Every accepted submit sends the same request whatever the question and options are. |
| PollDisplay.TotalVotesConcat | src/apps/HomePage/components/PollDisplay.jsx:11 | The total of a concatenation of options is the sum of the totals. |
| PollDisplay.OptionVotesWithinTotal | src/apps/HomePage/components/PollDisplay.jsx:11 | No option has more votes than the total. |
| PollDisplay.Percentage | src/apps/HomePage/components/PollDisplay.jsx:51-53 | 0 when nobody has voted. Otherwise the integer nearest to 100·votes/total, with halves rounded up. |
| PollDisplay.TotalVotes | src/apps/HomePage/components/PollDisplay.jsx:11 | The sum of the options' vote counts. |
| PollDisplay.HasVoted | src/apps/HomePage/components/PollDisplay.jsx:10 | A user is signed in and the poll's voter list holds their id. |
| PollDisplay.OptionDisabled | src/apps/HomePage/components/PollDisplay.jsx:59 | An option button is disabled while a vote is in flight, after voting, or once the poll has ended. |
| PollDisplay.ShowsPercentages | src/apps/HomePage/components/PollDisplay.jsx:68-77 | The bar and the percentage are shown only to a visitor who has voted. |
| PollDisplay.ShowsEndedBadge | src/apps/HomePage/components/PollDisplay.jsx:87-91 | 'Poll Ended' is shown iff the poll is inactive. |
| PollDisplay.ShowsVotedBadge | src/apps/HomePage/components/PollDisplay.jsx:92-96 | 'You voted' is shown iff the visitor has voted and the poll is active. |
| PollDisplay.VoteLabel | src/apps/HomePage/components/PollDisplay.jsx:65 | "vote" for exactly one vote, "votes" otherwise. |
| PollDisplay.PercentageAtMost100 | src/apps/HomePage/components/PollDisplay.jsx:51-53 | With votes at most the total, the percentage is at most 100. |
| PollDisplay.PercentagesInRange | src/apps/HomePage/components/PollDisplay.jsx:11-53 | Every option's shown percentage lies in [0, 100]. |
| PollDisplay.Vote | src/apps/HomePage/components/PollDisplay.jsx:13-37 | Without a user: 'Please login to vote' and no request. After voting: 'You have already voted on this poll' and no request. Otherwise exactly one vote request for the option. The page is asked to refresh iff the vote succeeds and the optional `onVoteSuccess` callback was given. A failure shows the message or 'Failed to submit vote'. |
| PollDisplay.DisplayConsistent | src/apps/HomePage/components/PollDisplay.jsx:13-96 | At most one status badge is shown. Whoever sees percentages cannot click an option. A clickable option leads to a vote request for a signed-in visitor. For a signed-out visitor the click only shows 'Please login to vote' and sends nothing. The label is "vote" exactly for one vote. |
| HomePage.SortIsPartition | src/apps/HomePage/pages/HomePage.jsx:141-142 | Stable sorting with the comparator `Number(b.claimed) - Number(a.claimed)` yields the claimed businesses in their order, followed by the unclaimed ones in their order. |
| HomePage.SortByClaimed | src/apps/HomePage/pages/HomePage.jsx:141-142 | The copy-and-sort of the results under the claimed-first comparator, as a stable insertion sort. |
| HomePage.ShowsEmptyState | src/apps/HomePage/pages/HomePage.jsx:118 | "No businesses found" shows iff not loading, searched, the list is empty and there is no error. |
| HomePage.ShowsResults | src/apps/HomePage/pages/HomePage.jsx:132 | The result grid shows iff not loading and the list is non-empty. |
| HomePage.PartitionIsPermutation | src/apps/HomePage/pages/HomePage.jsx:141-142 | Splitting by the claimed flag loses and duplicates nothing. |
| HomePage.ClaimedFirst | src/apps/HomePage/pages/HomePage.jsx:141-142 | The displayed list is a permutation of the results. Every claimed business precedes every unclaimed one. Within each group the original order is kept. |
| HomePage.Search | src/apps/HomePage/pages/HomePage.jsx:36-61 | One search request with the given area and type. `searched` becomes true. The service resolves to the response body, and the list is read at that body's `data.data` (`response.data?.data`, line 43). Success clears the error, shows that list or an empty one when it is absent, and stores both in session storage. Failure shows an empty list, shows the message or 'Search failed. Please try again.', and leaves storage alone. |
| HomePage.UserChanged | src/apps/HomePage/pages/HomePage.jsx:21-25 | A change of user empties the results and clears `searched` and the error. |
| HomePage.UserChangeShowsNothing | src/apps/HomePage/pages/HomePage.jsx:21-25 | After a change of user the page shows neither results nor the empty state. |
| HomePage.Restore | src/apps/HomePage/pages/HomePage.jsx:28-34 | Stored results, if any, replace the list. `searched` becomes true only when the stored flag is exactly "true". |
| HomePage.RestoreAfterSearch | src/apps/HomePage/pages/HomePage.jsx:28-48 | Restoring a fresh page after a successful search reproduces the page that search left. After only failed searches nothing is restored. |
| HomePage.SearchShowsOneOutcome | src/apps/HomePage/pages/HomePage.jsx:118-132 | After a search, results are shown iff a non-empty list came back. The empty state is shown iff the search succeeded with nothing. Never both. |
| SearchForm.Submit | src/apps/HomePage/components/SearchForm.jsx:7-12 | A search starts iff both inputs are non-blank. Its arguments are the trimmed location and type, in that order, and both are non-empty. |
| SearchForm.ResubmitIsStable | src/apps/HomePage/components/SearchForm.jsx:9-10 | Submitting the trimmed arguments again starts the same search. |
| SearchForm.LeadingSpaceIgnored | src/apps/HomePage/components/SearchForm.jsx:9-10 | Whitespace typed before either input changes nothing. |
| SearchForm.SearchSendsTrimmedQuery | src/apps/HomePage/components/SearchForm.jsx:7-79 | For an accepted form, the home page's request carries the trimmed texts, and neither argument starts or ends with whitespace. Once the search has answered, the submit button is enabled again. |
| SearchForm.SubmitDisabled | src/apps/HomePage/components/SearchForm.jsx:79 | The submit button is disabled exactly while a search is loading. |
| BusinessCard.DirectionsTo | src/apps/HomePage/components/BusinessCard.jsx:25-34 | Coordinates iff both are present and non-zero, since 0 is falsy. Otherwise the address iff it is truthy. Otherwise unavailable. |
| BusinessCard.DirectionsUrl | src/apps/HomePage/components/BusinessCard.jsx:22-38 | No URL iff the destination is unavailable, which is the alert. Otherwise the maps search base followed by the encoded destination. |
| BusinessCard.ZeroCoordinateUsesAddress | src/apps/HomePage/components/BusinessCard.jsx:27-30 | A business at a 0 coordinate with an address gets directions to the address. |
| BusinessCard.CardClick | src/apps/HomePage/components/BusinessCard.jsx:8-20 | A click from a button does nothing. An unverified business only alerts. A verified one navigates to `/business/<placeId>`. |
| BusinessCard.OpenedCardShowsProfile | src/apps/HomePage/components/BusinessCard.jsx:19 | Opening a verified card settles on that business's profile when signed in, and on the login page otherwise. |
| BusinessCard.ClaimButtonOnlyOnClosedCards | src/apps/HomePage/components/BusinessCard.jsx:46-118 | A card offering the claim button shows no contact rows and opens no profile. A card showing a contact row opens one. |
| BusinessCard.ShowsClaimButton | src/apps/HomePage/components/BusinessCard.jsx:46-47 | The claim button is offered iff the user is an owner and the business is unverified. |
| BusinessCard.ShowsPhone | src/apps/HomePage/components/BusinessCard.jsx:81-90 | The phone row shows iff the business is verified and has a truthy phone. |
| BusinessCard.ShowsWebsite | src/apps/HomePage/components/BusinessCard.jsx:92-107 | The website row shows iff the business is verified and has a truthy website. |
| BusinessCard.ShowsHours | src/apps/HomePage/components/BusinessCard.jsx:109-116 | The hours row shows iff the business is verified and has truthy hours. |
| OfferManager.LoadOffers | src/apps/Owner/components/OfferManager.jsx:25-36 | Success shows the response body's `data` (`response.data.data`) or an empty list when it is absent. A failed load shows an empty list. Fetching ends false, and the form and error are kept. |
| OfferManager.Change | src/apps/Owner/components/OfferManager.jsx:38-41 | Only the named form field changes. |
| OfferManager.Submit | src/apps/Owner/components/OfferManager.jsx:43-60 | One create request is sent with the place id and the form fields. Success resets the form to three empty strings and reloads the list. Failure keeps the form and the list and shows the message or 'Failed to create offer'. |
| OfferManager.Without | src/apps/Owner/components/OfferManager.jsx:67 | Exactly the offers whose id differs from the deleted id remain. |
| OfferManager.Delete | src/apps/Owner/components/OfferManager.jsx:62-71 | A declined confirmation does nothing. A confirmed delete sends one request. Success removes the offers with that id. Failure leaves the list unchanged and alerts with the message or 'Failed to delete offer'. |
| OfferManager.DeleteAbsentIsNoop | src/apps/Owner/components/OfferManager.jsx:67 | Deleting an id no offer has leaves the list unchanged. |
| OfferManager.DeleteIdempotent | src/apps/Owner/components/OfferManager.jsx:67 | Deleting the same id twice equals deleting it once. |
| OfferManager.DeleteKeepsOrder | src/apps/Owner/components/OfferManager.jsx:67 | The surviving offers keep their order. |
| OfferManager.DeleteRemovesOne | src/apps/Owner/components/OfferManager.jsx:67 | Deleting an offer whose id occurs once removes exactly that entry. |
| OfferManager.WithoutShown | src/apps/Owner/components/OfferManager.jsx:67 | Deleting an id from the last load minus some deleted ids equals that load minus those ids and the new one. |
| OfferManager.StepExplained | src/apps/Owner/components/OfferManager.jsx:21-71 | A load, keystroke, submit or delete keeps the shown list equal to the last loaded list minus the ids deleted since. A successful submit counts as a new load. |
| OfferManager.RunExplained | src/apps/Owner/components/OfferManager.jsx:21-71 | The same holds after any sequence of those operations. |
| OfferManager.ShownIsLastLoad | src/apps/Owner/components/OfferManager.jsx:21-71 | From a fresh panel, the shown offers are the last loaded list in its order, minus exactly the offers deleted successfully since. The list is empty before any successful load. No offer appears that the last load did not return. |

## Left out

- **The HTTP layer.** The axios client and the auth, business and owner services are not
  part of this model. A call is recorded with the arguments the service receives, and its
  outcome is an input. `message` stands for whichever field the handler reads
  (`err.message` or `err.response?.data?.message`).
- **Concurrency and React scheduling.** Handlers are atomic. The model leaves out:
  - the race between the mount-time check and a login-triggered check;
  - stale reads of `isAuthenticated` inside closures;
  - effect ordering and unmount guards.
- **Browser side effects.** The `setTimeout` delays before navigation are left out; only
  the navigation target is kept. Scrolling, `alert` and `window.open` are left out too:
  a tag, a text or a URL is returned as data instead. The card's two alerts come back as
  the `AlertUnverified` action and as no directions URL. The `console.error` logging of a
  failed logout (src/apps/Auth/context/AuthContext.jsx:58) and of a failed offer load
  (src/apps/Owner/components/OfferManager.jsx:31) is left out. `confirm` becomes a boolean
  input.
  Session storage becomes the `HomePage.Saved` record, and JSON parsing of it is not modelled.
- **Rendering.** JSX, CSS and presentational components are not modelled (layout, inputs,
  buttons, the profile page, the owner dashboard, the announcement and item forms). Only
  the conditions the logic decides are kept.
- **Browser form checks.** The browser's own `required` and `type="email"` checks are
  not modelled. The model validates exactly what the handlers validate.
- **Dates.** Offer expiry against the wall clock and locale date formatting are not
  modelled.
- **String lengths.** Lengths count characters, not UTF-16 code units.
- **Router matching.** Paths are compared exactly. The router's tolerance of a trailing
  slash and its case-insensitive matching are not modelled.
- **A reply without `data`.** In `VerifyOtp.Submit`, a success reply that has no `data`
  would make the page throw a TypeError inside the timer. The model treats a missing
  token as `None`, which sends the next page back to `/forgot-password`.
- **Selecting a business for the claim modal.** `handleClaimClick`/`handleClaimSuccess`
  on the home page only store or clear the business the modal is opened for. The modal
  itself is `ClaimWizard`.
- PollDisplay.Percentage: computed with exact integers as round-half-up of
  100·votes/total. Floating-point division and `Math.round` are idealised, so a
  floating-point rounding error at an exact half is not modelled.
- BusinessCard.DirectionsUrl: how a number is formatted and what `encodeURIComponent`
  produces are parameters. Only the shape of the URL is stated.
- PollManager.ChangeOption: requires an existing index, because the rendered list offers
  only existing indices. An out-of-range `ChangeAt` edit is a no-op in `ApplyEdit`.
- ClaimWizard.Handle: an event belonging to a step whose form is not rendered is a no-op,
  because the interface cannot produce it.
- Session.CheckAuthStatus: the early return reads the flag of the current session. The
  stale value a closure could read under concurrency is not modelled.
