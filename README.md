# Harambee DAO front end: mock store, access rule and login checks in Dafny

This project models the in-memory demo back end of the Harambee DAO front end. It also models the page-access redirect rule and the e-mail login checks, and proves what they promise.

- **The mock store** (`app/api/mockData.ts`). The store is one mutable record: OTP codes by phone, users by phone, a single session phone, a KYC-document flag, one demo group, proposals by id and notifications. It is the class `MockData.State`. Users and the group are objects (`MockData.User`, `MockData.Group`) because handlers update them in place. The demo user is the *same* object in the users map and in the group's member list. Proposals, transactions and notifications are values.
- **The route handlers** (`app/api/users/**/route.ts`). Each route file is a module. Handlers that change the store are methods whose `ensures` give the response and the whole new state in terms of the old one. Read-only `GET` handlers are functions over the store. A response is a status, a JSON body and the cookies it sets (`Http.Response`).
- **The redirect rule** (`middleware.ts`). `Middleware.Decide` is the decision over the path, the `auth_token` cookie and the `kyc_status` cookie. `Middleware.Route` adds the `config.matcher` path set.
- **The login page checks** (`app/auth/login/page.tsx`). `LoginPage.IsValidEmail` is the regex `^[^\s@]+@[^\s@]+\.[^\s@]+$` written as a predicate over characters. It is proved equivalent to a structural description of an address. `LoginPage.LoginForm` models the guards of `onEmailLogin`, the disabled state of the login button and the Enter-key handler.
- **Scenarios** (`Scenarios`). Client methods chain handler calls and prove the multi-request properties: the latest OTP wins, an OTP is not consumed, sign-up then sign-in then "me", review is idempotent, aliasing through the group, and n balance syncs.

Randomness is passed in as parameters with the bounds the code guarantees:

- the OTP `draw` is `Math.floor(Math.random() * 900000)`, so it lies in [0, 900000);
- the `randomId` suffix is at most six base-36 digits.

The clock (`new Date().toISOString()`) is a string parameter `now`.

Behaviour of the code worth knowing, which the model follows:

- A missing phone or code in verify-OTP is a 400. A wrong code, or a phone with no issued code, is a 401.
- The current-user GET fails when the users map has no entry for the session phone. That phone is never unset: it starts as "" and `init` sets it to the demo phone.
- A field that is present but empty counts as missing in registration and OTP requests, because the code tests JavaScript truthiness.
- The notifications GET returns the first ten in stored order. It does not sort them, and no modelled operation writes the list.

## Model

| member | source | states |
|---|---|---|
| MockData.State.constructor | app/api/mockData.ts:29-37 | the record starts with empty maps, session phone "", `kycDocUploaded` false, no group and no notifications |
| MockData.State.Init | app/api/mockData.ts:39-61 | with a group already present nothing changes (so a second call equals one); otherwise the users map gains the demo user under "+254700000000", the session points at that phone, and the new group is "me" with balance 1250000, members exactly [that same user object], no proposals and the one executed transaction t1 |
| MockData.Load | app/api/mockData.ts:29-63 | after loading the module the store holds only the pending demo user, the session is the demo phone, the group holds that user object as its only member, and the OTP map, proposals and notifications are empty |
| MockData.User.constructor | app/api/mockData.ts:41-47 | a new user has the given id, name, e-mail and phone and status pending |
| MockData.User.Rec | app/api/users/me/route.ts:7 | the JSON of a user carries its phone and its current `kycStatus`, read from the object at the time of the response |
| MockData.Recs | app/api/users/groups/me/members/route.ts:5 | the JSON of a user list has one entry per user, in order, each that user's JSON |
| MockData.Group.Rec | app/api/users/groups/me/route.ts:5 | the JSON of the group carries its id, balance, proposals and transactions, and its members' JSON in order |
| MockData.RandomId | app/api/mockData.ts:65-67 | an id is the prefix, then "_", then at most 6 more characters |
| MockData.RandomIdDefault | app/api/mockData.ts:65 | with no prefix given, the id starts with "id_" and splits back into "id" and the suffix |
| MockData.SplitRandomId | app/api/mockData.ts:65-67 | cutting an id at its last "_" gives back the prefix and the suffix (the suffix has no "_") |
| MockData.RandomIdInjective | app/api/mockData.ts:65-67 | two ids are equal only if both their prefixes and their suffixes are |
| Text.DecimalString | app/api/users/phone/request-otp/route.ts:8 | the decimal rendering is a non-empty string of digits that starts with "0" exactly when the number is 0 |
| Text.DecimalRoundTrip | app/api/users/phone/request-otp/route.ts:8 | reading a rendered number back gives the number |
| Text.DecimalLength | app/api/users/phone/request-otp/route.ts:8 | a number in [10^k, 10^(k+1)) renders with exactly k + 1 digits |
| Text.Truthy | app/api/users/members/route.ts:7 | a request field passes a `!field` test exactly when it is present and, read with "" as default, non-empty |
| RequestOtpRoute.OtpCode | app/api/users/phone/request-otp/route.ts:8 | the code is exactly six decimal digits, never starting with 0, and denotes 100000 + draw, so it lies in [100000, 999999] |
| RequestOtpRoute.OtpCodeInjective | app/api/users/phone/request-otp/route.ts:8 | different draws give different codes |
| RequestOtpRoute.Post | app/api/users/phone/request-otp/route.ts:4-11 | a missing or empty phone gives 400 "phone required" and leaves the OTP map alone; otherwise the phone's slot is overwritten with the new code (other phones' codes are kept) and the response carries that same code |
| VerifyOtpRoute.KycCookieValue | app/api/users/phone/verify-otp/route.ts:15-16 | the `kyc_status` cookie is the registered user's status, or "pending" for a phone with no user |
| VerifyOtpRoute.Post | app/api/users/phone/verify-otp/route.ts:4-18 | a missing phone or otp gives 400; success happens exactly when a code was issued for the phone and equals the given one; otherwise 401 "Invalid OTP" with the session unchanged; success sets the session phone and the cookies `auth_token=mock-token` and `kyc_status`, keeps the code stored, and makes the current-user GET return the user registered under that phone |
| MeRoute.Get | app/api/users/me/route.ts:4-8 | 401 "not authenticated" exactly when no user is stored under the session phone, otherwise exactly that user |
| MembersRoute.Post | app/api/users/members/route.ts:4-19 | any missing or empty field among name, e-mail, phone and password gives 400 "Missing fields" with the users map unchanged; otherwise a fresh pending user with the given fields and a "u_" id is stored under the phone, replacing any earlier one; the other entries are kept; the body is the stored user, which has no password |
| ProposalsRoute.Post | app/api/users/proposals/route.ts:4-15 | the new proposal has a "p_" id, the given fields with "" and 0 for missing ones, and votes 0/0; it is stored under its id and the body is `{id}`; with a group it is put in front of the unchanged old list of latest proposals and the group's other fields are kept; no 400 is ever returned |
| KycReviewRoute.Reviewed | app/api/users/kyc/review/route.ts:5-7 | a review keeps the same phones, makes the session user (if any) verified with its other fields unchanged, and leaves every other user as it was |
| KycReviewRoute.ReviewedIdempotent | app/api/users/kyc/review/route.ts:7 | reviewing twice leaves the users as reviewing once does |
| KycReviewRoute.Post | app/api/users/kyc/review/route.ts:4-11 | without a user under the session phone: 401 "not authenticated" and nothing changes; otherwise that user object becomes verified and the cookie `kyc_status=verified` is set; the store record itself is unchanged |
| KycDocumentsRoute.Get | app/api/users/kyc/members/me/documents/route.ts:4-9 | 401 exactly when no user is stored under the session phone; otherwise "pending" while no document has been uploaded, whatever the user's status, and the user's own status after an upload |
| GroupRoute.Get | app/api/users/groups/me/route.ts:4-6 | the body is null exactly when there is no group, otherwise the group's current id, balance, members in order, proposals and transactions |
| GroupRoute.Patch | app/api/users/groups/me/route.ts:8-13 | with a group, the balance grows by exactly 1000 and members, latest proposals and transactions stay as they were (no ledger entry); without one nothing changes; the answer is `{ok: true}` either way |
| GroupMembersRoute.Get | app/api/users/groups/me/members/route.ts:4-6 | the group's members in stored order, or an empty list when there is no group |
| NotificationsRoute.Get | app/api/users/stats/notifications/route.ts:4-6 | the result is a prefix of the stored notifications of length min(10, count); with 10 or fewer it is all of them |
| Middleware.Decide | middleware.ts:3-34 | a redirect goes only to /auth/login, /kyc/upload or /dashboard; only the login redirect sets `next`, to the original path, and only without a token (the incoming query string is otherwise kept, so another redirect can still carry an earlier `next`); a redirect happens exactly when there is no token on a dashboard/proposals/treasury/KYC path, or a token on an /auth/ path, or a token and an unverified status on a dashboard/proposals/treasury path |
| Middleware.Matched | middleware.ts:36-44 | every path the matcher runs the middleware on is an /auth/, /kyc/ or dashboard/proposals/treasury route, or one of the bare paths "/auth" and "/kyc" |
| Middleware.Route | middleware.ts:36-44 | paths outside the matcher are never redirected; matched paths get the rule's decision |
| Middleware.UnauthenticatedToLogin | middleware.ts:12-17 | with no token, a dashboard, proposals, treasury or /kyc/ path redirects to /auth/login with `next` set to the path |
| Middleware.UnauthenticatedAuthPagePasses | middleware.ts:12-33 | with no token, an /auth/ path passes through |
| Middleware.UnverifiedToKycUpload | middleware.ts:19-25 | with a token, a non-/auth/ dashboard, proposals or treasury path and a status other than "verified", the request goes to /kyc/upload |
| Middleware.AuthenticatedLeavesAuthPages | middleware.ts:27-31 | with a token, an /auth/ path goes to /dashboard when verified and to /kyc/upload otherwise |
| Middleware.AuthenticatedKycPagePasses | middleware.ts:9-33 | with a token, a /kyc/ path passes through whatever the status |
| Middleware.VerifiedDashboardPasses | middleware.ts:19-33 | with a token and status "verified", dashboard, proposals and treasury paths pass through |
| Middleware.PrefixClassification | middleware.ts:10 | "/dashboardX" counts as a dashboard route, so without a token it redirects to login |
| Middleware.RedirectTargetSettles | middleware.ts:8-33 | redirects do not chain: every redirect target is a matched path that the same cookies let through |
| Middleware.NestedDashboardUnmatched | middleware.ts:36-44 | "/dashboard/settings" and "/treasury/history" are outside the matcher and never redirected, although the rule alone would send a visitor without a token to login |
| LoginPage.IsValidEmail | app/auth/login/page.tsx:18-21 | the regex as a predicate over characters; an accepted address has at least five characters and neither starts nor ends with "@" |
| LoginPage.ValidEmailHasShape | app/auth/login/page.tsx:18-21 | an accepted address has no whitespace, exactly one "@", something before it, and after it a "." with a character on each side |
| LoginPage.ShapeIsValidEmail | app/auth/login/page.tsx:18-21 | every string of that shape is accepted |
| LoginPage.ValidEmailShape | app/auth/login/page.tsx:18-21 | the regex accepts exactly the strings of that shape |
| LoginPage.EmailExamples | app/auth/login/page.tsx:19-20 | "a@b.c" is accepted; "a@b", "@b.c" and "a b@c.d" are rejected |
| LoginPage.LoginForm.constructor | app/auth/login/page.tsx:11-14 | the form starts with empty e-mail and password, not loading, no alerts |
| LoginPage.LoginForm.LoginDisabled | app/auth/login/page.tsx:122 | the button is enabled exactly when not loading and both e-mail and password are non-empty |
| LoginPage.LoginForm.OnEmailLogin | app/auth/login/page.tsx:23-34 | an invalid address alerts and returns before loading starts; a valid one with an empty password alerts and returns; otherwise loading starts with no alert |
| LoginPage.LoginForm.ClickLogin | app/auth/login/page.tsx:121-124 | a disabled button does nothing; an enabled one either starts loading or shows the e-mail alert, never the password alert |
| LoginPage.LoginForm.HandleKeyPress | app/auth/login/page.tsx:62-66 | Enter while not loading runs the login guards; any other key, or Enter while loading, does nothing |
| Scenarios.InitTwice | app/api/mockData.ts:39-63 | running `init` again after the module loaded keeps the first group and the demo user |
| Scenarios.LatestOtpWins | app/api/users/phone/verify-otp/route.ts:8-9 | after two OTP requests with different codes, verifying with the first gives 401 and with the second succeeds |
| Scenarios.VerifyTwice | app/api/users/phone/verify-otp/route.ts:8-11 | verifying the same code twice succeeds both times with the same response, and the code stays stored |
| Scenarios.SignUpAndSignIn | app/api/users/me/route.ts:5-7 | register, request a code and verify it; the current-user GET then returns the newly registered pending user |
| Scenarios.ReviewTwice | app/api/users/kyc/review/route.ts:4-11 | a second review answers as the first and leaves the users as one review does |
| Scenarios.ReviewSeenThroughGroup | app/api/mockData.ts:48-54 | after loading, a review of the signed-in demo user is visible through `group.members[0]` as well |
| Scenarios.SyncRepeatedly | app/api/users/groups/me/route.ts:9-11 | n balance syncs raise the balance by 1000 n and add no transaction |

## Left out

- Vote polling, SMS-voting start and proposal-by-id (`app/api/users/proposals/[id]/**`) are not part of this model. So no modelled operation writes `kycDocUploaded` or `notifications`, or changes a proposal after creating it. For that reason proposals are values, and their sharing between the proposals map and `latestProposals` is not tracked.
- The KYC document upload route that would set `kycDocUploaded` is not part of this model.
- Random numbers (OTP draw, id suffix) and the clock are parameters. Randomness itself is not modelled.
- Request parsing is not modelled: JSON bodies and form data become optional strings. For the JSON routes (register, request-OTP, verify-OTP), a body that fails to parse is turned into `{}` by `.catch(() => ({}))`, which is the same as every field missing. Non-string JSON values, such as a numeric `otp` compared with `!==`, and file entries in form data are not modelled.
- A JSON body that parses to `null` makes the destructuring in the register, request-OTP and verify-OTP routes throw, and the request fails with a server error. The model has no such outcome.
- ProposalsRoute.Post models form-data bodies only. A body that is not form data makes `request.formData()` throw with no `.catch`, and the request fails with a server error rather than answering `{id}`.
- `amount` is an integer. `Number(...)` coercion, NaN and decimals are left out. `treasuryBalance` is an unbounded integer rather than a floating-point number.
- Responses keep status, JSON body and cookie name/value pairs. Cookie attributes (path, httpOnly, sameSite) and the rest of a redirect URL's query string are not modelled.
- Middleware.Route: matcher patterns are read as "the path, or anything below it" for `/x/:path*`, and "the path, with or without a trailing slash" for `/x`. Other path-to-regexp details are not modelled.
- LoginPage.LoginForm.OnEmailLogin: the one-second timer that follows is not modelled. That covers the `document.cookie` writes, `setLoading(false)` and `router.push`. `alert` is modelled as a list of shown messages. The wallet connection and the password visibility toggle are not modelled.
- LoginPage.IsValidEmail works on Unicode scalar values, while JavaScript strings are UTF-16 code units. So a lone surrogate, which `[^\s@]` accepts, cannot be represented. Surrogate pairs are neither whitespace nor "@", so acceptance is otherwise the same.
- Each handler runs atomically. Interleaving of concurrent requests on the shared store is not modelled.
- Rendering and all other pages, components, hooks and client libraries are not modelled.
