/** app/api/users/kyc/members/me/documents/route.ts: the KYC status as the client sees it. */
module KycDocumentsRoute {
  import opened MockData
  import opened Http

  /** `GET`: 401 without a signed-in user; otherwise "pending" until a document has been
      uploaded, and the user's own status after that. */
  function Get(s: State): (r: Response)
    reads s, s.users.Values
    ensures r.status == 401 <==> s.currentUserPhone !in s.users
    ensures r.status == 401 ==> r == Error(401, "not authenticated")
    ensures r.status != 401 ==> r.status == 200 && r.cookies == [] && r.body.KycStatusBody?
    ensures r.status == 200 && !s.kycDocUploaded ==> r.body.status == Pending
    ensures r.status == 200 && s.kycDocUploaded ==> r.body.status == s.users[s.currentUserPhone].kycStatus
  {
    if s.currentUserPhone !in s.users then Error(401, "not authenticated")
    else Json(KycStatusBody(if s.kycDocUploaded then s.users[s.currentUserPhone].kycStatus else Pending))
  }
}
