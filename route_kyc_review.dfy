/** app/api/users/kyc/review/route.ts: mark the signed-in user verified. */
module KycReviewRoute {
  import opened MockData
  import opened Http

  /** The users map after a review for the session phone `current`: that user, if any, becomes
      verified, and nothing else changes. */
  function Reviewed(users: map<string, UserRec>, current: string): (r: map<string, UserRec>)
    ensures r.Keys == users.Keys
    ensures current in users ==> r[current] == users[current].(kycStatus := Verified)
    ensures forall p :: p in users && p != current ==> r[p] == users[p]
  {
    if current in users then users[current := users[current].(kycStatus := Verified)] else users
  }

  /** Reviewing twice is reviewing once. */
  lemma ReviewedIdempotent(users: map<string, UserRec>, current: string)
    ensures Reviewed(Reviewed(users, current), current) == Reviewed(users, current)
  {
  }

  /** `POST`: set `kycStatus` to verified on the user object stored under the session phone
      (and so on every list that holds that object), or answer 401 when there is none. */
  method Post(s: State) returns (r: Response)
    requires s.Valid()
    modifies if s.currentUserPhone in s.users then {s.users[s.currentUserPhone]} else {}
    ensures s.Valid() && unchanged(s)
    ensures s.UserRecs() == Reviewed(old(s.UserRecs()), s.currentUserPhone)
    ensures s.currentUserPhone !in s.users ==> r == Error(401, "not authenticated")
    ensures s.currentUserPhone in s.users ==> r == Response(200, OkBody, [Cookie("kyc_status", "verified")])
  {
    if s.currentUserPhone !in s.users {
      return Error(401, "not authenticated");
    }
    var user := s.users[s.currentUserPhone];
    user.kycStatus := Verified;
    r := Response(200, OkBody, [Cookie("kyc_status", "verified")]);
  }
}
