/** app/api/users/me/route.ts: the signed-in user. */
module MeRoute {
  import opened MockData
  import opened Http

  /** `GET`: the user stored under the session phone, or 401 when there is none. */
  function Get(s: State): (r: Response)
    reads s, s.users.Values
    ensures r.status == 401 <==> s.currentUserPhone !in s.users
    ensures r.status == 401 ==> r == Error(401, "not authenticated")
    ensures r.status != 401 ==> r == Json(UserBody(s.users[s.currentUserPhone].Rec()))
  {
    if s.currentUserPhone in s.users then Json(UserBody(s.users[s.currentUserPhone].Rec()))
    else Error(401, "not authenticated")
  }
}
