/** app/api/users/members/route.ts: register a member. */
module MembersRoute {
  import opened Wrappers
  import opened Text
  import opened MockData
  import opened Http

  /** `POST`: after a presence check of the four fields, store a new pending user under its
      phone, overwriting whoever was registered there; `suffix` is randomId's random part. */
  method Post(s: State, name: Option<string>, email: Option<string>, phone: Option<string>,
              password: Option<string>, suffix: string) returns (r: Response)
    requires s.Valid() && IsIdSuffix(suffix)
    modifies s`users
    ensures s.Valid()
    ensures !(Truthy(name) && Truthy(email) && Truthy(phone) && Truthy(password)) ==>
      r == Error(400, "Missing fields") && s.users == old(s.users)
    ensures Truthy(name) && Truthy(email) && Truthy(phone) && Truthy(password) ==>
      var p := phone.value;
      && p in s.users && fresh(s.users[p])
      && s.users == old(s.users)[p := s.users[p]]
      && s.users[p].Rec() == UserRec(RandomId("u", suffix), name.value, email.value, p, Pending)
      && r == Json(UserBody(s.users[p].Rec()))
  {
    if !Truthy(name) || !Truthy(email) || !Truthy(phone) || !Truthy(password) {
      return Error(400, "Missing fields");
    }
    var user := new User(RandomId("u", suffix), name.value, email.value, phone.value);
    s.users := s.users[phone.value := user];
    r := Json(UserBody(user.Rec()));
  }
}
