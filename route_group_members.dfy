/** app/api/users/groups/me/members/route.ts: the group's member list. */
module GroupMembersRoute {
  import opened MockData
  import opened Http

  /** `GET`: the members in stored order, or an empty list when there is no group. */
  function Get(s: State): (r: Response)
    reads s, s.group, if s.group != null then s.group.members else []
    ensures r.status == 200 && r.cookies == [] && r.body.MembersBody?
    ensures s.group == null ==> r.body.members == []
    ensures s.group != null ==>
      && |r.body.members| == |s.group.members|
      && forall i :: 0 <= i < |s.group.members| ==> r.body.members[i] == s.group.members[i].Rec()
  {
    Json(MembersBody(if s.group == null then [] else Recs(s.group.members)))
  }
}
