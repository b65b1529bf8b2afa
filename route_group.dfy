/** app/api/users/groups/me/route.ts: the demo group and its balance "sync". */
module GroupRoute {
  import opened Wrappers
  import opened MockData
  import opened Http

  const SyncIncrement := 1000

  /** `GET`: the group as it stands, or null when there is none. */
  function Get(s: State): (r: Response)
    reads s, s.group, if s.group != null then s.group.members else []
    ensures r.status == 200 && r.cookies == [] && r.body.GroupBody?
    ensures r.body.group.None? <==> s.group == null
    ensures s.group != null ==> r.body.group == Some(s.group.Rec())
  {
    Json(GroupBody(if s.group == null then None else Some(s.group.Rec())))
  }

  /** `PATCH`: add 1000 to the treasury balance when there is a group; answer ok either way.
      No transaction is recorded. */
  method Patch(s: State) returns (r: Response)
    requires s.Valid()
    modifies s.group
    ensures s.Valid()
    ensures r == Json(OkBody)
    ensures s.group != null ==>
      && s.group.treasuryBalance == old(s.group.treasuryBalance) + SyncIncrement
      && s.group.id == old(s.group.id) && s.group.name == old(s.group.name)
      && s.group.members == old(s.group.members)
      && s.group.latestProposals == old(s.group.latestProposals)
      && s.group.transactions == old(s.group.transactions)
  {
    if s.group != null {
      s.group.treasuryBalance := s.group.treasuryBalance + SyncIncrement;
    }
    r := Json(OkBody);
  }
}
