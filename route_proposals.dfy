/** app/api/users/proposals/route.ts: create a proposal. */
module ProposalsRoute {
  import opened Wrappers
  import opened MockData
  import opened Http

  /** `POST`: build a proposal from the form (absent fields default to "" and 0), store it under
      a fresh id and put it at the head of the group's latest proposals when there is a group.
      `amount` is the form's amount as a number, None when the field is absent or empty. */
  method Post(s: State, title: Option<string>, amount: Option<int>, walletAddress: Option<string>,
              description: Option<string>, suffix: string) returns (r: Response)
    requires s.Valid() && IsIdSuffix(suffix)
    modifies s`proposals, s.group
    ensures s.Valid()
    ensures var p := Proposal(RandomId("p", suffix), title.GetOr(""), description.GetOr(""),
                              amount.GetOr(0), walletAddress.GetOr(""), None, None, Some(Votes(0, 0)));
      && s.proposals == old(s.proposals)[p.id := p]
      && r == Json(IdBody(p.id))
      && (s.group != null ==>
            && s.group.latestProposals == [p] + old(s.group.latestProposals)
            && s.group.id == old(s.group.id) && s.group.name == old(s.group.name)
            && s.group.treasuryBalance == old(s.group.treasuryBalance)
            && s.group.members == old(s.group.members)
            && s.group.transactions == old(s.group.transactions))
  {
    var id := RandomId("p", suffix);
    var proposal := Proposal(id, title.GetOr(""), description.GetOr(""), amount.GetOr(0),
                             walletAddress.GetOr(""), None, None, Some(Votes(0, 0)));
    s.proposals := s.proposals[id := proposal];
    if s.group != null {
      s.group.latestProposals := [proposal] + s.group.latestProposals;
    }
    r := Json(IdBody(id));
  }
}
