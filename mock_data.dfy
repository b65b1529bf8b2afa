/** The process-wide in-memory store of app/api/mockData.ts: its record types, the mutable
    `state` record, the lazy one-time `init()` and `randomId`. */
module MockData {
  import opened Wrappers
  import opened Text

  /** `User.kycStatus`: "pending" | "verified" | "rejected". */
  datatype KycStatus = Pending | Verified | Rejected {
    /** The string the source stores and sends in the `kyc_status` cookie. */
    function Name(): (s: string)
      ensures s != ""
    {
      match this
      case Pending => "pending"
      case Verified => "verified"
      case Rejected => "rejected"
    }
  }

  /** A user as serialised into a response body (a snapshot of a User object). */
  datatype UserRec = UserRec(id: string, name: string, email: string, phone: string, kycStatus: KycStatus)

  datatype Votes = Votes(yes: nat, no: nat)

  datatype AiVerification = AiVerification(status: string, details: Option<string>)

  /** `Proposal`; no operation of this model mutates one, so it is a value. */
  datatype Proposal = Proposal(
    id: string,
    title: string,
    description: string,
    amount: int,
    walletAddress: string,
    imageUrl: Option<string>,
    aiVerification: Option<AiVerification>,
    votes: Option<Votes>)

  /** An entry of `Group.transactions`; `createdAt` is an ISO date string, kept opaque. */
  datatype Transaction = Transaction(id: string, amount: int, to: string, createdAt: string, status: string)

  /** An entry of `state.notifications`; `kind` is the source's `type` field. */
  datatype Notification = Notification(id: string, kind: string, message: string, createdAt: string)

  /** A group as serialised into a response body. */
  datatype GroupRec = GroupRec(
    id: string,
    name: string,
    treasuryBalance: int,
    members: seq<UserRec>,
    latestProposals: seq<Proposal>,
    transactions: seq<Transaction>)

  /** `User`: an object, because kyc review updates `kycStatus` on the very object that the
      users map and the group's member list both hold. */
  class User {
    var id: string
    var name: string
    var email: string
    var phone: string
    var kycStatus: KycStatus

    /** Both places that build a user set `kycStatus: "pending"`. */
    constructor (id: string, name: string, email: string, phone: string)
      ensures Rec() == UserRec(id, name, email, phone, Pending)
    {
      this.id := id;
      this.name := name;
      this.email := email;
      this.phone := phone;
      this.kycStatus := Pending;
    }

    /** What `NextResponse.json(user)` sends. */
    function Rec(): (r: UserRec)
      reads this
      ensures r.phone == phone && r.kycStatus == kycStatus
    {
      UserRec(id, name, email, phone, kycStatus)
    }
  }

  /** Snapshots of a list of users, in order. */
  function Recs(us: seq<User>): (rs: seq<UserRec>)
    reads us
    ensures |rs| == |us|
    ensures forall i :: 0 <= i < |us| ==> rs[i] == us[i].Rec()
  {
    if us == [] then [] else [us[0].Rec()] + Recs(us[1..])
  }

  /** `Group`: an object, because PATCH and proposal creation update it in place. */
  class Group {
    var id: string
    var name: string
    var treasuryBalance: int
    var members: seq<User>
    var latestProposals: seq<Proposal>
    var transactions: seq<Transaction>

    constructor (id: string, name: string, treasuryBalance: int, members: seq<User>,
                 transactions: seq<Transaction>)
      ensures this.id == id && this.name == name && this.treasuryBalance == treasuryBalance
      ensures this.members == members && latestProposals == [] && this.transactions == transactions
    {
      this.id := id;
      this.name := name;
      this.treasuryBalance := treasuryBalance;
      this.members := members;
      this.latestProposals := [];
      this.transactions := transactions;
    }

    /** What `NextResponse.json(group)` sends. */
    function Rec(): (r: GroupRec)
      reads this, members
      ensures r.id == id && r.treasuryBalance == treasuryBalance
      ensures |r.members| == |members| && forall i :: 0 <= i < |members| ==> r.members[i] == members[i].Rec()
      ensures r.latestProposals == latestProposals && r.transactions == transactions
    {
      GroupRec(id, name, treasuryBalance, Recs(members), latestProposals, transactions)
    }
  }

  const DemoPhone := "+254700000000"
  const DemoGroupId := "me"
  const DemoGroupName := "Harambee Demo Group"
  const DemoBalance := 1250000

  /** The demo user that `init` creates. */
  function DemoUser(): UserRec {
    UserRec("u1", "Demo User", "demo@example.com", DemoPhone, Pending)
  }

  /** The one transaction of the demo group; `now` is the ISO time `init` runs at. */
  function DemoTransaction(now: string): Transaction {
    Transaction("t1", 50000, "0xRecipient1", now, "executed")
  }

  /** The shared mutable `state` record. */
  class State {
    var otpByPhone: map<string, string>
    var users: map<string, User>
    /** The single session pointer; "" when nobody has signed in. */
    var currentUserPhone: string
    var kycDocUploaded: bool
    var group: Group?
    var proposals: map<string, Proposal>
    var notifications: seq<Notification>

    /** Phone is the lookup key: every user is stored under its own phone. */
    ghost predicate Valid()
      reads this, users.Values
    {
      forall p :: p in users ==> users[p].phone == p
    }

    /** The users map as the JSON snapshots of the stored objects. */
    ghost function UserRecs(): (m: map<string, UserRec>)
      reads this, users.Values
      ensures m.Keys == users.Keys
      ensures forall p :: p in users ==> m[p] == users[p].Rec()
    {
      map p | p in users :: users[p].Rec()
    }

    /** The record's initialisers, before `init()` runs. */
    constructor ()
      ensures Valid()
      ensures otpByPhone == map[] && users == map[] && currentUserPhone == ""
      ensures !kycDocUploaded && group == null && proposals == map[] && notifications == []
    {
      otpByPhone := map[];
      users := map[];
      currentUserPhone := "";
      kycDocUploaded := false;
      group := null;
      proposals := map[];
      notifications := [];
    }

    /** `init()`: create the demo user and the demo group, unless the group already exists. */
    method Init(now: string)
      requires Valid()
      modifies this
      ensures Valid()
      ensures old(group) != null ==> unchanged(this)
      ensures old(group) == null ==>
        && group != null && fresh(group)
        && group.Rec() == GroupRec(DemoGroupId, DemoGroupName, DemoBalance, [DemoUser()], [], [DemoTransaction(now)])
        && |group.members| == 1 && fresh(group.members[0])
        && users == old(users)[DemoPhone := group.members[0]]
        && currentUserPhone == DemoPhone
        && otpByPhone == old(otpByPhone) && kycDocUploaded == old(kycDocUploaded)
        && proposals == old(proposals) && notifications == old(notifications)
    {
      if group == null {
        var user := new User("u1", "Demo User", "demo@example.com", DemoPhone);
        users := users[user.phone := user];
        currentUserPhone := user.phone;
        group := new Group(DemoGroupId, DemoGroupName, DemoBalance, [user], [DemoTransaction(now)]);
      }
    }
  }

  /** Loading the module: the record's initialisers followed by the top-level `init()` call. */
  method Load(now: string) returns (s: State)
    ensures fresh(s) && s.Valid()
    ensures s.otpByPhone == map[] && !s.kycDocUploaded && s.proposals == map[] && s.notifications == []
    ensures s.users.Keys == {DemoPhone} && s.users[DemoPhone].Rec() == DemoUser()
    ensures s.currentUserPhone == DemoPhone
    ensures s.group != null
    ensures s.group.Rec() == GroupRec(DemoGroupId, DemoGroupName, DemoBalance, [DemoUser()], [], [DemoTransaction(now)])
    ensures s.group.members == [s.users[DemoPhone]]
    ensures fresh(s.group) && fresh(s.users[DemoPhone])
  {
    s := new State();
    s.Init(now);
  }

  /** The characters `Math.random().toString(36)` can produce after "0.". */
  predicate IsBase36Digit(c: char) {
    '0' <= c <= '9' || 'a' <= c <= 'z'
  }

  /** What `.slice(2, 8)` of a base-36 rendering of `Math.random()` can be: at most six base-36 digits. */
  predicate IsIdSuffix(s: string) {
    |s| <= 6 && forall i :: 0 <= i < |s| ==> IsBase36Digit(s[i])
  }

  const DefaultIdPrefix := "id"

  /** `randomId(prefix)`, with the random suffix passed in. */
  function RandomId(prefix: string, suffix: string): (id: string)
    requires IsIdSuffix(suffix)
    ensures StartsWith(id, prefix + "_")
    ensures |id| <= |prefix| + 7
  {
    prefix + "_" + suffix
  }

  /** `randomId()` called without a prefix. */
  function RandomIdDefault(suffix: string): (id: string)
    requires IsIdSuffix(suffix)
    ensures StartsWith(id, "id_") && SplitId(id) == Some((DefaultIdPrefix, suffix))
  {
    SplitRandomId(DefaultIdPrefix, suffix);
    RandomId(DefaultIdPrefix, suffix)
  }

  /** Cuts an id at its last "_" into prefix and suffix. */
  function SplitId(id: string): (r: Option<(string, string)>)
    ensures r.Some? ==> id == r.value.0 + "_" + r.value.1
  {
    match LastIndexOf(id, '_')
    case None => None
    case Some(k) => Some((id[..k], id[k + 1..]))
  }

  /** The suffix never contains "_", so an id splits back into the prefix and suffix it was made of. */
  lemma SplitRandomId(prefix: string, suffix: string)
    requires IsIdSuffix(suffix)
    ensures SplitId(RandomId(prefix, suffix)) == Some((prefix, suffix))
  {
    var id := RandomId(prefix, suffix);
    var k := LastIndexOf(id, '_');
    assert id[|prefix|] == '_';
    assert forall j :: |prefix| < j < |id| ==> id[j] == suffix[j - |prefix| - 1];
    assert k == Some(|prefix|);
    assert id[..|prefix|] == prefix;
    assert id[|prefix| + 1..] == suffix;
  }

  /** Two ids made by randomId are equal only when their prefixes and suffixes are. */
  lemma RandomIdInjective(p1: string, s1: string, p2: string, s2: string)
    requires IsIdSuffix(s1) && IsIdSuffix(s2)
    requires RandomId(p1, s1) == RandomId(p2, s2)
    ensures p1 == p2 && s1 == s2
  {
    SplitRandomId(p1, s1);
    SplitRandomId(p2, s2);
  }
}
