/** Request sequences against the store and what the handlers' contracts make of them. */
module Scenarios {
  import opened Wrappers
  import opened MockData
  import opened Http
  import RequestOtpRoute
  import VerifyOtpRoute
  import MembersRoute
  import MeRoute
  import KycReviewRoute
  import GroupRoute

  /** A second `init()` after loading changes nothing. */
  method InitTwice(now1: string, now2: string) returns (s: State)
    ensures s.group != null && s.group.transactions == [DemoTransaction(now1)]
    ensures s.users.Keys == {DemoPhone} && s.currentUserPhone == DemoPhone
  {
    s := Load(now1);
    s.Init(now2);
  }

  /** The latest code wins: after two requests with different codes, the first code is
      rejected and the second accepted. */
  method LatestOtpWins(s: State, phone: string, draw1: nat, draw2: nat) returns (first: Response, second: Response)
    requires s.Valid() && phone != "" && draw1 < 900000 && draw2 < 900000 && draw1 != draw2
    modifies s`otpByPhone, s`currentUserPhone
    ensures first == Error(401, "Invalid OTP")
    ensures second.status == 200 && s.currentUserPhone == phone
  {
    var r1 := RequestOtpRoute.Post(s, Some(phone), draw1);
    var r2 := RequestOtpRoute.Post(s, Some(phone), draw2);
    RequestOtpRoute.OtpCodeInjective(draw1, draw2);
    first := VerifyOtpRoute.Post(s, Some(phone), Some(RequestOtpRoute.OtpCode(draw1)));
    second := VerifyOtpRoute.Post(s, Some(phone), Some(RequestOtpRoute.OtpCode(draw2)));
  }

  /** A successful verification does not consume the code: the same code works again. */
  method VerifyTwice(s: State, phone: string, draw: nat) returns (first: Response, second: Response)
    requires s.Valid() && phone != "" && draw < 900000
    modifies s`otpByPhone, s`currentUserPhone
    ensures first.status == 200 && second.status == 200 && first == second
    ensures phone in s.otpByPhone && s.otpByPhone[phone] == RequestOtpRoute.OtpCode(draw)
  {
    var issued := RequestOtpRoute.Post(s, Some(phone), draw);
    var code := issued.body.otp;
    first := VerifyOtpRoute.Post(s, Some(phone), Some(code));
    second := VerifyOtpRoute.Post(s, Some(phone), Some(code));
  }

  /** Register, request a code, verify it: the current-user GET then returns the registered user. */
  method SignUpAndSignIn(s: State, name: string, email: string, phone: string, password: string,
                         suffix: string, draw: nat) returns (me: Response)
    requires s.Valid() && IsIdSuffix(suffix) && draw < 900000
    requires name != "" && email != "" && phone != "" && password != ""
    modifies s`users, s`otpByPhone, s`currentUserPhone
    ensures s.Valid() && s.currentUserPhone == phone
    ensures me == Json(UserBody(UserRec(RandomId("u", suffix), name, email, phone, Pending)))
  {
    var registered := MembersRoute.Post(s, Some(name), Some(email), Some(phone), Some(password), suffix);
    var issued := RequestOtpRoute.Post(s, Some(phone), draw);
    var verified := VerifyOtpRoute.Post(s, Some(phone), Some(issued.body.otp));
    me := MeRoute.Get(s);
  }

  /** A second review answers as the first did and leaves every user as the first left it. */
  method ReviewTwice(s: State) returns (first: Response, second: Response)
    requires s.Valid()
    modifies if s.currentUserPhone in s.users then {s.users[s.currentUserPhone]} else {}
    ensures first == second
    ensures s.UserRecs() == KycReviewRoute.Reviewed(old(s.UserRecs()), s.currentUserPhone)
  {
    first := KycReviewRoute.Post(s);
    second := KycReviewRoute.Post(s);
    KycReviewRoute.ReviewedIdempotent(old(s.UserRecs()), s.currentUserPhone);
  }

  /** The demo user is one object in the users map and in the group's member list, so a
      review of the signed-in demo user is seen through the group as well. */
  method ReviewSeenThroughGroup(now: string) returns (s: State)
    ensures s.group != null && |s.group.members| == 1
    ensures s.group.members[0].kycStatus == Verified
    ensures DemoPhone in s.users && s.users[DemoPhone].kycStatus == Verified
  {
    s := Load(now);
    var r := KycReviewRoute.Post(s);
  }

  /** n balance syncs raise the balance by 1000 n. */
  method SyncRepeatedly(s: State, n: nat)
    requires s.Valid()
    modifies s.group
    ensures s.group != null ==>
      && s.group.treasuryBalance == old(s.group.treasuryBalance) + GroupRoute.SyncIncrement * n
      && s.group.transactions == old(s.group.transactions)
  {
    var i := 0;
    while i < n
      invariant 0 <= i <= n
      invariant s.Valid()
      invariant s.group != null ==>
        && s.group.treasuryBalance == old(s.group.treasuryBalance) + GroupRoute.SyncIncrement * i
        && s.group.transactions == old(s.group.transactions)
    {
      var r := GroupRoute.Patch(s);
      i := i + 1;
    }
  }
}
