/** app/api/users/phone/verify-otp/route.ts: sign in with a phone and its code. */
module VerifyOtpRoute {
  import opened Wrappers
  import opened Text
  import opened MockData
  import opened Http
  import MeRoute

  /** The `kyc_status` cookie value: the user's status, or "pending" for an unregistered phone. */
  function KycCookieValue(s: State, phone: string): (v: string)
    reads s, s.users.Values
    ensures phone in s.users ==> v == s.users[phone].kycStatus.Name()
    ensures phone !in s.users ==> v == "pending"
  {
    if phone in s.users then s.users[phone].kycStatus.Name() else "pending"
  }

  /** The code matches when one was issued for the phone and it is the same string. */
  predicate Matches(s: State, phone: string, otp: string)
    reads s
  {
    phone in s.otpByPhone && s.otpByPhone[phone] == otp
  }

  /** `POST`: on a match with the last code issued, point the session at the phone and set the
      auth and KYC cookies; the code stays stored. */
  method Post(s: State, phone: Option<string>, otp: Option<string>) returns (r: Response)
    requires s.Valid()
    modifies s`currentUserPhone
    ensures s.Valid()
    ensures s.otpByPhone == old(s.otpByPhone)
    ensures !Truthy(phone) || !Truthy(otp) ==>
      r == Error(400, "phone and otp required") && s.currentUserPhone == old(s.currentUserPhone)
    ensures Truthy(phone) && Truthy(otp) && !Matches(s, phone.value, otp.value) ==>
      r == Error(401, "Invalid OTP") && s.currentUserPhone == old(s.currentUserPhone)
    ensures r.status == 200 <==> Truthy(phone) && Truthy(otp) && Matches(s, phone.value, otp.value)
    ensures r.status == 200 ==>
      && s.currentUserPhone == phone.value
      && r == Response(200, OkBody, [Cookie("auth_token", "mock-token"),
                                     Cookie("kyc_status", KycCookieValue(s, phone.value))])
    ensures r.status == 200 && phone.value in s.users ==>
      MeRoute.Get(s) == Json(UserBody(s.users[phone.value].Rec()))
  {
    if !Truthy(phone) || !Truthy(otp) {
      return Error(400, "phone and otp required");
    }
    if !Matches(s, phone.value, otp.value) {
      return Error(401, "Invalid OTP");
    }
    s.currentUserPhone := phone.value;
    r := Response(200, OkBody, [Cookie("auth_token", "mock-token"),
                                Cookie("kyc_status", KycCookieValue(s, phone.value))]);
  }
}
