/** app/api/users/phone/request-otp/route.ts: issue a one-time code for a phone. */
module RequestOtpRoute {
  import opened Wrappers
  import opened Text
  import opened MockData
  import opened Http

  /** `(Math.floor(Math.random() * 900000) + 100000).toString()`, where `draw` is the floored
      product, so 0 <= draw < 900000: a code of exactly six decimal digits denoting 100000 + draw. */
  function OtpCode(draw: nat): (code: string)
    requires draw < 900000
    ensures |code| == 6 && AllDigits(code) && code[0] != '0'
    ensures DecimalValue(code) == draw + 100000
  {
    DecimalLength(draw + 100000, 5);
    DecimalRoundTrip(draw + 100000);
    DecimalString(draw + 100000)
  }

  /** Different draws give different codes. */
  lemma OtpCodeInjective(d1: nat, d2: nat)
    requires d1 < 900000 && d2 < 900000 && d1 != d2
    ensures OtpCode(d1) != OtpCode(d2)
  {
  }

  /** `POST`: store a fresh code for the phone, replacing any earlier one, and return it. */
  method Post(s: State, phone: Option<string>, draw: nat) returns (r: Response)
    requires s.Valid() && draw < 900000
    modifies s`otpByPhone
    ensures s.Valid()
    ensures !Truthy(phone) ==> r == Error(400, "phone required") && s.otpByPhone == old(s.otpByPhone)
    ensures Truthy(phone) ==>
      && s.otpByPhone == old(s.otpByPhone)[phone.value := OtpCode(draw)]
      && r == Json(OtpIssued(OtpCode(draw)))
  {
    if !Truthy(phone) {
      return Error(400, "phone required");
    }
    var code := OtpCode(draw);
    s.otpByPhone := s.otpByPhone[phone.value := code];
    r := Json(OtpIssued(code));
  }
}
