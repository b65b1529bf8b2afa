/** app/auth/login/page.tsx: the e-mail check and the guards of the e-mail login. */
module LoginPage {
  import opened Wrappers
  import opened Text

  /** A character JavaScript's `\s` matches. */
  predicate IsJsWhitespace(c: char) {
    || c == '\t' || c == '\n' || c == '\U{000B}' || c == '\U{000C}' || c == '\r' || c == ' '
    || c == '\U{00A0}' || c == '\U{1680}' || ('\U{2000}' <= c <= '\U{200A}')
    || c == '\U{2028}' || c == '\U{2029}' || c == '\U{202F}' || c == '\U{205F}'
    || c == '\U{3000}' || c == '\U{FEFF}'
  }

  /** A character of the class `[^\s@]`. */
  predicate IsEmailChar(c: char) {
    c != '@' && !IsJsWhitespace(c)
  }

  /** A string matching `[^\s@]+`. */
  predicate IsEmailRun(s: string) {
    |s| > 0 && forall i :: 0 <= i < |s| ==> IsEmailChar(s[i])
  }

  /** `email` matches the regex with its "@" at `at` and its "\." at `dot`. */
  predicate EmailSplit(email: string, at: nat, dot: nat) {
    && at < dot < |email|
    && email[at] == '@' && email[dot] == '.'
    && IsEmailRun(email[..at]) && IsEmailRun(email[at + 1..dot]) && IsEmailRun(email[dot + 1..])
  }

  /** `isValidEmail`: `/^[^\s@]+@[^\s@]+\.[^\s@]+$/.test(email)`. */
  predicate IsValidEmail(email: string)
    ensures IsValidEmail(email) ==> |email| >= 5 && email[0] != '@' && email[|email| - 1] != '@'
  {
    exists at: nat, dot: nat | at < dot < |email| :: EmailSplit(email, at, dot)
  }

  predicate NoWhitespace(s: string) {
    forall i :: 0 <= i < |s| ==> !IsJsWhitespace(s[i])
  }

  /** A "." with at least one character on each side. */
  predicate HasInnerDot(host: string) {
    exists k :: 0 < k < |host| - 1 && host[k] == '.'
  }

  /** The shape of a valid address, stated without the regex: no whitespace, exactly one "@",
      something before it, and after it a "." that is neither first nor last. */
  predicate EmailShape(email: string) {
    && NoWhitespace(email)
    && Count(email, '@') == 1
    && match IndexOf(email, '@')
       case None => false
       case Some(at) => 0 < at && HasInnerDot(email[at + 1..])
  }

  lemma CountAround(s: string, i: nat, c: char)
    requires i < |s|
    ensures Count(s, c) == Count(s[..i], c) + (if s[i] == c then 1 else 0) + Count(s[i + 1..], c)
  {
    assert s == s[..i] + ([s[i]] + s[i + 1..]);
    CountAppend(s[..i], [s[i]] + s[i + 1..], c);
    CountAppend([s[i]], s[i + 1..], c);
  }

  /** What the regex accepts has that shape. */
  lemma ValidEmailHasShape(email: string)
    requires IsValidEmail(email)
    ensures EmailShape(email)
  {
    var at: nat, dot: nat :| at < dot < |email| && EmailSplit(email, at, dot);
    var local, host, tld := email[..at], email[at + 1..dot], email[dot + 1..];
    forall i | 0 <= i < |email| ensures !IsJsWhitespace(email[i]) && (i != at ==> email[i] != '@') {
      if i < at {
        assert email[i] == local[i];
      } else if at < i < dot {
        assert email[i] == host[i - at - 1];
      } else if dot < i {
        assert email[i] == tld[i - dot - 1];
      }
    }
    CountAround(email, at, '@');
    assert IndexOf(email, '@') == Some(at);
    var rest := email[at + 1..];
    assert rest[dot - at - 1] == '.';
  }

  /** Every string of that shape is accepted by the regex. */
  lemma ShapeIsValidEmail(email: string)
    requires EmailShape(email)
    ensures IsValidEmail(email)
  {
    var at := IndexOf(email, '@').value;
    var rest := email[at + 1..];
    var k :| 0 < k < |rest| - 1 && rest[k] == '.';
    var dot := at + 1 + k;
    CountAround(email, at, '@');
    forall i | 0 <= i < |email| && i != at ensures IsEmailChar(email[i]) {
      if i > at {
        assert email[i] == rest[i - at - 1];
      }
    }
    assert forall i :: 0 <= i < at ==> email[..at][i] == email[i];
    assert forall i :: at + 1 <= i < dot ==> email[at + 1..dot][i - at - 1] == email[i];
    assert forall i :: dot + 1 <= i < |email| ==> email[dot + 1..][i - dot - 1] == email[i];
    assert EmailSplit(email, at, dot);
  }

  /** The regex accepts exactly the strings of that shape. */
  lemma ValidEmailShape(email: string)
    ensures IsValidEmail(email) <==> EmailShape(email)
  {
    if IsValidEmail(email) {
      ValidEmailHasShape(email);
    }
    if EmailShape(email) {
      ShapeIsValidEmail(email);
    }
  }

  /** The examples: "a@b.c" is accepted; "a@b", "@b.c" and "a b@c.d" are not. */
  lemma EmailExamples()
    ensures IsValidEmail("a@b.c")
    ensures !IsValidEmail("a@b") && !IsValidEmail("@b.c") && !IsValidEmail("a b@c.d")
  {
    assert EmailSplit("a@b.c", 1, 3);
    ValidEmailShape("a@b");
    ValidEmailShape("@b.c");
    ValidEmailShape("a b@c.d");
    assert !NoWhitespace("a b@c.d") by { assert IsJsWhitespace("a b@c.d"[1]); }
    assert IndexOf("@b.c", '@') == Some(0);
    assert IndexOf("a@b", '@') == Some(1);
    assert !HasInnerDot("b");
  }

  const InvalidEmailAlert := "Please enter a valid email address"
  const MissingPasswordAlert := "Please enter your password"

  /** The login page's state that the e-mail login reads or writes. */
  class LoginForm {
    var email: string
    var password: string
    var loading: bool
    /** The messages shown with `alert`, oldest first. */
    var alerts: seq<string>

    /** The page's `useState` initial values. */
    constructor ()
      ensures email == "" && password == "" && !loading && alerts == []
    {
      email := "";
      password := "";
      loading := false;
      alerts := [];
    }

    /** `disabled={loading || !email || !password}` on the login button. */
    function LoginDisabled(): (disabled: bool)
      reads this
      ensures !disabled <==> !loading && email != "" && password != ""
    {
      loading || email == "" || password == ""
    }

    /** `onEmailLogin`: alert and stop on an invalid address, then on an empty password;
        otherwise start loading (the timed mock sign-in that follows is not modelled). */
    method OnEmailLogin()
      modifies this`loading, this`alerts
      ensures !IsValidEmail(email) ==> alerts == old(alerts) + [InvalidEmailAlert] && loading == old(loading)
      ensures IsValidEmail(email) && password == "" ==>
        alerts == old(alerts) + [MissingPasswordAlert] && loading == old(loading)
      ensures IsValidEmail(email) && password != "" ==> alerts == old(alerts) && loading
    {
      if !IsValidEmail(email) {
        alerts := alerts + [InvalidEmailAlert];
        return;
      }
      if password == "" {
        alerts := alerts + [MissingPasswordAlert];
        return;
      }
      loading := true;
    }

    /** A click on the login button, which runs `onEmailLogin` unless the button is disabled.
        An enabled button has a password, so the password alert never comes from a click. */
    method ClickLogin()
      modifies this`loading, this`alerts
      ensures old(LoginDisabled()) ==> alerts == old(alerts) && loading == old(loading)
      ensures !old(LoginDisabled()) ==>
        if IsValidEmail(email) then alerts == old(alerts) && loading
        else alerts == old(alerts) + [InvalidEmailAlert] && loading == old(loading)
    {
      if !LoginDisabled() {
        OnEmailLogin();
      }
    }

    /** `handleKeyPress`: Enter while not loading runs `onEmailLogin`. */
    method HandleKeyPress(key: string)
      modifies this`loading, this`alerts
      ensures key != "Enter" || old(loading) ==> alerts == old(alerts) && loading == old(loading)
      ensures key == "Enter" && !old(loading) ==>
        && (!IsValidEmail(email) ==> alerts == old(alerts) + [InvalidEmailAlert] && !loading)
        && (IsValidEmail(email) && password == "" ==> alerts == old(alerts) + [MissingPasswordAlert] && !loading)
        && (IsValidEmail(email) && password != "" ==> alerts == old(alerts) && loading)
    {
      if key == "Enter" && !loading {
        OnEmailLogin();
      }
    }
  }
}
