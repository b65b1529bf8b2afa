/** middleware.ts: the access-control redirect rule run before page requests. */
module Middleware {
  import opened Wrappers
  import opened Text

  const LoginPath := "/auth/login"
  const KycUploadPath := "/kyc/upload"
  const DashboardPath := "/dashboard"

  /** Pass the request through, or redirect to `pathname` (the rest of the URL is kept; `next`
      is the query parameter the login redirect sets). */
  datatype Decision = Next | Redirect(pathname: string, next: Option<string>)

  predicate IsAuthRoute(pathname: string) {
    StartsWith(pathname, "/auth/")
  }

  predicate IsKycRoute(pathname: string) {
    StartsWith(pathname, "/kyc/")
  }

  /** Plain prefix tests, so "/dashboardX" counts as well. */
  predicate IsDashboardRoute(pathname: string) {
    StartsWith(pathname, "/dashboard") || StartsWith(pathname, "/proposals") || StartsWith(pathname, "/treasury")
  }

  predicate KycVerified(kyc: Option<string>) {
    kyc == Some("verified")
  }

  /** `middleware(request)` for a request to `pathname` carrying the given `auth_token` and
      `kyc_status` cookies. */
  function Decide(pathname: string, token: Option<string>, kyc: Option<string>): (d: Decision)
    ensures d.Redirect? ==> d.pathname in {LoginPath, KycUploadPath, DashboardPath}
    ensures d.Redirect? && d.next.Some? ==> d.pathname == LoginPath && d.next == Some(pathname)
    ensures d.Redirect? && d.pathname == LoginPath ==> !Truthy(token) && d.next == Some(pathname)
    ensures d.Redirect? <==>
      || (!Truthy(token) && (IsDashboardRoute(pathname) || IsKycRoute(pathname)))
      || (Truthy(token) && IsAuthRoute(pathname))
      || (Truthy(token) && IsDashboardRoute(pathname) && !KycVerified(kyc))
  {
    if !Truthy(token) && (IsDashboardRoute(pathname) || IsKycRoute(pathname)) then
      Redirect(LoginPath, Some(pathname))
    else if Truthy(token) && !IsAuthRoute(pathname)
            && (IsDashboardRoute(pathname) || StartsWith(pathname, "/proposals") || StartsWith(pathname, "/treasury"))
            && !KycVerified(kyc) then
      Redirect(KycUploadPath, None)
    else if Truthy(token) && IsAuthRoute(pathname) then
      Redirect(if KycVerified(kyc) then DashboardPath else KycUploadPath, None)
    else
      Next
  }

  /** `config.matcher` entry "/base/:path*": the base itself or anything below it. */
  predicate MatchesSubtree(pathname: string, base: string) {
    pathname == base || StartsWith(pathname, base + "/")
  }

  /** `config.matcher` entry "/base": that path only (a trailing slash is tolerated). */
  predicate MatchesExactly(pathname: string, base: string) {
    pathname == base || pathname == base + "/"
  }

  /** The paths `config.matcher` runs the middleware on. */
  predicate Matched(pathname: string)
    ensures Matched(pathname) ==>
      IsAuthRoute(pathname) || IsKycRoute(pathname) || IsDashboardRoute(pathname)
      || pathname == "/auth" || pathname == "/kyc"
  {
    || MatchesSubtree(pathname, "/auth")
    || MatchesSubtree(pathname, "/kyc")
    || MatchesExactly(pathname, "/dashboard")
    || MatchesSubtree(pathname, "/proposals")
    || MatchesExactly(pathname, "/treasury")
  }

  /** What a request meets: the middleware on matched paths, nothing elsewhere. */
  function Route(pathname: string, token: Option<string>, kyc: Option<string>): (d: Decision)
    ensures !Matched(pathname) ==> d == Next
    ensures Matched(pathname) ==> d == Decide(pathname, token, kyc)
  {
    if Matched(pathname) then Decide(pathname, token, kyc) else Next
  }

  /** Without a token, a dashboard, proposals, treasury or KYC path goes to the login page,
      which remembers the original path in `next`. */
  lemma UnauthenticatedToLogin(pathname: string, token: Option<string>, kyc: Option<string>)
    requires !Truthy(token)
    requires IsDashboardRoute(pathname) || IsKycRoute(pathname)
    ensures Decide(pathname, token, kyc) == Redirect(LoginPath, Some(pathname))
  {
  }

  /** Without a token, an /auth/ page is shown. */
  lemma UnauthenticatedAuthPagePasses(pathname: string, token: Option<string>, kyc: Option<string>)
    requires !Truthy(token) && IsAuthRoute(pathname)
    ensures Decide(pathname, token, kyc) == Next
  {
    assert !IsDashboardRoute(pathname) && !IsKycRoute(pathname) by {
      assert pathname[..6] == "/auth/";
      assert pathname[1] == 'a';
    }
  }

  /** With a token and an unverified KYC status, a dashboard, proposals or treasury path goes
      to the KYC upload page. */
  lemma UnverifiedToKycUpload(pathname: string, token: Option<string>, kyc: Option<string>)
    requires Truthy(token) && !KycVerified(kyc)
    requires IsDashboardRoute(pathname) && !IsAuthRoute(pathname)
    ensures Decide(pathname, token, kyc) == Redirect(KycUploadPath, None)
  {
  }

  /** With a token, the /auth/ pages send the user on: to the dashboard when verified, else to
      the KYC upload page. */
  lemma AuthenticatedLeavesAuthPages(pathname: string, token: Option<string>, kyc: Option<string>)
    requires Truthy(token) && IsAuthRoute(pathname)
    ensures Decide(pathname, token, kyc) == Redirect(if KycVerified(kyc) then DashboardPath else KycUploadPath, None)
  {
    assert !IsDashboardRoute(pathname) by {
      assert pathname[1] == 'a';
    }
  }

  /** With a token, a /kyc/ path is shown whatever the KYC status is. */
  lemma AuthenticatedKycPagePasses(pathname: string, token: Option<string>, kyc: Option<string>)
    requires Truthy(token) && IsKycRoute(pathname)
    ensures Decide(pathname, token, kyc) == Next
  {
    assert !IsDashboardRoute(pathname) && !IsAuthRoute(pathname) by {
      assert pathname[1] == 'k';
    }
  }

  /** With a token and a verified status, the dashboard, proposals and treasury are shown. */
  lemma VerifiedDashboardPasses(pathname: string, token: Option<string>, kyc: Option<string>)
    requires Truthy(token) && KycVerified(kyc) && IsDashboardRoute(pathname)
    ensures Decide(pathname, token, kyc) == Next
  {
    assert !IsAuthRoute(pathname) by {
      assert pathname[1] != 'a';
    }
  }

  /** Classification is by plain prefix: "/dashboardX" is a dashboard route. */
  lemma PrefixClassification()
    ensures IsDashboardRoute("/dashboardX")
    ensures Decide("/dashboardX", None, None) == Redirect(LoginPath, Some("/dashboardX"))
  {
    assert "/dashboardX"[..10] == "/dashboard";
  }

  /** Redirects do not chain: the target of every redirect lets the same request through, and is
      itself a path the matcher runs the middleware on. */
  lemma RedirectTargetSettles(pathname: string, token: Option<string>, kyc: Option<string>)
    requires Decide(pathname, token, kyc).Redirect?
    ensures Matched(Decide(pathname, token, kyc).pathname)
    ensures Decide(Decide(pathname, token, kyc).pathname, token, kyc) == Next
  {
    var target := Decide(pathname, token, kyc).pathname;
    assert LoginPath[..6] == "/auth/";
    assert KycUploadPath[..5] == "/kyc/";
    assert DashboardPath[..10] == "/dashboard";
    if target == LoginPath {
      UnauthenticatedAuthPagePasses(target, token, kyc);
      assert LoginPath[..6] == "/auth" + "/";
    } else if target == KycUploadPath {
      AuthenticatedKycPagePasses(target, token, kyc);
      assert KycUploadPath[..5] == "/kyc" + "/";
    } else {
      VerifiedDashboardPasses(target, token, kyc);
    }
  }

  /** The matcher leaves paths below /dashboard and /treasury alone, so although the rule would
      redirect them, a request there is never redirected. */
  lemma NestedDashboardUnmatched(token: Option<string>, kyc: Option<string>)
    ensures !Matched("/dashboard/settings") && Route("/dashboard/settings", token, kyc) == Next
    ensures !Matched("/treasury/history") && Route("/treasury/history", token, kyc) == Next
    ensures Decide("/dashboard/settings", None, kyc) == Redirect(LoginPath, Some("/dashboard/settings"))
  {
    var d, t := "/dashboard/settings", "/treasury/history";
    assert |d| == 19 && |t| == 17;
    assert d[1] == 'd';
    assert d[10] == '/';
    assert t[1] == 't';
    assert t[9] == '/';
    assert d[..10] == "/dashboard";
  }
}
