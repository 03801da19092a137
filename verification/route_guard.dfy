/**
  The route-access decision of the session middleware.

  After the session provider has reported the signed-in user (if any), four
  guards are tried in order and the first that matches decides; a request no
  guard catches passes through. Prefix tests are plain string prefix tests, not
  path-segment tests: `/consolex` counts as being under `/console`.
 */
module RouteGuard {
  import opened Wrappers

  /** The signed-in user as the session provider reports it; only the role
      claim of its application metadata matters here. */
  datatype User = User(role: Option<string>)

  /** Either hand the request on, or send the browser to `target`. */
  datatype Decision = PassThrough | RedirectTo(target: string)

  const WebhookPrefix: string := "/api/webhooks"
  const AdminPrefix: string := "/console/admin"
  const ConsolePrefix: string := "/console"
  const CreateUserPage: string := "/auth/create-user"
  const SelectPlanPage: string := "/auth/select-plan"
  const PortfolioResumePage: string := "/auth/portfolio-resume"
  const SignInPage: string := "/auth/sign-in"
  const SignUpPage: string := "/auth/sign-up"
  const HomePage: string := "/"
  const SuperAdminRole: string := "super-admin"

  predicate StartsWith(path: string, prefix: string) {
    prefix <= path
  }

  /** The user exists and its role claim is exactly the super-admin marker. */
  predicate IsSuperAdmin(user: Option<User>) {
    user.Some? && user.value.role == Some(SuperAdminRole)
  }

  /** Onboarding pages that need a signed-in user; matched exactly. */
  predicate IsOnboardingPage(path: string) {
    path == CreateUserPage || path == SelectPlanPage || path == PortfolioResumePage
  }

  /** Guard 1: webhook traffic is never gated. */
  predicate IsWebhook(path: string) {
    StartsWith(path, WebhookPrefix)
  }

  /** Guard 2: the admin area for anyone who is not a super-admin, including
      nobody at all. */
  predicate AdminDenied(path: string, user: Option<User>) {
    !IsSuperAdmin(user) && StartsWith(path, AdminPrefix)
  }

  /** Guard 3: console and onboarding pages without a signed-in user. */
  predicate AnonymousDenied(path: string, user: Option<User>) {
    user.None? && (StartsWith(path, ConsolePrefix) || IsOnboardingPage(path))
  }

  /** Guard 4: a signed-in user on the sign-in or sign-up page. */
  predicate SignedInOnAuthPage(path: string, user: Option<User>) {
    user.Some? && (path == SignInPage || path == SignUpPage)
  }

  function Decide(path: string, user: Option<User>): Decision {
    if IsWebhook(path) then PassThrough
    else if AdminDenied(path, user) then RedirectTo(SignInPage)
    else if AnonymousDenied(path, user) then RedirectTo(SignInPage)
    else if SignedInOnAuthPage(path, user) then RedirectTo(HomePage)
    else PassThrough
  }

  // Facts about the path constants.

  /** Everything under the admin area is under the console. */
  lemma AdminUnderConsole(path: string)
    requires StartsWith(path, AdminPrefix)
    ensures StartsWith(path, ConsolePrefix)
  {
  }

  /** No path is both webhook traffic and under the console: the two prefixes
      differ in their second character. */
  lemma WebhookNotConsole(path: string)
    requires IsWebhook(path)
    ensures !StartsWith(path, ConsolePrefix)
  {
    assert path[1] == WebhookPrefix[1] == 'a';
    assert ConsolePrefix[1] == 'c';
  }

  /** None of the exact pages the guards name is webhook traffic or under the
      console, so the prefix guards never catch them. */
  lemma AuthPagesOutsidePrefixes(path: string)
    requires IsOnboardingPage(path) || path == SignInPage || path == SignUpPage || path == HomePage
    ensures !IsWebhook(path) && !StartsWith(path, ConsolePrefix) && !StartsWith(path, AdminPrefix)
  {
    if path == HomePage {
      assert |path| < |ConsolePrefix|;
    } else {
      assert path[1] == 'a' && path[2] == 'u';
      assert WebhookPrefix[2] == 'p';
      assert ConsolePrefix[1] == 'c' && AdminPrefix[1] == 'c';
    }
  }

  // The guards, one by one.

  /** Any path under `/api/webhooks` passes through, whoever asks; this is
      decided before any check on the user. */
  lemma WebhookExempt(path: string, user: Option<User>)
    requires IsWebhook(path)
    ensures Decide(path, user) == PassThrough
  {
  }

  /** The admin area sends everyone who is not a super-admin, signed in or
      not, to the sign-in page. */
  lemma AdminGate(path: string, user: Option<User>)
    requires StartsWith(path, AdminPrefix)
    requires !IsSuperAdmin(user)
    ensures Decide(path, user) == RedirectTo(SignInPage)
  {
    assert !IsWebhook(path) by {
      AdminUnderConsole(path);
      if IsWebhook(path) {
        WebhookNotConsole(path);
      }
    }
  }

  /** A signed-in super-admin is let through everywhere under the admin area. */
  lemma SuperAdminAdmitted(path: string, user: Option<User>)
    requires StartsWith(path, AdminPrefix)
    requires IsSuperAdmin(user)
    ensures Decide(path, user) == PassThrough
  {
  }

  /** Without a signed-in user, anything under `/console` and the three
      onboarding pages send the browser to the sign-in page. */
  lemma AnonymousProtected(path: string)
    requires StartsWith(path, ConsolePrefix) || IsOnboardingPage(path)
    ensures Decide(path, None) == RedirectTo(SignInPage)
  {
    if IsWebhook(path) {
      WebhookNotConsole(path);
      AuthPagesOutsidePrefixes(path);
    }
  }

  /** The onboarding pages are matched exactly: a longer path below one of them
      is not protected by that rule. */
  lemma OnboardingIsExact(path: string, suffix: string)
    requires IsOnboardingPage(path)
    requires |suffix| > 0
    ensures Decide(path + suffix, None) == PassThrough
  {
    var p := path + suffix;
    assert p[..|path|] == path;
    AuthPagesOutsidePrefixes(path);
    assert !IsWebhook(p) by {
      assert p[1] == 'a' && p[2] == 'u';
    }
    assert !StartsWith(p, ConsolePrefix) by {
      assert p[1] == 'a';
    }
    assert !StartsWith(p, AdminPrefix) by {
      assert p[1] == 'a';
    }
    assert !IsOnboardingPage(p) by {
      // Only the longest onboarding page is longer than another one, and it
      // does not extend either of the shorter two.
      assert |CreateUserPage| == |SelectPlanPage| == 17 && |PortfolioResumePage| == 22;
      if path == PortfolioResumePage {
        assert |p| > 22;
      } else {
        assert p[6] == path[6] != 'p';
        assert PortfolioResumePage[6] == 'p';
      }
    }
  }

  /** A signed-in user of any role on the sign-in or sign-up page is sent home. */
  lemma SignedInBounced(path: string, user: Option<User>)
    requires path == SignInPage || path == SignUpPage
    requires user.Some?
    ensures Decide(path, user) == RedirectTo(HomePage)
  {
    AuthPagesOutsidePrefixes(path);
  }

  // The decision table as a whole.

  /** Every decision is pass-through, the sign-in page or the home page. */
  lemma DecisionTargets(path: string, user: Option<User>)
    ensures Decide(path, user) in {PassThrough, RedirectTo(SignInPage), RedirectTo(HomePage)}
  {
  }

  /** Without a signed-in user the decision is the sign-in page exactly on the
      console and the onboarding pages, and never the home page. */
  lemma AnonymousTable(path: string)
    ensures Decide(path, None) == RedirectTo(SignInPage) <==>
              StartsWith(path, ConsolePrefix) || IsOnboardingPage(path)
    ensures Decide(path, None) != RedirectTo(HomePage)
  {
    if StartsWith(path, AdminPrefix) {
      AdminUnderConsole(path);
    }
    if IsWebhook(path) {
      WebhookNotConsole(path);
      if IsOnboardingPage(path) {
        AuthPagesOutsidePrefixes(path);
      }
    }
  }

  /** With a signed-in user the decision is the sign-in page exactly on the
      admin area when the user is not a super-admin, and the home page exactly
      on the sign-in and sign-up pages. */
  lemma SignedInTable(path: string, user: Option<User>)
    requires user.Some?
    ensures Decide(path, user) == RedirectTo(SignInPage) <==>
              !IsSuperAdmin(user) && StartsWith(path, AdminPrefix)
    ensures Decide(path, user) == RedirectTo(HomePage) <==> path == SignInPage || path == SignUpPage
  {
    if StartsWith(path, AdminPrefix) {
      AdminUnderConsole(path);
      if IsWebhook(path) {
        WebhookNotConsole(path);
      }
    }
    if path == SignInPage || path == SignUpPage {
      AuthPagesOutsidePrefixes(path);
    }
  }

  /** The whole decision, stated over plain facts about the path and the user
      and without reference to the order of the guards: an anonymous visitor
      is sent to sign in on the console and the onboarding pages; a signed-in
      user who is not a super-admin is sent to sign in on the admin area; a
      signed-in user is sent home from the sign-in and sign-up pages; and
      everything else passes through. */
  lemma DecisionTable(path: string, user: Option<User>)
    ensures Decide(path, user) ==
              if user.None? then
                (if ConsolePrefix <= path || IsOnboardingPage(path) then RedirectTo(SignInPage) else PassThrough)
              else if !IsSuperAdmin(user) && AdminPrefix <= path then RedirectTo(SignInPage)
              else if path == SignInPage || path == SignUpPage then RedirectTo(HomePage)
              else PassThrough
  {
    DecisionTargets(path, user);
    if user.None? {
      AnonymousTable(path);
    } else {
      SignedInTable(path, user);
    }
  }

  /** Following a redirect with the same user never loops: the target passes
      through, or redirects once more to the home page, which passes through. */
  lemma RedirectsSettle(path: string, user: Option<User>, target: string)
    requires Decide(path, user) == RedirectTo(target)
    ensures Decide(HomePage, user) == PassThrough
    ensures Decide(target, user) == PassThrough || Decide(target, user) == RedirectTo(HomePage)
  {
    AuthPagesOutsidePrefixes(HomePage);
    AuthPagesOutsidePrefixes(SignInPage);
    assert !IsOnboardingPage(HomePage) && !IsOnboardingPage(SignInPage);
  }

  /** Concrete requests: an anonymous visit to an admin page, an anonymous
      webhook call, a member on the sign-in page, an anonymous visit to the
      resume onboarding page, and a near-miss of the console prefix. */
  lemma Examples()
    ensures Decide("/console/admin/users", None) == RedirectTo(SignInPage)
    ensures Decide("/api/webhooks/payment", None) == PassThrough
    ensures Decide("/auth/sign-in", Some(User(Some("member")))) == RedirectTo(HomePage)
    ensures Decide("/auth/portfolio-resume", None) == RedirectTo(SignInPage)
    ensures Decide("/consolex", None) == RedirectTo(SignInPage)
  {
    AdminGate("/console/admin/users", None);
    WebhookExempt("/api/webhooks/payment", None);
    SignedInBounced("/auth/sign-in", Some(User(Some("member"))));
    AnonymousProtected("/auth/portfolio-resume");
    AnonymousProtected("/consolex");
  }
}
