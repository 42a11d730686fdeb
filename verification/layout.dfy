/**
 * The access gates in front of protected pages: `AppLayout` in
 * `src/components/layout/AppLayout.tsx` and the one at the top of `Onboarding`.
 */
module Layout {
  import opened Wrappers
  import Auth

  /** What `AppLayout` renders. */
  datatype View = LoadingView | NothingView | ShellView

  /** The rendered view together with the redirect its effect issues. */
  datatype Gate = Gate(view: View, redirect: Option<string>)

  const LoginRoute := "/login"

  /** `AppLayout`: loading view while loading, redirect when anonymous, the shell otherwise. */
  function AppLayoutGate(isLoading: bool, isAuthenticated: bool): (g: Gate)
    ensures g.redirect.Some? <==> g.view == NothingView
    ensures g.redirect.Some? ==> g.redirect.value == LoginRoute
    ensures g.view == LoadingView <==> isLoading
    ensures g.view == ShellView <==> !isLoading && isAuthenticated
    ensures g.view == NothingView <==> !isLoading && !isAuthenticated
  {
    var redirect := if !isLoading && !isAuthenticated then Some(LoginRoute) else None;
    var view := if isLoading then LoadingView else if !isAuthenticated then NothingView else ShellView;
    Gate(view, redirect)
  }

  /** After start-up the shell is shown exactly when a user was stored. */
  lemma ShellIffStoredUser(storage: Option<Auth.User>)
    ensures var s := Auth.Restore(Auth.Initial(storage)).session;
      AppLayoutGate(s.isLoading, s.isAuthenticated).view == ShellView <==> storage.Some?
  {
  }

  /** What `Onboarding` renders before any step logic. */
  datatype OnboardingView = OnboardingLoading | NavigateToLogin | Wizard

  function OnboardingGate(isLoading: bool, isAuthenticated: bool): (v: OnboardingView)
    ensures v == OnboardingLoading <==> isLoading
    ensures v == NavigateToLogin <==> !isLoading && !isAuthenticated
    ensures v == Wizard <==> !isLoading && isAuthenticated
  {
    if isLoading then OnboardingLoading
    else if !isAuthenticated then NavigateToLogin
    else Wizard
  }

  /** Both gates make the same three-way decision. */
  lemma GatesAgree(isLoading: bool, isAuthenticated: bool)
    ensures var g := AppLayoutGate(isLoading, isAuthenticated);
      var v := OnboardingGate(isLoading, isAuthenticated);
      (g.view == LoadingView <==> v == OnboardingLoading)
      && (g.view == NothingView <==> v == NavigateToLogin)
      && (g.view == ShellView <==> v == Wizard)
  {
  }
}
