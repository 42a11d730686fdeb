/**
 * The onboarding wizard (`src/pages/Onboarding.tsx`): four steps, per-step validation on
 * Continue, Skip on the first step, Back on the later ones, and backward-only jumps through
 * the progress circles. The authentication gate in front of it is `Layout.OnboardingGate`.
 */
module Onboarding {
  import opened Wrappers
  import opened Feedback
  import opened Selection
  import opened Data

  datatype Wizard = Wizard(
    step: int,
    company: string,
    industry: string,
    about: string,
    audience: string,
    platforms: seq<Platform>)

  const InitialWizard := Wizard(1, "", "", "", "", [])

  const DashboardRoute := "/dashboard"

  /** The platforms the third step offers; LinkedIn is not among them. */
  const OnboardingPlatforms: seq<Platform> := [Facebook, Instagram, Twitter, Youtube, Pinterest]

  /** What a button press leaves behind: the wizard, a toast, a navigation. */
  datatype Outcome = Outcome(next: Wizard, notice: Option<Notice>, navigate: Option<string>)

  predicate StepInRange(w: Wizard) {
    1 <= w.step <= 4
  }

  /** The message Continue shows when the current step is incomplete. */
  function StepError(w: Wizard): (r: Option<string>)
    ensures r.None? <==>
      (w.step == 1 ==> w.company != "" && w.industry != "") &&
      (w.step == 2 ==> w.audience != "") &&
      (w.step == 3 ==> |w.platforms| > 0)
    ensures w.step == 1 && r.Some? ==> r.value == "Please fill in all required fields"
    ensures w.step == 2 && r.Some? ==> r.value == "Please describe your target audience"
    ensures w.step == 3 && r.Some? ==> r.value == "Please select at least one platform"
  {
    if w.step == 1 && (w.company == "" || w.industry == "") then Some("Please fill in all required fields")
    else if w.step == 2 && w.audience == "" then Some("Please describe your target audience")
    else if w.step == 3 && |w.platforms| == 0 then Some("Please select at least one platform")
    else None
  }

  /** `handleContinue`. */
  function Continue(w: Wizard): (o: Outcome)
    ensures StepError(w).Some? ==> o == Outcome(w, Some(Error(StepError(w).value)), None)
    ensures StepError(w).None? && w.step < 4 ==> o == Outcome(w.(step := w.step + 1), None, None)
    ensures StepError(w).None? && w.step >= 4 ==>
      o == Outcome(w, Some(Success("Onboarding completed successfully!")), Some(DashboardRoute))
    ensures o.next.step != w.step ==> o.next == w.(step := w.step + 1)
    ensures StepInRange(w) ==> StepInRange(o.next)
  {
    match StepError(w)
    case Some(msg) => Outcome(w, Some(Error(msg)), None)
    case None =>
      if w.step < 4 then Outcome(w.(step := w.step + 1), None, None)
      else Outcome(w, Some(Success("Onboarding completed successfully!")), Some(DashboardRoute))
  }

  /** `handleSkip`: the same move as Continue, with no validation and no toast. */
  function Skip(w: Wizard): (o: Outcome)
    ensures o.notice.None?
    ensures w.step < 4 ==> o == Outcome(w.(step := w.step + 1), None, None)
    ensures w.step >= 4 ==> o == Outcome(w, None, Some(DashboardRoute))
    ensures StepInRange(w) ==> StepInRange(o.next)
  {
    if w.step < 4 then Outcome(w.(step := w.step + 1), None, None)
    else Outcome(w, None, Some(DashboardRoute))
  }

  /** A valid Continue moves exactly as Skip does; only the finishing toast differs. */
  lemma ContinueIsValidatedSkip(w: Wizard)
    requires StepError(w).None?
    ensures Continue(w).next == Skip(w).next && Continue(w).navigate == Skip(w).navigate
  {
  }

  /** The left-hand button: Back after the first step, Skip on it. */
  function PressLeft(w: Wizard): (o: Outcome)
    ensures w.step > 1 ==> o == Outcome(w.(step := w.step - 1), None, None)
    ensures w.step <= 1 ==> o == Skip(w)
    ensures StepInRange(w) ==> StepInRange(o.next)
  {
    if w.step > 1 then Outcome(w.(step := w.step - 1), None, None) else Skip(w)
  }

  /** A click on progress circle `s`: only earlier steps can be reached. */
  function ProgressClick(w: Wizard, s: int): (r: Wizard)
    requires 1 <= s <= 4
    ensures r.step <= w.step
    ensures r.step != w.step <==> s < w.step
    ensures r.step == if s < w.step then s else w.step
    ensures r.(step := w.step) == w
    ensures StepInRange(w) ==> StepInRange(r)
  {
    if s < w.step then w.(step := s) else w
  }

  function TogglePlatform(w: Wizard, p: Platform): (r: Wizard)
    ensures p in r.platforms <==> p !in w.platforms
    ensures forall q :: q != p ==> (q in r.platforms <==> q in w.platforms)
    ensures r.(platforms := w.platforms) == w
  {
    w.(platforms := Toggle(w.platforms, p))
  }

  /** What the user can do; each control acts only on the step that renders it. */
  datatype Event =
    | PressContinue
    | PressLeftButton
    | Progress(s: int)
    | Choose(p: Platform)
    | SetCompany(company: string)
    | SetIndustry(industry: string)
    | SetAbout(about: string)
    | SetAudience(audience: string)

  function Apply(w: Wizard, e: Event): (o: Outcome)
    ensures o.next.step == w.step || o.next.step == w.step + 1 || (1 <= o.next.step < w.step)
    ensures o.navigate.Some? ==> o.next == w && w.step >= 4
  {
    match e
    case PressContinue => Continue(w)
    case PressLeftButton => PressLeft(w)
    case Progress(s) => Outcome(if 1 <= s <= 4 then ProgressClick(w, s) else w, None, None)
    case Choose(p) => Outcome(if w.step == 3 && p in OnboardingPlatforms then TogglePlatform(w, p) else w, None, None)
    case SetCompany(v) => Outcome(if w.step == 1 then w.(company := v) else w, None, None)
    case SetIndustry(v) => Outcome(if w.step == 1 then w.(industry := v) else w, None, None)
    case SetAbout(v) => Outcome(if w.step == 1 then w.(about := v) else w, None, None)
    case SetAudience(v) => Outcome(if w.step == 2 then w.(audience := v) else w, None, None)
  }

  /** Runs events until one navigates away; returns the wizard and the route left for, if any. */
  function Run(w: Wizard, es: seq<Event>): (r: (Wizard, Option<string>))
    decreases |es|
  {
    if |es| == 0 then (w, None)
    else
      var o := Apply(w, es[0]);
      if o.navigate.Some? then (o.next, o.navigate) else Run(o.next, es[1..])
  }

  /**
   * What every reachable wizard satisfies: the step is in 1..4, a target audience was given
   * before step 3, and a platform is selected on step 4.
   */
  ghost predicate Invariant(w: Wizard) {
    StepInRange(w) && (w.step >= 3 ==> w.audience != "") && (w.step == 4 ==> |w.platforms| > 0)
  }

  lemma InitialInvariant()
    ensures Invariant(InitialWizard)
  {
  }

  lemma ApplyPreservesInvariant(w: Wizard, e: Event)
    requires Invariant(w)
    ensures Invariant(Apply(w, e).next)
  {
  }

  /** Whatever the user does, the step stays in 1..4 and the invariant holds. */
  lemma {:induction false} RunPreservesInvariant(w: Wizard, es: seq<Event>)
    requires Invariant(w)
    ensures Invariant(Run(w, es).0)
    decreases |es|
  {
    if |es| > 0 {
      ApplyPreservesInvariant(w, es[0]);
      var o := Apply(w, es[0]);
      if o.navigate.None? {
        RunPreservesInvariant(o.next, es[1..]);
      }
    }
  }

  /**
   * Leaving the wizard for the dashboard is only possible from step 4, so a target audience
   * and at least one platform were given; company and industry need not have been.
   */
  lemma FinishedWizardHasAudienceAndPlatforms(es: seq<Event>)
    requires Run(InitialWizard, es).1.Some?
    ensures Run(InitialWizard, es).1 == Some(DashboardRoute)
    ensures var w := Run(InitialWizard, es).0; w.step == 4 && w.audience != "" && |w.platforms| > 0
  {
    RunPreservesInvariant(InitialWizard, es);
    RunNavigatesFromLastStep(InitialWizard, es);
  }

  lemma {:induction false} RunNavigatesFromLastStep(w: Wizard, es: seq<Event>)
    requires StepInRange(w)
    ensures Run(w, es).1.Some? ==> Run(w, es).1 == Some(DashboardRoute) && Run(w, es).0.step == 4
    decreases |es|
  {
    if |es| > 0 {
      var o := Apply(w, es[0]);
      if o.navigate.None? {
        RunNavigatesFromLastStep(o.next, es[1..]);
      }
    }
  }

  /** Skipping the first step finishes the wizard with no company or industry. */
  lemma FirstStepCanBeSkipped()
    ensures var es := [PressLeftButton, SetAudience("founders"), PressContinue, Choose(Facebook), PressContinue, PressContinue];
      var r := Run(InitialWizard, es);
      r.1 == Some(DashboardRoute) && r.0.company == "" && r.0.industry == ""
  {
    var w1 := Apply(InitialWizard, PressLeftButton).next;
    assert w1.step == 2;
    var w2 := Apply(w1, SetAudience("founders")).next;
    var w3 := Apply(w2, PressContinue).next;
    assert w3.step == 3;
    var w4 := Apply(w3, Choose(Facebook)).next;
    assert w4.platforms == [Facebook];
    var w5 := Apply(w4, PressContinue).next;
    assert w5.step == 4;
  }
}
