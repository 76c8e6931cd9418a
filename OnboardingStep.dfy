/**
 * One full-screen stage of the onboarding flow. A step owns its substep
 * progress and the enabled state of the shared continue button; the
 * coordinator observes both.
 */
module Steps {
  import opened Wrappers
  import opened Skills

  /** The three concrete step classes of the flow. */
  datatype StepKind = Welcome | SelectSkill | Paywall

  /** An opaque handle on a view controller built by a step. */
  datatype ViewHandle = ViewHandle(id: nat)

  class Step {
    const kind: StepKind
    /** Number of progress ticks this step contributes to the page indicator. */
    const subStepCount: int
    /** Title of the shared continue button while this step is shown. */
    const buttonTitle: string
    const viewController: ViewHandle
    /** If present, shown in place of the page indicator. */
    const footerViewController: Option<ViewHandle>
    /** The current value of the step's substep subject. */
    var currentSubStepIndex: int
    /** The current value of the step's button-enabled subject. */
    var isButtonEnabled: bool
    /** The skill the paywall is configured with; only a paywall step carries one. */
    var skill: Option<DJSkill>

    ghost predicate Valid()
      reads this
    {
      1 <= subStepCount &&
      0 <= currentSubStepIndex < subStepCount &&
      (kind != Paywall ==> skill == None)
    }

    /** The welcome step: two substeps, always enabled, no footer. */
    constructor WelcomeStep(view: ViewHandle)
      ensures Valid()
      ensures kind == Welcome && subStepCount == 2 && buttonTitle == "Continue"
      ensures viewController == view && footerViewController == None
      ensures currentSubStepIndex == 0 && isButtonEnabled && skill == None
    {
      kind, subStepCount, buttonTitle := Welcome, 2, "Continue";
      viewController, footerViewController := view, None;
      currentSubStepIndex, isButtonEnabled, skill := 0, true, None;
    }

    /** The skill-selection step: one substep, disabled until a skill is chosen. */
    constructor SelectSkillStep(view: ViewHandle)
      ensures Valid()
      ensures kind == SelectSkill && subStepCount == 1 && buttonTitle == "Let's go"
      ensures viewController == view && footerViewController == None
      ensures currentSubStepIndex == 0 && !isButtonEnabled && skill == None
    {
      kind, subStepCount, buttonTitle := SelectSkill, 1, "Let's go";
      viewController, footerViewController := view, None;
      currentSubStepIndex, isButtonEnabled, skill := 0, false, None;
    }

    /** The paywall step: one substep, always enabled, with a footer, no skill yet. */
    constructor PaywallStep(view: ViewHandle, footer: ViewHandle)
      ensures Valid()
      ensures kind == Paywall && subStepCount == 1 && buttonTitle == "Continue for free"
      ensures viewController == view && footerViewController == Some(footer)
      ensures currentSubStepIndex == 0 && isButtonEnabled && skill == None
    {
      kind, subStepCount, buttonTitle := Paywall, 1, "Continue for free";
      viewController, footerViewController := view, Some(footer);
      currentSubStepIndex, isButtonEnabled, skill := 0, true, None;
    }
  }
}
