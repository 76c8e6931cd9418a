# Onboarding flow coordinator, modelled in Dafny

This project models the onboarding flow of a DJ app. The flow shows three
full-screen steps one at a time: Welcome, SelectSkill and Paywall. All
three share one continue button and one page indicator.

The coordinator is `OnboardingViewModel`. It does four things:

- It keeps the fixed list of steps and the current step.
- It forwards continue presses to the current step.
- It advances when a step reports completion. The chosen `DJSkill` goes to the paywall.
- It republishes the current step's state to the screen: title, enabled flag, view handles, and one global progress index.

The central invariant is about that global progress index. It always equals
the sum of the substep counts of the steps before the current one, plus the
current step's own substep index.

Files:

- `Wrappers.dfy`: `Option`.
- `DJSkill.dfy` (module `Skills`): the three-valued `DJSkill` enumeration and its user-facing labels.
- `Progress.dfy`: `SumPrefix` and `GlobalIndex`, which turn (step, substep) positions into global indices. It also has lemmas showing that the mapping is a bijection onto `[0, Total)`, with `Locate` as its inverse.
- `OnboardingStep.dfy` (module `Steps`): the step protocol, as a class `Step`. Its three named constructors carry the constants of the three concrete step classes.
- `OnboardingViewModel.dfy` (module `Onboarding`): the coordinator, as a class.
  - `Valid()` is its object invariant, including the progress invariant.
  - One method per source operation and per `didSet` observer.
  - One event method for each emission or completion callback a step can make.
- `OnboardingWalkthrough.dfy`: the four-press first run (Welcome ×2, choose "amateur", paywall), driven through the coordinator's methods.

Combine is modelled as synchronous updates. `subscribedStep` stands for the
set of live subscriptions. Assigning the current step clears that set
first. It then subscribes to the new step. Subscribing emits the subjects'
current values at once, so the progress index and the enabled flag are
recomputed immediately.

An emission from a step that is no longer subscribed changes only that step.

The walkthrough shows how the progress index changes when the paywall restarts the
flow. It is first published as 1, which is Welcome's stale substep seen
on subscription. Only then is it published as 0, after building Welcome's
view resets its substep. So the published sequence for the whole run is
0, 1, 2, 3, 1, 0.

The model follows the code in three places where a reader might expect otherwise:

- A step's position is found by object identity (first match), not kept as a stored index.
- Advancing from the last step indexes past the end of the list and traps; it is not a silent no-op. `ProceedToNextStep` therefore requires a next step to exist.
- `subStepCount >= 1` is not checked by the code. It is part of `Step.Valid()`, and the three concrete steps satisfy it.

## Model

| member | source | states |
|---|---|---|
| `Skills.SkillsEnumerated` | Algoriddim/Model/DJSkill.swift:9-11 | every skill is one of exactly three distinct cases: new, amateur, professional |
| `Skills.LocalizedDescription` | Algoriddim/Model/DJSkill.swift:14-23 | total; every label starts with "I" followed by a typographic apostrophe (U+2019) |
| `Skills.DescriptionTexts` | Algoriddim/Model/DJSkill.swift:16-21 | the three labels are "I’m new to DJing", "I’ve used DJ apps before" and "I’m a professional DJ" |
| `Skills.DescriptionInjective` | Algoriddim/Model/DJSkill.swift:14-23 | distinct skills have distinct labels |
| `Skills.SkillWithDescription` | Algoriddim/Model/DJSkill.swift:14-23 | reference inverse: returns a skill exactly when the text is that skill's label, and None when no skill has that label |
| `Skills.DescriptionRoundTrip` | Algoriddim/Model/DJSkill.swift:14-23 | reading a label back gives the skill it came from |
| `Steps.Step.WelcomeStep` | Algoriddim/Onboarding/OnboardingStep.swift:14-21 | the welcome step, with the constants of `WellcomeStep` (lines 15-18 of its file): 2 substeps, title "Continue", enabled, no footer, substep 0 |
| `Steps.Step.SelectSkillStep` | Algoriddim/Onboarding/OnboardingStep.swift:14-21 | the skill step, with the constants of `SelectSkillStep` (lines 15-18 of its file): 1 substep, title "Let's go", disabled until a choice, no footer, substep 0 |
| `Steps.Step.PaywallStep` | Algoriddim/Onboarding/OnboardingStep.swift:14-21 | the paywall, with the constants of `PaywallStep` (lines 15-20 and 30-32 of its file): 1 substep, title "Continue for free", enabled, a footer, no skill yet |
| `Progress.GlobalIndexInRange` | Algoriddim/Onboarding/OnboardingViewModel.swift:72-88 | with positive counts, every (step, substep) position has a global index in [0, total) |
| `Progress.GlobalIndexInjective` | Algoriddim/Onboarding/OnboardingViewModel.swift:80-88 | two different (step, substep) positions never share a global index |
| `Progress.Locate` | Algoriddim/Onboarding/OnboardingViewModel.swift:80-88 | inverse of the global index: for any g in [0, total) it returns a valid (step, substep) position whose global index is g |
| `Progress.LocateRoundTrip` | Algoriddim/Onboarding/OnboardingViewModel.swift:80-88 | locating the global index of a valid position returns that position |
| `Progress.NextStepAdvancesByOne` | Algoriddim/Onboarding/OnboardingViewModel.swift:90-93 | going from a step's last substep to the first substep of the next step moves the global index up by exactly one |
| `Onboarding.FirstIndexOf` | Algoriddim/Onboarding/OnboardingViewModel.swift:81 | identity lookup: None exactly when absent; otherwise the returned index holds the element and no earlier index does |
| `Onboarding.FirstIndexOfKind` | Algoriddim/Onboarding/OnboardingViewModel.swift:43 | returns the first step of a kind; None exactly when no step has that kind |
| `Onboarding.OnboardingViewModel.constructor` | Algoriddim/Onboarding/OnboardingViewModel.swift:49-66 | builds fresh steps [Welcome, SelectSkill, Paywall] with their titles ("Continue", "Let's go", "Continue for free"), enabled flags (on, off, on), view handles and footer (paywall only); the current step is the first one; total 4; index 0; title "Continue"; enabled; invariant holds |
| `Onboarding.OnboardingViewModel.HandleContinuePressed` | Algoriddim/Onboarding/OnboardingViewModel.swift:68-70 | the press goes to the current step (none when there is no current step); the view model itself does not change |
| `Onboarding.OnboardingViewModel.SetupFirstStep` | Algoriddim/Onboarding/OnboardingViewModel.swift:72-78 | the current step becomes the first step, and the total becomes the sum of all substep counts (a loop proved against `Total`); the invariant holds |
| `Onboarding.OnboardingViewModel.SetCurrentStep` | Algoriddim/Onboarding/OnboardingViewModel.swift:23-39 | subscriptions are cleared and then attached to the new step only; index = steps before it + its substep; enabled mirrors it; title is its title, or "" when there is none; handles are its handles |
| `Onboarding.OnboardingViewModel.SetUserSkill` | Algoriddim/Onboarding/OnboardingViewModel.swift:41-46 | stores the skill and writes it into the first paywall step; no other step's skill, substep or enabled flag changes |
| `Onboarding.OnboardingViewModel.SubStepsBeforeCurrentStep` | Algoriddim/Onboarding/OnboardingViewModel.swift:80-88 | returns the sum of the counts below the current step's first identity match, or 0 when the current step is not listed (a loop proved against `SumPrefix`) |
| `Onboarding.OnboardingViewModel.ProceedToNextStep` | Algoriddim/Onboarding/OnboardingViewModel.swift:90-93 | makes steps[i+1] current, where i is the current position, and recomputes the index; nothing changes when the current step is not found; the invariant is kept |
| `Onboarding.OnboardingViewModel.WelcomeFinished` | Algoriddim/Onboarding/OnboardingViewModel.swift:51-53 | welcome completion advances one position; from a step's last substep onto a next step at substep 0 the index goes up by exactly one |
| `Onboarding.OnboardingViewModel.SelectSkillFinished` | Algoriddim/Onboarding/OnboardingViewModel.swift:54-57 | the skill is stored and given to the paywall, and then the flow advances; no step's substep or enabled flag changes |
| `Onboarding.OnboardingViewModel.PaywallFinished` | Algoriddim/Onboarding/OnboardingViewModel.swift:58-63 | the first step becomes current again; no steps precede it, so the index equals its substep index |
| `Onboarding.OnboardingViewModel.SubStepIndexSent` | Algoriddim/Onboarding/OnboardingViewModel.swift:27-30 | the step's substep is updated; the global index is recomputed only if that step is the subscribed current step; the invariant is kept |
| `Onboarding.OnboardingViewModel.ButtonEnabledSent` | Algoriddim/Onboarding/OnboardingViewModel.swift:32-34 | the step's flag is updated; the published flag mirrors it only if that step is current |
| `Onboarding.ProgressIdentifiesPosition` | Algoriddim/Onboarding/OnboardingViewModel.swift:27-30 | under the invariant, the published index lies in [0, totalStepCount) and `Locate` recovers the current step's position and substep from it |
| `Walkthrough.ThroughWelcome` | Algoriddim/Onboarding/OnboardingViewModel.swift:49-66 | start (with the welcome view's substep-0 emission), then two presses on Welcome and the skill view's "disabled" emission: indices 0, 1, 2; SelectSkill is current and disabled; the paywall holds "Continue for free", enabled, with its footer |
| `Walkthrough.ChooseAmateur` | Algoriddim/Onboarding/OnboardingViewModel.swift:54-57 | choosing "amateur" and pressing makes the paywall current, configured with amateur, at index 3, showing the paywall's title, enabled flag, view and footer |
| `Walkthrough.FirstRunWithAmateur` | Algoriddim/Onboarding/OnboardingViewModel.swift:23-39 | the full first run: total 4, published indices 0, 1, 2, 3, 1, 0, and the paywall carries amateur |

## Left out

- Combine itself is not modelled: `@Published`, `CurrentValueSubject`, `AnyCancellable` and the weak captures. Delivery is synchronous; a released view model, which makes the weak captures no-ops, does not occur.
- UIKit is not modelled. View controllers are opaque `ViewHandle` values that are copied from the step. The container view controller, the layout, the animations, the gradient view and the layout/animation constants are presentation only.
- The concrete steps' press logic is not part of the coordinator. The same goes for their selection view model and the side effects of their view getters. Examples: Welcome resets its substep to 0, SelectSkill resets its enabled flag, and Paywall falls back to `.amateur` for its view. These reach the coordinator as `SubStepIndexSent`, `ButtonEnabledSent` and the three completion methods. The walkthrough supplies every such emission in the order the concrete steps produce them, including those that leave a value as it was (Welcome's substep 0 during setup, SelectSkill's "disabled" when it becomes current).
- The purchase flow does not exist in the code; only a TODO marks its place.
- Swift `Int` overflow is not modelled: the sums involved are at most 4.
- `Onboarding.OnboardingViewModel.SetCurrentStep` requires the new step to be null or listed. The code only ever assigns `steps.first` or `steps[i + 1]`.
- `Onboarding.OnboardingViewModel.ProceedToNextStep` requires a next step to exist, because the code traps on the last step. The same holds for `WelcomeFinished` and `SelectSkillFinished`, which call it.
- `Valid()` fixes the list to [Welcome, SelectSkill, Paywall], as built by the initialiser. `steps` is a `const` because it is never reassigned after initialisation.
