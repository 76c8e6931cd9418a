/**
 * The onboarding flow coordinator. It holds the fixed list of steps, tracks
 * the current one, and republishes the current step's state (global progress
 * index, button title and enabled state, view and footer handles) to the
 * presentation layer. Publish/subscribe is modelled as synchronous field
 * updates: `subscribedStep` stands for the set of live subscriptions, which
 * always observe exactly one step.
 */
module Onboarding {
  import opened Wrappers
  import opened Skills
  import opened Steps
  import opened Progress

  /** Position of the first element of `xs` identical to `x`, if any. */
  function FirstIndexOf<T(==)>(xs: seq<T>, x: T): (r: Option<nat>)
    ensures r.None? <==> x !in xs
    ensures r.Some? ==> r.value < |xs| && xs[r.value] == x
    ensures r.Some? ==> forall j :: 0 <= j < r.value ==> xs[j] != x
  {
    if |xs| == 0 then None
    else if xs[0] == x then Some(0)
    else match FirstIndexOf(xs[1..], x)
      case None => None
      case Some(i) => Some(i + 1)
  }

  /** Position of the first step of the given kind, if any. */
  function FirstIndexOfKind(steps: seq<Step>, kind: StepKind): (r: Option<nat>)
    ensures r.None? <==> forall j :: 0 <= j < |steps| ==> steps[j].kind != kind
    ensures r.Some? ==> r.value < |steps| && steps[r.value].kind == kind
    ensures r.Some? ==> forall j :: 0 <= j < r.value ==> steps[j].kind != kind
  {
    if |steps| == 0 then None
    else if steps[0].kind == kind then Some(0)
    else match FirstIndexOfKind(steps[1..], kind)
      case None => None
      case Some(i) => Some(i + 1)
  }

  /** The substep counts of the steps, in order. */
  ghost function SubStepCounts(steps: seq<Step>): (r: seq<int>)
    ensures |r| == |steps|
    ensures forall k :: 0 <= k < |steps| ==> r[k] == steps[k].subStepCount
  {
    if |steps| == 0 then [] else [steps[0].subStepCount] + SubStepCounts(steps[1..])
  }

  class OnboardingViewModel {
    /** Global progress index shown by the page indicator. */
    var currentStepIndex: int
    /** Total number of substeps over all steps. */
    var totalStepCount: int
    var buttonTitle: string
    var isButtonEnabled: bool
    var currentStepViewController: Option<ViewHandle>
    /** If present, replaces the page indicator. */
    var currentFooterViewController: Option<ViewHandle>

    /** The steps in presentation order; built once by the constructor. */
    const steps: seq<Step>
    var currentStep: Step?
    var userSkill: Option<DJSkill>
    /** The step whose substep and button-enabled emissions reach this view model. */
    var subscribedStep: Step?

    /** Position of the current step in `steps`, by identity. */
    ghost function Position(): Option<nat>
      reads this
    {
      FirstIndexOf<Step?>(steps, currentStep)
    }

    /** The flow is [Welcome, SelectSkill, Paywall]; the paywall carries the stored skill. */
    ghost predicate StepsValid()
      reads this, steps
    {
      |steps| == 3 &&
      steps[0].kind == Welcome && steps[1].kind == SelectSkill && steps[2].kind == Paywall &&
      (forall k :: 0 <= k < |steps| ==> steps[k].Valid()) &&
      steps[2].skill == userSkill
    }

    /** The published fields mirror the current step, and only it is subscribed to. */
    ghost predicate Synced()
      reads this, steps, currentStep
    {
      subscribedStep == currentStep &&
      (currentStep == null ==>
        buttonTitle == "" && currentStepViewController == None && currentFooterViewController == None) &&
      (currentStep != null ==>
        currentStep in steps &&
        currentStepIndex == GlobalIndex(SubStepCounts(steps), Position().value, currentStep.currentSubStepIndex) &&
        isButtonEnabled == currentStep.isButtonEnabled &&
        buttonTitle == currentStep.buttonTitle &&
        currentStepViewController == Some(currentStep.viewController) &&
        currentFooterViewController == currentStep.footerViewController)
    }

    ghost predicate Valid()
      reads this, steps
    {
      StepsValid() &&
      (currentStep != null ==> currentStep in steps) &&
      Synced() &&
      totalStepCount == Total(SubStepCounts(steps))
    }

    /** Builds the three steps and shows the first one. */
    constructor (welcomeView: ViewHandle, selectSkillView: ViewHandle, paywallView: ViewHandle, paywallFooter: ViewHandle)
      ensures Valid()
      ensures fresh(steps[0]) && fresh(steps[1]) && fresh(steps[2])
      ensures steps[0].subStepCount == 2 && steps[1].subStepCount == 1 && steps[2].subStepCount == 1
      ensures forall k :: 0 <= k < |steps| ==> steps[k].currentSubStepIndex == 0
      ensures steps[0].buttonTitle == "Continue" && steps[0].isButtonEnabled
      ensures steps[1].buttonTitle == "Let's go" && !steps[1].isButtonEnabled
      ensures steps[2].buttonTitle == "Continue for free" && steps[2].isButtonEnabled
      ensures steps[0].viewController == welcomeView && steps[0].footerViewController == None
      ensures steps[1].viewController == selectSkillView && steps[1].footerViewController == None
      ensures steps[2].viewController == paywallView && steps[2].footerViewController == Some(paywallFooter)
      ensures currentStep == steps[0] && userSkill == None
      ensures totalStepCount == 4 && currentStepIndex == 0
      ensures buttonTitle == "Continue" && isButtonEnabled
      ensures currentStepViewController == Some(welcomeView) && currentFooterViewController == None
    {
      var welcome := new Step.WelcomeStep(welcomeView);
      var selectSkill := new Step.SelectSkillStep(selectSkillView);
      var paywall := new Step.PaywallStep(paywallView, paywallFooter);
      steps := [welcome, selectSkill, paywall];
      currentStepIndex, totalStepCount := 0, 0;
      buttonTitle, isButtonEnabled := "", true;
      currentStepViewController, currentFooterViewController := None, None;
      currentStep, userSkill, subscribedStep := null, None, null;
      new;
      SetupFirstStep();
      ghost var counts := SubStepCounts(steps);
      assert counts == [2, 1, 1];
      assert SumPrefix(counts, 1) == SumPrefix(counts, 0) + counts[0] == 2;
      assert SumPrefix(counts, 2) == SumPrefix(counts, 1) + counts[1] == 3;
    }

    /** Forwards a continue press to the current step, which is returned; nothing here changes. */
    method HandleContinuePressed() returns (target: Step?)
      ensures target == currentStep
    {
      target := currentStep;
    }

    /** Shows the first step and computes the total substep count once. */
    method SetupFirstStep()
      requires StepsValid()
      modifies this
      ensures Valid()
      ensures currentStep == steps[0]
      ensures currentStepIndex == steps[0].currentSubStepIndex
      ensures userSkill == old(userSkill)
    {
      SetCurrentStep(if |steps| == 0 then null else steps[0]);
      var total := 0;
      for i := 0 to |steps|
        invariant total == SumPrefix(SubStepCounts(steps), i)
      {
        total := total + steps[i].subStepCount;
      }
      totalStepCount := total;
    }

    /**
     * Assignment to the current step: drops the old subscriptions, subscribes
     * to the new step (whose subjects emit their current values at once) and
     * publishes its title and view handles.
     */
    method SetCurrentStep(step: Step?)
      requires StepsValid()
      requires step == null || step in steps
      modifies this
      ensures currentStep == step && Synced()
      ensures step == null ==> currentStepIndex == old(currentStepIndex) && isButtonEnabled == old(isButtonEnabled)
      ensures userSkill == old(userSkill) && totalStepCount == old(totalStepCount)
    {
      currentStep := step;
      subscribedStep := null;
      if currentStep != null {
        subscribedStep := currentStep;
        var before := SubStepsBeforeCurrentStep();
        currentStepIndex := before + currentStep.currentSubStepIndex;
        isButtonEnabled := currentStep.isButtonEnabled;
      }
      buttonTitle := if currentStep == null then "" else currentStep.buttonTitle;
      currentStepViewController := if currentStep == null then None else Some(currentStep.viewController);
      currentFooterViewController := if currentStep == null then None else currentStep.footerViewController;
    }

    /** Assignment to the stored skill: also configures the first paywall step, and no other step. */
    method SetUserSkill(skill: Option<DJSkill>)
      requires Valid()
      modifies this`userSkill, steps
      ensures Valid()
      ensures userSkill == skill
      ensures FirstIndexOfKind(steps, Paywall) == Some(2) && steps[2].skill == skill
      ensures forall k :: 0 <= k < |steps| && k != 2 ==> steps[k].skill == old(steps[k].skill)
      ensures forall k :: 0 <= k < |steps| ==>
        steps[k].currentSubStepIndex == old(steps[k].currentSubStepIndex) &&
        steps[k].isButtonEnabled == old(steps[k].isButtonEnabled)
    {
      userSkill := skill;
      var paywall := FirstIndexOfKind(steps, Paywall);
      if paywall.Some? {
        steps[paywall.value].skill := skill;
      }
    }

    /** Sum of the substep counts of the steps before the current one; 0 if it is not in the list. */
    method SubStepsBeforeCurrentStep() returns (r: int)
      ensures r == match Position()
        case None => 0
        case Some(i) => SumPrefix(SubStepCounts(steps), i)
    {
      var found := FirstIndexOf<Step?>(steps, currentStep);
      r := 0;
      if found.Some? {
        for i := 0 to found.value
          invariant r == SumPrefix(SubStepCounts(steps), i)
        {
          r := r + steps[i].subStepCount;
        }
      }
    }

    /** Makes the step after the current one current; does nothing if the current step is not listed. */
    method ProceedToNextStep()
      requires Valid()
      requires Position().Some? ==> Position().value + 1 < |steps|
      modifies this
      ensures Valid()
      ensures old(Position()).None? ==> unchanged(this)
      ensures old(Position()).Some? ==>
        var next := old(Position()).value + 1;
        currentStep == steps[next] && Position() == Some(next) &&
        currentStepIndex == SumPrefix(SubStepCounts(steps), next) + steps[next].currentSubStepIndex
      ensures userSkill == old(userSkill)
    {
      var found := FirstIndexOf<Step?>(steps, currentStep);
      if found.None? {
        return;
      }
      SetCurrentStep(steps[found.value + 1]);
    }

    /** Completion of the welcome step: advance. */
    method WelcomeFinished()
      requires Valid()
      requires Position().Some? ==> Position().value + 1 < |steps|
      modifies this
      ensures Valid()
      ensures old(Position()).None? ==> unchanged(this)
      ensures old(Position()).Some? ==> Position() == Some(old(Position()).value + 1)
      ensures (old(Position()).Some? && old(currentStep.currentSubStepIndex) == old(currentStep.subStepCount) - 1 &&
               currentStep.currentSubStepIndex == 0)
        ==> currentStepIndex == old(currentStepIndex) + 1
      ensures userSkill == old(userSkill)
    {
      ghost var counts := SubStepCounts(steps);
      ghost var from := Position();
      ProceedToNextStep();
      if from.Some? {
        NextStepAdvancesByOne(counts, from.value);
      }
    }

    /** Completion of the skill-selection step: store the skill (configuring the paywall), then advance. */
    method SelectSkillFinished(skill: DJSkill)
      requires Valid()
      requires Position().Some? ==> Position().value + 1 < |steps|
      modifies this, steps
      ensures Valid()
      ensures userSkill == Some(skill) && steps[2].skill == Some(skill)
      ensures old(Position()).None? ==> currentStep == old(currentStep) && currentStepIndex == old(currentStepIndex)
      ensures old(Position()).Some? ==>
        var next := old(Position()).value + 1;
        currentStep == steps[next] && Position() == Some(next) &&
        currentStepIndex == SumPrefix(SubStepCounts(steps), next) + steps[next].currentSubStepIndex
      ensures forall k :: 0 <= k < |steps| ==>
        steps[k].currentSubStepIndex == old(steps[k].currentSubStepIndex) &&
        steps[k].isButtonEnabled == old(steps[k].isButtonEnabled)
    {
      SetUserSkill(Some(skill));
      ProceedToNextStep();
    }

    /** Completion of the paywall: the flow restarts at the first step. */
    method PaywallFinished()
      requires Valid()
      modifies this
      ensures Valid()
      ensures currentStep == steps[0] && Position() == Some(0)
      ensures currentStepIndex == steps[0].currentSubStepIndex
      ensures userSkill == old(userSkill)
    {
      SetCurrentStep(if |steps| == 0 then null else steps[0]);
    }

    /** A step's substep subject emits `index`; only the subscribed step moves the global index. */
    method SubStepIndexSent(step: Step, index: int)
      requires Valid()
      requires step in steps && 0 <= index < step.subStepCount
      modifies this`currentStepIndex, step`currentSubStepIndex
      ensures Valid()
      ensures step.currentSubStepIndex == index
      ensures step == currentStep ==>
        currentStepIndex == SumPrefix(SubStepCounts(steps), Position().value) + index
      ensures step != currentStep ==> currentStepIndex == old(currentStepIndex)
    {
      step.currentSubStepIndex := index;
      if step == subscribedStep {
        var before := SubStepsBeforeCurrentStep();
        currentStepIndex := before + index;
      }
    }

    /** A step's button-enabled subject emits `enabled`; only the subscribed step is mirrored. */
    method ButtonEnabledSent(step: Step, enabled: bool)
      requires Valid()
      requires step in steps
      modifies this`isButtonEnabled, step`isButtonEnabled
      ensures Valid()
      ensures step.isButtonEnabled == enabled
      ensures isButtonEnabled == if step == currentStep then enabled else old(isButtonEnabled)
    {
      step.isButtonEnabled := enabled;
      if step == subscribedStep {
        isButtonEnabled := enabled;
      }
    }
  }

  /** The published global index alone determines the current step and its substep. */
  lemma ProgressIdentifiesPosition(vm: OnboardingViewModel)
    requires vm.Valid() && vm.currentStep != null
    ensures 0 <= vm.currentStepIndex < vm.totalStepCount
    ensures Locate(SubStepCounts(vm.steps), vm.currentStepIndex, |vm.steps|)
      == (vm.Position().value, vm.currentStep.currentSubStepIndex)
  {
    LocateRoundTrip(SubStepCounts(vm.steps), vm.Position().value, vm.currentStep.currentSubStepIndex);
  }
}
