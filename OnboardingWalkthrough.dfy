/**
 * One pass through the flow, driven the way the concrete steps drive the
 * coordinator: each continue press is forwarded to the current step, and the
 * step answers with a substep emission, a button-enabled emission or its
 * completion callback.
 */
module Walkthrough {
  import opened Wrappers
  import opened Skills
  import opened Steps
  import opened Progress
  import opened Onboarding

  /** Starting the flow and pressing continue twice on the welcome step. */
  method ThroughWelcome() returns (vm: OnboardingViewModel, trace: seq<int>)
    ensures vm.Valid() && vm.totalStepCount == 4
    ensures vm.steps[2].buttonTitle == "Continue for free" && vm.steps[2].isButtonEnabled
    ensures vm.steps[2].viewController == ViewHandle(2) && vm.steps[2].footerViewController == Some(ViewHandle(3))
    ensures fresh(vm) && fresh(vm.steps[0]) && fresh(vm.steps[1]) && fresh(vm.steps[2])
    ensures SubStepCounts(vm.steps) == [2, 1, 1]
    ensures vm.currentStep == vm.steps[1] && !vm.steps[1].isButtonEnabled
    ensures vm.steps[0].currentSubStepIndex == 1 && vm.steps[2].currentSubStepIndex == 0
    ensures trace == [0, 1, 2]
  {
    vm := new OnboardingViewModel(ViewHandle(0), ViewHandle(1), ViewHandle(2), ViewHandle(3));
    var welcome := vm.steps[0];
    ghost var counts := SubStepCounts(vm.steps);
    assert counts == [2, 1, 1];
    // Building the welcome view during setup emits substep 0.
    vm.SubStepIndexSent(welcome, 0);
    trace := [vm.currentStepIndex];

    // First press: the welcome step moves to its second substep.
    var target := vm.HandleContinuePressed();
    assert target == welcome && welcome.currentSubStepIndex == 0;
    vm.SubStepIndexSent(welcome, 1);
    trace := trace + [vm.currentStepIndex];

    // Second press: the welcome step completes.
    target := vm.HandleContinuePressed();
    assert target == welcome && welcome.currentSubStepIndex == 1;
    vm.WelcomeFinished();
    assert SumPrefix(counts, 1) == SumPrefix(counts, 0) + counts[0] == 2;
    trace := trace + [vm.currentStepIndex];
    // Building the skill view starts with no selection, which emits "disabled".
    vm.ButtonEnabledSent(vm.steps[1], false);
  }

  /** On the skill-selection step: tapping "amateur" enables the button; the press completes with that skill. */
  method ChooseAmateur(vm: OnboardingViewModel) returns (published: int)
    requires vm.Valid() && SubStepCounts(vm.steps) == [2, 1, 1]
    requires vm.currentStep == vm.steps[1] && vm.steps[0].currentSubStepIndex == 1
    modifies vm, vm.steps
    ensures vm.Valid() && vm.totalStepCount == old(vm.totalStepCount)
    ensures vm.currentStep == vm.steps[2] && vm.steps[2].skill == Some(Amateur)
    ensures vm.buttonTitle == vm.steps[2].buttonTitle && vm.isButtonEnabled == vm.steps[2].isButtonEnabled
    ensures vm.currentStepViewController == Some(vm.steps[2].viewController)
    ensures vm.currentFooterViewController == vm.steps[2].footerViewController
    ensures vm.steps[0].currentSubStepIndex == 1
    ensures published == vm.currentStepIndex == 3
  {
    var selectSkill := vm.steps[1];
    ghost var counts := SubStepCounts(vm.steps);
    assert counts[0] == 2 && counts[1] == 1;
    assert SumPrefix(counts, 1) == SumPrefix(counts, 0) + counts[0] == 2;
    assert SumPrefix(counts, 2) == SumPrefix(counts, 1) + counts[1] == 3;
    vm.ButtonEnabledSent(selectSkill, true);
    var target := vm.HandleContinuePressed();
    assert target == selectSkill && vm.isButtonEnabled;
    vm.SelectSkillFinished(Amateur);
    published := vm.currentStepIndex;
  }

  /**
   * Welcome (two presses), choosing "amateur" and continuing, then continuing
   * on the paywall. `trace` lists the initial global index and every value it
   * is published with afterwards, in order.
   */
  method FirstRunWithAmateur() returns (total: int, trace: seq<int>, paywallSkill: Option<DJSkill>)
    ensures total == 4
    ensures trace == [0, 1, 2, 3, 1, 0]
    ensures paywallSkill == Some(Amateur)
  {
    var vm;
    vm, trace := ThroughWelcome();
    total := vm.totalStepCount;
    var welcome, paywall := vm.steps[0], vm.steps[2];
    var published := ChooseAmateur(vm);
    trace := trace + [published];
    assert vm.buttonTitle == "Continue for free" && vm.currentFooterViewController == Some(ViewHandle(3));

    // The paywall completes; the flow restarts at the welcome step, which is
    // subscribed to (emitting its stale substep) before building its view
    // resets that substep to 0.
    var target := vm.HandleContinuePressed();
    assert target == paywall;
    vm.PaywallFinished();
    trace := trace + [vm.currentStepIndex];
    vm.SubStepIndexSent(welcome, 0);
    assert vm.currentStepIndex == SumPrefix(SubStepCounts(vm.steps), 0);
    trace := trace + [vm.currentStepIndex];

    paywallSkill := paywall.skill;
  }
}
