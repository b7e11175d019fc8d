/** The onboarding wizard: four slides walked with Next and Back, and on the
    last slide a set of wellness goals picked by toggling. */
module Onboarding {
  import opened Screen
  import opened Selection

  /** `onboardingSteps.length`. */
  const StepCount: nat := 4

  /** The ids of `wellnessGoals`, the values `toggleGoal` is called with. */
  function GoalIds(): (ids: seq<string>)
    ensures |ids| == 6 && Distinct(ids)
  {
    ["mood", "anxiety", "sleep", "stress", "gratitude", "mindfulness"]
  }

  class OnboardingFlow {
    var currentStep: int
    var selectedGoals: seq<string>

    /** The step indexes one of the slides and no goal is listed twice. */
    ghost predicate Valid()
      reads this
    {
      0 <= currentStep < StepCount && Distinct(selectedGoals)
    }

    constructor ()
      ensures Valid() && currentStep == 0 && selectedGoals == []
    {
      currentStep := 0;
      selectedGoals := [];
    }

    /** `handleNext`: moves one slide on, or from the last slide on to the
        dashboard, staying put. */
    method Next() returns (nav: Nav)
      requires Valid()
      modifies this`currentStep
      ensures Valid()
      ensures old(currentStep) < StepCount - 1 ==> currentStep == old(currentStep) + 1 && nav == Stay
      ensures old(currentStep) == StepCount - 1 ==> currentStep == old(currentStep) && nav == NavigateTo(Dashboard)
      ensures selectedGoals == old(selectedGoals)
    {
      if currentStep < StepCount - 1 {
        currentStep := currentStep + 1;
        nav := Stay;
      } else {
        nav := NavigateTo(Dashboard);
      }
    }

    /** `handlePrevious`: one slide back, nothing on the first slide. */
    method Previous()
      requires Valid()
      modifies this`currentStep
      ensures Valid()
      ensures old(currentStep) > 0 ==> currentStep == old(currentStep) - 1
      ensures old(currentStep) == 0 ==> currentStep == 0
      ensures selectedGoals == old(selectedGoals)
    {
      if currentStep > 0 {
        currentStep := currentStep - 1;
      }
    }

    /** `toggleGoal`: an absent goal is added at the end, a present one is
        removed; no other goal's membership changes. */
    method ToggleGoal(goalId: string)
      requires Valid()
      modifies this`selectedGoals
      ensures Valid()
      ensures selectedGoals == Toggle(old(selectedGoals), goalId)
      ensures goalId !in old(selectedGoals) ==> selectedGoals == old(selectedGoals) + [goalId]
      ensures goalId in old(selectedGoals) ==> goalId !in selectedGoals
      ensures forall g :: g != goalId ==> (g in selectedGoals <==> g in old(selectedGoals))
      ensures currentStep == old(currentStep)
    {
      ToggleDistinct(selectedGoals, goalId);
      selectedGoals := Toggle(selectedGoals, goalId);
    }
  }
}
