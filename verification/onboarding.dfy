/**
 * The onboarding carousel (components/OnboardingModal.tsx): four steps walked through
 * with one button that closes the carousel on the last step.
 */
module Onboarding {
  datatype Step = Step(title: string, description: string)

  const Steps: seq<Step> := [
    Step("Welcome to NexusGrowth AI!", "Your new social media superpower. Let's quickly walk you through the key features to get you started."),
    Step("The Content Studio", "Never run out of ideas again. Describe a topic, and our AI will generate engaging post ideas tailored for your chosen platform and tone."),
    Step("AI Engagement Assistant", "Save hours replying to comments. Our AI analyzes comments on your posts and suggests smart, on-brand replies in seconds."),
    Step("Analytics & Growth", "Track your performance with a simple, self-serve dashboard. Get actionable insights to refine your content strategy and grow your audience.")
  ]

  const LastStep := |Steps| - 1

  /** The carousel opens on the first step. */
  const FirstStep: nat := 0

  /** What pressing the button does: move on, or close through `onClose`. */
  datatype Press = Advance(next: nat) | Close

  /** `handleNext`. */
  function Next(current: nat): (r: Press)
    requires current < |Steps|
    ensures current < LastStep ==> r == Advance(current + 1)
    ensures current == LastStep ==> r == Close
    ensures r.Advance? ==> r.next < |Steps|
  {
    if current < |Steps| - 1 then Advance(current + 1) else Close
  }

  /** The press that follows `k` presses from the first step. */
  function Walk(k: nat): (r: Press)
    requires k <= LastStep
    ensures r == Next(k)
    decreases k
  {
    if k == 0 then Next(FirstStep) else Next(Walk(k - 1).next)
  }

  /** Each press moves exactly one step, so the carousel shows every step in order and then closes. */
  lemma {:induction false} WalkVisitsEveryStep(k: nat)
    requires k <= LastStep
    ensures k < LastStep ==> Walk(k) == Advance(k + 1)
    ensures k == LastStep ==> Walk(k) == Close
  {
    if k > 0 {
      WalkVisitsEveryStep(k - 1);
    }
  }

  /** The progress dots: one per step, lit exactly at the current one. */
  function Dots(current: nat): (r: seq<bool>)
    requires current < |Steps|
    ensures |r| == |Steps| && r[current]
    ensures forall i :: 0 <= i < |r| && r[i] ==> i == current
  {
    seq(|Steps|, i requires 0 <= i < |Steps| => i == current)
  }

  /** The button reads "Next" until the last step. */
  function ButtonLabel(current: nat): (text: string)
    requires current < |Steps|
    ensures text == "Next" <==> Next(current).Advance?
    ensures text != "Next" ==> text == "Let's Go!"
  {
    if current < |Steps| - 1 then "Next" else "Let's Go!"
  }
}
