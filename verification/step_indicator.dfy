/** The onboarding progress indicator (components/StepIndicator.tsx): three
    steps drawn in a fixed order, each completed, active or pending depending
    on where the current screen sits in that order. */
module StepIndicator {
  import opened Types

  datatype StepStatus = Completed | Active | Pending

  /** The order the indicator draws: details, verify, score & offers. */
  const StepOrder: seq<ViewState> := [Home, Otp, Dashboard]

  /** `Array.prototype.indexOf`: the first position of `v` in `s`, or -1. */
  function IndexOf(s: seq<ViewState>, v: ViewState): (r: int)
    ensures -1 <= r < |s|
    ensures r == -1 <==> v !in s
    ensures 0 <= r ==> s[r] == v && v !in s[..r]
  {
    if |s| == 0 then -1
    else if s[0] == v then 0
    else
      var k := IndexOf(s[1..], v);
      if k == -1 then -1
      else
        assert s[..k + 1] == [s[0]] + s[1..][..k];
        k + 1
  }

  /** The status of the step drawn for `step` while `current` is shown. */
  function GetStepStatus(current: ViewState, step: ViewState): (r: StepStatus)
    ensures step in StepOrder ==> (r == Active <==> step == current)
  {
    var currentIndex := IndexOf(StepOrder, current);
    var stepIndex := IndexOf(StepOrder, step);
    if stepIndex < currentIndex then Completed
    else if stepIndex == currentIndex then Active
    else Pending
  }

  /** While the current screen is one of the three onboarding screens, the
      step at position i is completed before the current screen's position k,
      active at k and pending after it; so exactly one step is active. */
  lemma StatusFollowsPosition(current: ViewState, i: int, k: int)
    requires 0 <= i < |StepOrder| && 0 <= k < |StepOrder|
    requires StepOrder[k] == current
    ensures GetStepStatus(current, StepOrder[i]) ==
              (if i < k then Completed else if i == k then Active else Pending)
  {
    assert IndexOf(StepOrder, StepOrder[i]) == i;
    assert IndexOf(StepOrder, current) == k;
  }

  /** For the two screens outside the onboarding order (switch offer, new
      loan) `indexOf` yields -1, so every drawn step is pending. */
  lemma OffFlowAllPending(current: ViewState, step: ViewState)
    requires current == SwitchOffer || current == NewLoan
    requires step in StepOrder
    ensures GetStepStatus(current, step) == Pending
  {
    assert IndexOf(StepOrder, current) == -1;
  }
}
