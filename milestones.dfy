/** The milestone ladder of app.js and the progress arithmetic of
    `updateScoreCard`: the next milestone, the requirement already met, and
    the progress percentage within the current band. */
module Milestones {

  datatype Milestone = Milestone(title: string, requirement: int)

  /** The fixed ladder, requirements strictly increasing. */
  const Ladder: seq<Milestone> := [
    Milestone("Tuck 10s", 10),
    Milestone("Advanced Tuck 8s", 18),
    Milestone("One-Leg 6s", 26),
    Milestone("Straddle 5s", 34),
    Milestone("Full Front Lever 3s", 42)
  ]

  /** The requirement of the last milestone. */
  const FinalRequirement: int := 42

  lemma LadderStrictlyIncreasing()
    ensures |Ladder| == 5 && Ladder[|Ladder| - 1].requirement == FinalRequirement
    ensures forall i, j :: 0 <= i < j < |Ladder| ==> Ladder[i].requirement < Ladder[j].requirement
  {
  }

  /** The index of the first milestone at or after `i` whose requirement
      exceeds `score`, or `|Ladder|` when there is none (`Array.prototype.find`). */
  function FirstAbove(score: int, i: nat): (k: nat)
    requires i <= |Ladder|
    ensures i <= k <= |Ladder|
    ensures forall j :: i <= j < k ==> Ladder[j].requirement <= score
    ensures k < |Ladder| ==> score < Ladder[k].requirement
    decreases |Ladder| - i
  {
    if i == |Ladder| then |Ladder|
    else if score < Ladder[i].requirement then i
    else FirstAbove(score, i + 1)
  }

  /** `milestones.find((m) => totalScore < m.requirement) || milestones[last]`:
      the first milestone whose requirement exceeds the score, else the last one. */
  function NextMilestone(score: int): (m: Milestone)
    ensures m in Ladder
    ensures score < m.requirement ==> forall j :: 0 <= j < |Ladder| && Ladder[j].requirement < m.requirement ==> Ladder[j].requirement <= score
    ensures score >= m.requirement <==> score >= FinalRequirement
    ensures score >= FinalRequirement ==> m == Ladder[|Ladder| - 1]
  {
    LadderStrictlyIncreasing();
    var k := FirstAbove(score, 0);
    if k == |Ladder| then Ladder[|Ladder| - 1] else Ladder[k]
  }

  /** The requirement of the highest milestone already met, 0 when none is. */
  function PreviousRequirementOf(score: int): (p: int)
    ensures p == 0 <==> score < Ladder[0].requirement
    ensures p != 0 ==> p <= score && exists j :: 0 <= j < |Ladder| && Ladder[j].requirement == p
    ensures forall j :: 0 <= j < |Ladder| && Ladder[j].requirement <= score ==> Ladder[j].requirement <= p
  {
    LadderStrictlyIncreasing();
    var k := FirstAbove(score, 0);
    if k == 0 then 0 else Ladder[k - 1].requirement
  }

  /** The loop of `updateScoreCard` that walks the ladder and keeps the last
      requirement not above the score, stopping at the first one above it. */
  method PreviousRequirement(score: int) returns (previousRequirement: int)
    ensures previousRequirement == PreviousRequirementOf(score)
  {
    previousRequirement := 0;
    var i := 0;
    while i < |Ladder|
      invariant 0 <= i <= |Ladder|
      invariant previousRequirement == if i == 0 then 0 else Ladder[i - 1].requirement
      invariant forall j :: 0 <= j < i ==> Ladder[j].requirement <= score
    {
      if Ladder[i].requirement <= score {
        previousRequirement := Ladder[i].requirement;
      } else {
        assert FirstAbove(score, 0) == i;
        return;
      }
      i := i + 1;
    }
    assert FirstAbove(score, 0) == |Ladder|;
  }

  /** `nextMilestone.requirement - previousRequirement || 1`: the band width,
      with 0 replaced by 1. */
  function ProgressRange(score: int): (r: int)
    ensures r >= 1
    ensures score < FinalRequirement ==> r == NextMilestone(score).requirement - PreviousRequirementOf(score)
  {
    LadderStrictlyIncreasing();
    var range := NextMilestone(score).requirement - PreviousRequirementOf(score);
    if range == 0 then 1 else range
  }

  function Clamp(x: real): (r: real)
    ensures 0.0 <= r <= 100.0
    ensures 0.0 <= x <= 100.0 ==> r == x
  {
    if x < 0.0 then 0.0 else if x > 100.0 then 100.0 else x
  }

  /** The progress value as `updateScoreCard` computes it:
      min(100, max(0, (score - previous) / range * 100)). */
  function ProgressAsWritten(score: int): (v: real)
    ensures 0.0 <= v <= 100.0
  {
    var current := score - PreviousRequirementOf(score);
    Clamp((current as real / ProgressRange(score) as real) * 100.0)
  }

  /** At a score of exactly 42 every milestone is met, yet the value shown is
      0: the band is 42..42, its width 0 is replaced by 1, and 42 - 42 = 0. */
  lemma ProgressAtFinalRequirementIsZero()
    ensures ProgressAsWritten(FinalRequirement) == 0.0
    ensures ProgressAsWritten(FinalRequirement + 1) == 100.0
  {
    LadderStrictlyIncreasing();
    assert PreviousRequirementOf(FinalRequirement) == FinalRequirement;
    assert PreviousRequirementOf(FinalRequirement + 1) == FinalRequirement;
  }

  /** Past the final requirement the value shown is full: the band is 42..42,
      its width is replaced by 1, and score - 42 is at least 1. */
  lemma ProgressAboveFinalRequirementIsFull(score: int)
    requires score > FinalRequirement
    ensures ProgressAsWritten(score) == 100.0
  {
    LadderStrictlyIncreasing();
    assert PreviousRequirementOf(score) == FinalRequirement;
    assert ProgressRange(score) == 1;
  }

  /** The progress value with the final milestone treated as complete: 100
      once the score meets the last requirement, otherwise as written. */
  function ProgressCorrected(score: int): (v: real)
    ensures 0.0 <= v <= 100.0
    ensures score >= FinalRequirement ==> v == 100.0
    ensures score < FinalRequirement ==> v == ProgressAsWritten(score)
  {
    if score >= FinalRequirement then 100.0 else ProgressAsWritten(score)
  }

  /** The correction changes the value at exactly one score, 42. */
  lemma CorrectionOnlyAtFinalRequirement(score: int)
    ensures ProgressCorrected(score) == ProgressAsWritten(score) <==> score != FinalRequirement
  {
    LadderStrictlyIncreasing();
    if score > FinalRequirement {
      assert PreviousRequirementOf(score) == FinalRequirement;
      assert ProgressRange(score) == 1;
      assert (score - FinalRequirement) as real * 100.0 >= 100.0;
    } else if score == FinalRequirement {
      ProgressAtFinalRequirementIsZero();
    }
  }

  lemma DivideMonotone(x: real, y: real, r: real)
    requires x <= y && r > 0.0
    ensures x / r <= y / r
  {
    assert y / r - x / r == (y - x) / r;
  }

  /** Within a band (the same requirement already met, below the final one),
      a higher score never shows less progress. */
  lemma ProgressMonotoneWithinBand(a: int, b: int)
    requires a <= b < FinalRequirement
    requires PreviousRequirementOf(a) == PreviousRequirementOf(b)
    ensures ProgressCorrected(a) <= ProgressCorrected(b)
  {
    LadderStrictlyIncreasing();
    var p := PreviousRequirementOf(a);
    var ka, kb := FirstAbove(a, 0), FirstAbove(b, 0);
    assert ka == kb;
    assert NextMilestone(a) == NextMilestone(b);
    var r := ProgressRange(a);
    assert r == ProgressRange(b);
    DivideMonotone((a - p) as real, (b - p) as real, r as real);
  }
}
