/** The numbers `updateScoreCard` in app.js shows: total score, last hold,
    streak, and the position inside the current milestone band, with the
    progress as app.js computes it (ProgressAsWritten in Milestones). */
module ScoreCard {
  import opened Common
  import opened Scoring
  import opened Milestones
  import AppStreak
  import Format

  /** The hold shown for the newest session: seconds and the formatted variation. */
  datatype LastHold = LastHold(seconds: int, variation: string)

  datatype Card = Card(
    totalScore: int,
    lastHold: Option<LastHold>,
    streak: nat,
    next: Milestone,
    previousRequirement: int,
    progress: real)

  /** Computes the score card for the session list (newest first). */
  method UpdateScoreCard(sessions: seq<Session>) returns (card: Card)
    ensures card.totalScore == TotalScore(sessions)
    ensures card.lastHold.None? <==> sessions == []
    ensures sessions != [] ==>
      card.lastHold == Some(LastHold(sessions[0].holdTime, Format.FormatVariation(sessions[0].variation)))
    ensures card.streak == AppStreak.StreakOf(sessions)
    ensures card.streak == 0 <==> sessions == []
    ensures card.next == NextMilestone(card.totalScore)
    ensures card.previousRequirement == PreviousRequirementOf(card.totalScore)
    ensures card.progress == ProgressAsWritten(card.totalScore) && 0.0 <= card.progress <= 100.0
    ensures card.totalScore < FinalRequirement ==> card.previousRequirement < card.next.requirement
    ensures card.totalScore == FinalRequirement ==> card.progress == 0.0
    ensures card.totalScore > FinalRequirement ==> card.progress == 100.0
  {
    var total := TotalScore(sessions);
    var lastHold := if sessions == [] then None
                    else Some(LastHold(sessions[0].holdTime, Format.FormatVariation(sessions[0].variation)));
    var streak := AppStreak.CalculateStreak(sessions);
    var previous := PreviousRequirement(total);
    if total == FinalRequirement {
      ProgressAtFinalRequirementIsZero();
    } else if total > FinalRequirement {
      ProgressAboveFinalRequirementIsFull(total);
    }
    card := Card(total, lastHold, streak, NextMilestone(total), previous, ProgressAsWritten(total));
  }
}
