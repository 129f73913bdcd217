/** The score calculator of app.js: a weighted, rounded value per session and
    the sum of those values over the session list. */
module Scoring {
  import opened Common

  /** A calendar day as a day number; the day before `d` is `d - 1`. */
  type Day = int

  /** One recorded training session (the session records stored by the app). */
  datatype Session = Session(variation: string, holdTime: int, sets: int, rpe: int, date: Day)

  /** The weight of a variation, in tenths: tuck 1, advanced-tuck 1.4,
      one-leg 1.7, straddle 2, full 2.4; any other name falls back to 1. */
  function WeightTenths(variation: string): (w: nat)
    ensures w in {10, 14, 17, 20, 24}
    ensures variation !in {"tuck", "advanced-tuck", "one-leg", "straddle", "full"} ==> w == 10
  {
    if variation == "tuck" then 10
    else if variation == "advanced-tuck" then 14
    else if variation == "one-leg" then 17
    else if variation == "straddle" then 20
    else if variation == "full" then 24
    else 10
  }

  /** holdTime x sets x weight, in tenths of a point (exact). */
  function PointsTenths(s: Session): (p: int)
  {
    s.holdTime * s.sets * WeightTenths(s.variation)
  }

  /** `calculateScore`: Math.round(holdTime * sets * weight), where
      Math.round(x) is floor(x + 1/2). The result is the integer nearest to
      the exact product, halves rounded up. */
  function Score(s: Session): (r: int)
    ensures 10 * r - 5 <= PointsTenths(s) < 10 * r + 5
  {
    (PointsTenths(s) + 5) / 10
  }

  /** The example of a tuck session of 10 s and 3 sets scoring 30. */
  lemma TuckExampleScoresThirty(rpe: int, date: Day)
    ensures Score(Session("tuck", 10, 3, rpe, date)) == 30
  {
  }

  /** A session with a non-negative hold time and set count never scores below 0. */
  lemma ScoreNonNegative(s: Session)
    requires s.holdTime >= 0 && s.sets >= 0
    ensures Score(s) >= 0
  {
    assert s.holdTime * s.sets >= 0;
    assert PointsTenths(s) >= 0 by {
      assert PointsTenths(s) == (s.holdTime * s.sets) * WeightTenths(s.variation);
    }
  }

  /** `calculateTotalScore`: the left fold `reduce((total, s) => total + score(s), 0)`.
      It is 0 for no sessions and agrees with the sum taken from the front. */
  function TotalScore(sessions: seq<Session>): (t: int)
    ensures sessions == [] ==> t == 0
    ensures sessions != [] ==> t == Score(sessions[0]) + TotalScore(sessions[1..])
  {
    if sessions == [] then 0
    else
      var init := sessions[..|sessions| - 1];
      assert init != [] ==> init[1..] == sessions[1..][..|sessions| - 2];
      TotalScore(init) + Score(sessions[|sessions| - 1])
  }

  /** The total of a concatenation is the sum of the totals. */
  lemma {:induction false} TotalScoreAppend(a: seq<Session>, b: seq<Session>)
    ensures TotalScore(a + b) == TotalScore(a) + TotalScore(b)
    decreases |b|
  {
    if b == [] {
      assert a + b == a;
    } else {
      var last := b[|b| - 1];
      assert (a + b)[..|a + b| - 1] == a + b[..|b| - 1];
      assert (a + b)[|a + b| - 1] == last;
      TotalScoreAppend(a, b[..|b| - 1]);
    }
  }

  /** Adding a session in front (the app's newest-first list) adds exactly its score. */
  lemma TotalScorePrepend(s: Session, sessions: seq<Session>)
    ensures TotalScore([s] + sessions) == Score(s) + TotalScore(sessions)
  {
    TotalScoreAppend([s], sessions);
    assert [s][..0] == [];
  }

  /** The total of sessions with non-negative hold times and set counts is non-negative;
      the empty list totals 0. */
  lemma {:induction false} TotalScoreNonNegative(sessions: seq<Session>)
    requires forall i :: 0 <= i < |sessions| ==> sessions[i].holdTime >= 0 && sessions[i].sets >= 0
    ensures TotalScore(sessions) >= 0
    ensures sessions == [] ==> TotalScore(sessions) == 0
  {
    if sessions != [] {
      TotalScoreNonNegative(sessions[..|sessions| - 1]);
      ScoreNonNegative(sessions[|sessions| - 1]);
    }
  }
}
