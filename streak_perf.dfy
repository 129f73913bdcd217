/** benchmarks/streak_perf.js: the generator of a long consecutive history,
    the original list-based streak and its comparison with the Set-based one
    of the streak tests. */
module StreakPerf {
  import opened Scoring
  import opened Streaks
  import StreakLogic

  /** `generateSessions(count)`: sessions dated today, today - 1, ...,
      today - (count - 1), each a tuck of 10 s x 3 at RPE 7. */
  method GenerateSessions(today: Day, count: nat) returns (sessions: seq<Session>)
    ensures |sessions| == count
    ensures forall i :: 0 <= i < count ==> sessions[i] == Session("tuck", 10, 3, 7, today - i)
  {
    sessions := [];
    for i := 0 to count
      invariant |sessions| == i
      invariant forall j :: 0 <= j < i ==> sessions[j] == Session("tuck", 10, 3, 7, today - j)
    {
      sessions := sessions + [Session("tuck", 10, 3, 7, today - i)];
    }
  }

  /** `calculateStreakOriginal`: the distinct dates as a list in first-occurrence
      order, then the walk from `dates[0]` testing list membership. */
  method CalculateStreakOriginal(sessions: seq<Session>) returns (streak: nat)
    ensures streak == StreakFromFirst(sessions)
  {
    if |sessions| == 0 {
      return 0;
    }
    var dates := Distinct(DatesOf(sessions));
    DatesOfMembers(sessions);
    var start := dates[0];
    assert start == sessions[0].date;
    ghost var earliest := Earliest(sessions);
    streak := 0;
    var current := start;
    while current in dates
      invariant current == start - streak
      invariant forall x :: current < x <= start ==> x in dates
      decreases current - earliest
    {
      streak := streak + 1;
      current := current - 1;
    }
    RunUnique(DateSet(sessions), start, streak);
  }

  /** The optimized version is a drop-in replacement: on every list both
      versions return the same count, 0 exactly for the empty list. */
  method CompareVersions(sessions: seq<Session>) returns (original: nat, optimized: nat)
    ensures original == optimized
    ensures original == 0 <==> sessions == []
  {
    original := CalculateStreakOriginal(sessions);
    optimized := StreakLogic.CalculateStreakOptimized(sessions);
  }

  /** The benchmark input: 1000 generated days give a 1000-day streak in both versions. */
  method BenchmarkInput(today: Day) returns (original: nat, optimized: nat)
    ensures original == 1000 && optimized == 1000
  {
    var sessions := GenerateSessions(today, 1000);
    ConsecutiveDaysStreak(sessions, today);
    original := CalculateStreakOriginal(sessions);
    optimized := StreakLogic.CalculateStreakOptimized(sessions);
  }

  /** Every generated session scores 30, so n generated days total 30 n. */
  lemma {:induction false} GeneratedTotalScore(sessions: seq<Session>, today: Day)
    requires forall i :: 0 <= i < |sessions| ==> sessions[i] == Session("tuck", 10, 3, 7, today - i)
    ensures TotalScore(sessions) == 30 * |sessions|
    decreases |sessions|
  {
    if sessions != [] {
      var init := sessions[..|sessions| - 1];
      GeneratedTotalScore(init, today);
      TuckExampleScoresThirty(7, today - (|sessions| - 1));
    }
  }
}
