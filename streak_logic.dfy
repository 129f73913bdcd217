/** tests/verify_streak_logic.js: the set-based streak walk that starts at the
    first session of the list, and the six scenarios the test file asserts. */
module StreakLogic {
  import opened Scoring
  import opened Streaks

  /** `calculateStreakOptimized`: a Set of the session dates, then the walk
      from `sessions[0].date` while the day is in the Set. */
  method CalculateStreakOptimized(sessions: seq<Session>) returns (streak: nat)
    ensures streak == StreakFromFirst(sessions)
    ensures sessions != [] ==>
      (forall x :: sessions[0].date - streak < x <= sessions[0].date ==> x in DateSet(sessions)) &&
      sessions[0].date - streak !in DateSet(sessions)
  {
    if |sessions| == 0 {
      return 0;
    }
    var uniqueDates := DateSet(sessions);
    var start := sessions[0].date;
    ghost var earliest := Earliest(sessions);
    streak := 0;
    var currentStr := start;
    while currentStr in uniqueDates
      invariant currentStr == start - streak
      invariant forall x :: currentStr < x <= start ==> x in uniqueDates
      decreases currentStr - earliest
    {
      streak := streak + 1;
      currentStr := currentStr - 1;
    }
    RunUnique(uniqueDates, start, streak);
  }

  /** A session carrying only a date, as the test scenarios build them. */
  function On(d: Day): (s: Session)
  {
    Session("", 0, 0, 0, d)
  }

  /** Scenario 2: a single session today gives 1. */
  lemma SingleSessionStreak(s: seq<Session>, today: Day)
    requires |s| == 1 && s[0].date == today
    ensures StreakFromFirst(s) == 1
  {
    assert s[0] in s;
    forall t | t in s ensures t.date == today { }
    RunUnique(DateSet(s), today, 1);
  }

  /** Scenario 3: today, yesterday and the day before give 3. */
  lemma ConsecutiveStreak(s: seq<Session>, today: Day)
    requires |s| == 3 && s[0].date == today && s[1].date == today - 1 && s[2].date == today - 2
    ensures StreakFromFirst(s) == 3
  {
    assert s[0] in s && s[1] in s && s[2] in s;
    forall t | t in s ensures today - 2 <= t.date <= today {
      var i :| 0 <= i < |s| && s[i] == t;
    }
    RunUnique(DateSet(s), today, 3);
  }

  /** Scenario 4: two sessions today and one yesterday give 2; the repeated day counts once. */
  lemma DuplicateDayStreak(s: seq<Session>, today: Day)
    requires |s| == 3 && s[0].date == today && s[1].date == today && s[2].date == today - 1
    ensures StreakFromFirst(s) == 2
  {
    assert s[0] in s && s[2] in s;
    forall t | t in s ensures today - 1 <= t.date <= today {
      var i :| 0 <= i < |s| && s[i] == t;
    }
    RunUnique(DateSet(s), today, 2);
  }

  /** Scenario 5: today and four days back give 1; the gap stops the walk. */
  lemma GapStreak(s: seq<Session>, today: Day)
    requires |s| == 2 && s[0].date == today && s[1].date == today - 4
    ensures StreakFromFirst(s) == 1
  {
    assert s[0] in s;
    forall t | t in s ensures t.date == today || t.date == today - 4 {
      var i :| 0 <= i < |s| && s[i] == t;
    }
    RunUnique(DateSet(s), today, 1);
  }

  /** Scenario 6: today, yesterday twice, the day before and a day after a gap give 3. */
  lemma ComplexStreak(s: seq<Session>, today: Day)
    requires |s| == 5 && s[0].date == today && s[1].date == today - 1 && s[2].date == today - 1
    requires s[3].date == today - 2 && s[4].date == today - 4
    ensures StreakFromFirst(s) == 3
  {
    assert s[0] in s && s[1] in s && s[3] in s;
    forall t | t in s ensures t.date != today - 3 {
      var i :| 0 <= i < |s| && s[i] == t;
    }
    RunUnique(DateSet(s), today, 3);
  }

  /** The six scenarios of the test file, with `today` any day: empty 0, a
      single session 1, three consecutive days 3, a duplicate day 2, a gap of
      four days 1, and duplicates followed by a gap 3. */
  method RunScenarios(today: Day) returns (results: seq<nat>)
    ensures results == [0, 1, 3, 2, 1, 3]
  {
    var yesterday, dayBefore, gapDay := today - 1, today - 2, today - 4;

    var r0 := CalculateStreakOptimized([]);

    var single := [On(today)];
    var r1 := CalculateStreakOptimized(single);
    SingleSessionStreak(single, today);

    var consecutive := [On(today), On(yesterday), On(dayBefore)];
    var r2 := CalculateStreakOptimized(consecutive);
    ConsecutiveStreak(consecutive, today);

    var duplicate := [On(today), On(today), On(yesterday)];
    var r3 := CalculateStreakOptimized(duplicate);
    DuplicateDayStreak(duplicate, today);

    var gap := [On(today), On(gapDay)];
    var r4 := CalculateStreakOptimized(gap);
    GapStreak(gap, today);

    var complex := [On(today), On(yesterday), On(yesterday), On(dayBefore), On(gapDay)];
    var r5 := CalculateStreakOptimized(complex);
    ComplexStreak(complex, today);

    results := [r0, r1, r2, r3, r4, r5];
  }
}
