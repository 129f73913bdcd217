/** `calculateStreak` of app.js: the distinct session dates, sorted newest
    first, and the walk backwards from the newest of them. */
module AppStreak {
  import opened Scoring
  import opened Streaks

  /** The newest day of a non-empty list: the first element once the list is
      sorted newest first (`dates.sort((a, b) => b - a)`, then `dates[0]`). */
  function Latest(dates: seq<Day>): (m: Day)
    requires dates != []
    ensures m in dates
    ensures forall x :: x in dates ==> x <= m
  {
    if |dates| == 1 then dates[0]
    else
      var rest := Latest(dates[1..]);
      assert forall x :: x in dates ==> x == dates[0] || x in dates[1..];
      if dates[0] >= rest then dates[0] else rest
  }

  /** The newest session date. */
  function LatestDate(sessions: seq<Session>): (m: Day)
    requires sessions != []
    ensures m in DateSet(sessions)
    ensures forall x :: x in DateSet(sessions) ==> x <= m
  {
    DatesOfMembers(sessions);
    Latest(DatesOf(sessions))
  }

  /** The streak as app.js defines it: 0 for no sessions, otherwise the walk
      from the newest session date. */
  function StreakOf(sessions: seq<Session>): (n: nat)
    ensures n == 0 <==> sessions == []
    ensures n <= |DateSet(sessions)|
  {
    if sessions == [] then 0 else Run(DateSet(sessions), LatestDate(sessions))
  }

  /** `calculateStreak`: deduplicate, take the newest date, and step back one
      day at a time while the day is among the dates. */
  method CalculateStreak(sessions: seq<Session>) returns (streakCount: nat)
    ensures streakCount == StreakOf(sessions)
  {
    if |sessions| == 0 {
      return 0;
    }
    var dates := Distinct(DatesOf(sessions));
    DatesOfMembers(sessions);
    var start := Latest(dates);
    ghost var earliest := Earliest(sessions);
    streakCount := 0;
    var currentDate := start;
    while currentDate in dates
      invariant currentDate == start - streakCount
      invariant forall x :: currentDate < x <= start ==> x in dates
      decreases currentDate - earliest
    {
      streakCount := streakCount + 1;
      currentDate := currentDate - 1;
    }
    assert start == LatestDate(sessions);
    RunUnique(DateSet(sessions), start, streakCount);
  }

  /** The streak depends on the set of session dates alone: how often a day
      occurs and where it stands in the list make no difference. */
  lemma StreakDependsOnDatesOnly(a: seq<Session>, b: seq<Session>)
    requires DateSet(a) == DateSet(b)
    ensures StreakOf(a) == StreakOf(b)
  {
    assert a != [] ==> a[0].date in DateSet(a);
    assert b != [] ==> b[0].date in DateSet(b);
    if a != [] && b != [] {
      var la, lb := LatestDate(a), LatestDate(b);
      assert la <= lb && lb <= la;
    }
  }

  /** Reordering the session list does not change the streak. */
  lemma StreakIgnoresOrder(a: seq<Session>, b: seq<Session>)
    requires multiset(a) == multiset(b)
    ensures StreakOf(a) == StreakOf(b)
  {
    assert forall s :: s in a <==> s in multiset(a);
    assert forall s :: s in b <==> s in multiset(b);
    assert DateSet(a) == DateSet(b);
    StreakDependsOnDatesOnly(a, b);
  }

  /** A second session on a day that already has one does not add to the streak. */
  lemma StreakIgnoresRepeatedDay(s: Session, sessions: seq<Session>)
    requires s.date in DateSet(sessions)
    ensures StreakOf([s] + sessions) == StreakOf(sessions)
  {
    var longer := [s] + sessions;
    assert forall t :: t in longer <==> t == s || t in sessions;
    assert DateSet(longer) == DateSet(sessions);
    StreakDependsOnDatesOnly(longer, sessions);
  }

  /** Anchoring at the first list entry (as the streak tests and the benchmark
      do) agrees with app.js whenever that entry is the newest. */
  lemma FirstAnchorAgreesWhenNewestFirst(sessions: seq<Session>)
    requires sessions != []
    requires forall i :: 0 <= i < |sessions| ==> sessions[i].date <= sessions[0].date
    ensures StreakFromFirst(sessions) == StreakOf(sessions)
  {
    assert sessions[0] in sessions;
    forall x | x in DateSet(sessions) ensures x <= sessions[0].date {
      var t :| t in sessions && t.date == x;
      var i :| 0 <= i < |sessions| && sessions[i] == t;
    }
    assert LatestDate(sessions) == sessions[0].date;
  }

  /** ...and differs from it when the list is not newest first: yesterday
      listed before today gives 1 from the first entry, but 2 in app.js. */
  lemma FirstAnchorDiffersWhenUnsorted(sessions: seq<Session>, today: Day)
    requires |sessions| == 2 && sessions[0].date == today - 1 && sessions[1].date == today
    ensures StreakFromFirst(sessions) == 1 && StreakOf(sessions) == 2
  {
    var days := DateSet(sessions);
    forall t | t in sessions ensures t.date == today - 1 || t.date == today {
      var i :| 0 <= i < 2 && sessions[i] == t;
    }
    assert sessions[0] in sessions && sessions[1] in sessions;
    assert today - 1 in days && today in days;
    assert today - 2 !in days && today + 1 !in days;
    RunUnique(days, today - 1, 1);
    assert LatestDate(sessions) == today;
    RunUnique(days, today, 2);
  }
}
