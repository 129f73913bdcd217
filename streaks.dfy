/** The streak specification shared by app.js, tests/verify_streak_logic.js and
    benchmarks/streak_perf.js: the set of distinct session dates and the walk
    backwards from a start day while each day is in that set. */
module Streaks {
  import opened Scoring

  /** `sessions.map((session) => session.date)`. */
  function DatesOf(sessions: seq<Session>): (ds: seq<Day>)
    ensures |ds| == |sessions|
    ensures forall i :: 0 <= i < |sessions| ==> ds[i] == sessions[i].date
  {
    seq(|sessions|, i requires 0 <= i < |sessions| => sessions[i].date)
  }

  /** `new Set(sessions.map((session) => session.date))`, as a set of days. */
  function DateSet(sessions: seq<Session>): (days: set<Day>)
    ensures forall i :: 0 <= i < |sessions| ==> sessions[i].date in days
  {
    set s | s in sessions :: s.date
  }

  lemma DatesOfMembers(sessions: seq<Session>)
    ensures forall x :: x in DatesOf(sessions) <==> x in DateSet(sessions)
  {
    var ds := DatesOf(sessions);
    forall x ensures x in ds <==> x in DateSet(sessions) {
      if x in ds {
        var i :| 0 <= i < |ds| && ds[i] == x;
        assert sessions[i] in sessions;
      }
      if x in DateSet(sessions) {
        var s :| s in sessions && s.date == x;
        var i :| 0 <= i < |sessions| && sessions[i] == s;
        assert ds[i] == x;
      }
    }
  }

  /** `[...new Set(xs)]`: the distinct values of `xs` in order of first
      occurrence (a JavaScript Set iterates in insertion order). */
  function Distinct(xs: seq<Day>): (r: seq<Day>)
    ensures forall x :: x in r <==> x in xs
    ensures forall i, j :: 0 <= i < j < |r| ==> r[i] != r[j]
    ensures xs != [] ==> r != [] && r[0] == xs[0]
    ensures |r| <= |xs|
  {
    if xs == [] then []
    else
      var init := Distinct(xs[..|xs| - 1]);
      var x := xs[|xs| - 1];
      assert forall y :: y in xs <==> y in xs[..|xs| - 1] || y == x by {
        assert xs == xs[..|xs| - 1] + [x];
      }
      if x in init then init else init + [x]
  }

  /** The number of consecutive days `d, d - 1, d - 2, ...` that are all in
      `days`: the walk stops at the first day that is missing. */
  function Run(days: set<Day>, d: Day): (n: nat)
    ensures forall x :: d - n < x <= d ==> x in days
    ensures d - n !in days
    ensures n <= |days|
    decreases |days|
  {
    if d in days then
      var rest := Run(days - {d}, d - 1);
      assert forall x :: x in days - {d} ==> x in days;
      1 + rest
    else 0
  }

  /** The two facts that end a walk determine its length. */
  lemma RunUnique(days: set<Day>, d: Day, n: nat)
    requires forall x :: d - n < x <= d ==> x in days
    requires d - n !in days
    ensures n == Run(days, d)
  {
    var m := Run(days, d);
    assert n < m ==> d - n in days;
    assert m < n ==> d - m in days;
  }

  /** The earliest session date, which bounds every walk from below. */
  function Earliest(sessions: seq<Session>): (e: Day)
    requires sessions != []
    ensures forall x :: x in DateSet(sessions) ==> e <= x
  {
    if |sessions| == 1 then sessions[0].date
    else
      var rest := Earliest(sessions[1..]);
      assert DateSet(sessions) == {sessions[0].date} + DateSet(sessions[1..]) by {
        assert forall s :: s in sessions <==> s == sessions[0] || s in sessions[1..];
      }
      if sessions[0].date <= rest then sessions[0].date else rest
  }

  /** The streak of the streak tests and the benchmark: the walk starting at the
      date of the first session of the list (0 for an empty list). */
  function StreakFromFirst(sessions: seq<Session>): (n: nat)
    ensures n == 0 <==> sessions == []
    ensures n <= |DateSet(sessions)|
    ensures sessions != [] ==> n == Run(DateSet(sessions), sessions[0].date)
  {
    if sessions == [] then 0
    else
      assert sessions[0] in sessions;
      Run(DateSet(sessions), sessions[0].date)
  }

  /** A list of sessions dated `today, today - 1, ..., today - (n - 1)` has a streak of n. */
  lemma ConsecutiveDaysStreak(sessions: seq<Session>, today: Day)
    requires forall i :: 0 <= i < |sessions| ==> sessions[i].date == today - i
    ensures sessions != [] ==> StreakFromFirst(sessions) == |sessions|
  {
    if sessions != [] {
      var n := |sessions|;
      var days := DateSet(sessions);
      forall x | today - n < x <= today ensures x in days {
        var i := today - x;
        assert sessions[i] in sessions && sessions[i].date == x;
      }
      forall s | s in sessions ensures s.date > today - n {
        var i :| 0 <= i < n && sessions[i] == s;
      }
      assert today - n !in days;
      RunUnique(days, today, n);
    }
  }
}
