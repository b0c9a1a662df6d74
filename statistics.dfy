// The dashboard figures: counts over the task list, the productivity
// percentage and the total study time.

module Statistics {
  import opened Records

  /** The tasks `keep` accepts, in their original order (`Array.filter`). */
  function Filter(tasks: seq<Task>, keep: Task -> bool): (r: seq<Task>)
    ensures |r| <= |tasks|
    ensures forall i :: 0 <= i < |r| ==> keep(r[i]) && r[i] in tasks
    ensures forall i :: 0 <= i < |tasks| && keep(tasks[i]) ==> tasks[i] in r
  {
    if tasks == [] then []
    else (if keep(tasks[0]) then [tasks[0]] else []) + Filter(tasks[1..], keep)
  }

  /** Each accepted task occurs in the result as often as in the input; a
      rejected one does not occur. */
  lemma {:induction false} FilterMultiplicity(tasks: seq<Task>, keep: Task -> bool, t: Task)
    ensures multiset(Filter(tasks, keep))[t] == if keep(t) then multiset(tasks)[t] else 0
  {
    if tasks != [] {
      assert tasks == [tasks[0]] + tasks[1..];
      FilterMultiplicity(tasks[1..], keep, t);
    }
  }

  /** The positions of the tasks `keep` accepts. */
  ghost function PositionsWhere(tasks: seq<Task>, keep: Task -> bool): set<int>
  {
    set i | 0 <= i < |tasks| && keep(tasks[i])
  }

  /** `filter(...).length` is the number of positions whose task is accepted. */
  lemma {:induction false} FilterCountsPositions(tasks: seq<Task>, keep: Task -> bool)
    ensures |Filter(tasks, keep)| == |PositionsWhere(tasks, keep)|
    decreases |tasks|
  {
    if tasks == [] {
      assert PositionsWhere(tasks, keep) == {};
    } else {
      var init, last := tasks[..|tasks| - 1], tasks[|tasks| - 1];
      assert tasks == init + [last];
      FilterAppend(init, last, keep);
      FilterCountsPositions(init, keep);
      PositionsAppend(init, last, keep);
    }
  }

  /** One more task at the end adds its own position when it is accepted. */
  lemma PositionsAppend(init: seq<Task>, last: Task, keep: Task -> bool)
    ensures |PositionsWhere(init + [last], keep)| == |PositionsWhere(init, keep)| + if keep(last) then 1 else 0
  {
    var before := PositionsWhere(init, keep);
    var after := PositionsWhere(init + [last], keep);
    var added: set<int> := if keep(last) then {|init|} else {};
    forall i | 0 <= i < |init| ensures (init + [last])[i] == init[i] {}
    assert after == before + added;
    assert before !! added;
  }

  /** The same calendar day: day of month, month and year all agree. */
  function IsToday(date: Date, today: Date): (r: bool)
    ensures r <==> date == today
  {
    date.day == today.day && date.month == today.month && date.year == today.year
  }

  predicate IsCompleted(t: Task) { t.completed }

  predicate IsPending(t: Task) { !t.completed }

  /** A pending task whose deadline falls on `today`. */
  function DueToday(today: Date): Task -> bool
  {
    (t: Task) => !t.completed && IsToday(t.deadline, today)
  }

  function HasStatus(status: string): Task -> bool
  {
    (t: Task) => t.status == status
  }

  /** Every task is counted by exactly one of two complementary filters. */
  lemma {:induction false} FilterComplement(tasks: seq<Task>, p: Task -> bool, q: Task -> bool)
    requires forall t :: q(t) == !p(t)
    ensures |Filter(tasks, p)| + |Filter(tasks, q)| == |tasks|
  {
    if tasks != [] {
      FilterComplement(tasks[1..], p, q);
    }
  }

  /** A stricter filter keeps no more tasks. */
  lemma {:induction false} FilterStricter(tasks: seq<Task>, p: Task -> bool, q: Task -> bool)
    requires forall t :: p(t) ==> q(t)
    ensures |Filter(tasks, p)| <= |Filter(tasks, q)|
  {
    if tasks != [] {
      FilterStricter(tasks[1..], p, q);
    }
  }

  /** Three filters no task satisfies two of together keep at most all tasks. */
  lemma {:induction false} FilterDisjoint(tasks: seq<Task>, p: Task -> bool, q: Task -> bool, s: Task -> bool)
    requires forall t :: !(p(t) && q(t)) && !(p(t) && s(t)) && !(q(t) && s(t))
    ensures |Filter(tasks, p)| + |Filter(tasks, q)| + |Filter(tasks, s)| <= |tasks|
  {
    if tasks != [] {
      FilterDisjoint(tasks[1..], p, q, s);
    }
  }

  /** `Math.round(completed / total * 100)`, or 0 for an empty list, computed
      exactly: the nearest integer to 100 * completed / total, halves rounded up. */
  function Productivity(completed: nat, total: nat): (r: nat)
    ensures total == 0 ==> r == 0
    ensures total > 0 ==> 2 * total * r <= 200 * completed + total < 2 * total * (r + 1)
    ensures completed <= total ==> r <= 100
    ensures total > 0 && completed == total ==> r == 100
    ensures completed == 0 ==> r == 0
  {
    if total > 0 then
      var r := (200 * completed + total) / (2 * total);
      QuotientBounds(200 * completed + total, 2 * total);
      assert completed <= total ==> r <= 100 by {
        if completed <= total { QuotientAtMost(200 * completed + total, 2 * total, 100); }
      }
      assert completed == total ==> r == 100 by {
        if completed == total { QuotientIs(200 * completed + total, 2 * total, 100); }
      }
      assert completed == 0 ==> r == 0 by {
        if completed == 0 { QuotientIs(200 * completed + total, 2 * total, 0); }
      }
      r
    else 0
  }

  /** The quotient `a / n` lies between the multiples of `n` around `a`. */
  lemma QuotientBounds(a: nat, n: nat)
    requires n > 0
    ensures n * (a / n) <= a < n * (a / n + 1)
  {
  }

  /** Below `n * (k + 1)` the quotient by `n` is at most `k`. */
  lemma QuotientAtMost(a: nat, n: nat, k: nat)
    requires n > 0 && a < n * (k + 1)
    ensures a / n <= k
  {
    QuotientBounds(a, n);
    if a / n > k {
      MulMonotone(n, k + 1, a / n);
    }
  }

  /** Between `n * k` and `n * (k + 1)` the quotient by `n` is exactly `k`. */
  lemma QuotientIs(a: nat, n: nat, k: nat)
    requires n > 0 && n * k <= a < n * (k + 1)
    ensures a / n == k
  {
    QuotientAtMost(a, n, k);
    QuotientBounds(a, n);
    if a / n < k {
      MulMonotone(n, a / n + 1, k);
    }
  }

  lemma MulMonotone(n: nat, x: nat, y: nat)
    requires x <= y
    ensures n * x <= n * y
  {
    assert n * y == n * x + n * (y - x);
  }

  /** The sum of the session durations, accumulated from the left (`reduce`). */
  function TotalDuration(sessions: seq<StudySession>): (r: int)
    ensures sessions == [] ==> r == 0
    ensures |sessions| == 1 ==> r == sessions[0].duration
    ensures (forall i :: 0 <= i < |sessions| ==> sessions[i].duration >= 0) ==> r >= 0
  {
    if sessions == [] then 0
    else TotalDuration(sessions[..|sessions| - 1]) + sessions[|sessions| - 1].duration
  }

  /** Logging one more session adds exactly its duration to the total. */
  lemma {:induction false} TotalDurationConcat(a: seq<StudySession>, b: seq<StudySession>)
    ensures TotalDuration(a + b) == TotalDuration(a) + TotalDuration(b)
  {
    if b == [] {
      assert a + b == a;
    } else {
      assert (a + b)[..|a + b| - 1] == a + b[..|b| - 1];
      TotalDurationConcat(a, b[..|b| - 1]);
    }
  }

  /** The figures the dashboard shows. */
  datatype Stats = Stats(
    total: nat,
    completed: nat,
    pending: nat,
    dueToday: nat,
    todo: nat,
    inProgress: nat,
    review: nat,
    productivity: nat,
    studyTime: int)

  /** All dashboard figures for a task list and a session log on a given day:
      each count is the number of positions holding a task of its kind. */
  function UpdateStats(tasks: seq<Task>, sessions: seq<StudySession>, today: Date): (s: Stats)
    ensures s.total == |tasks|
    ensures s.completed == |PositionsWhere(tasks, IsCompleted)|
    ensures s.pending == |PositionsWhere(tasks, IsPending)|
    ensures s.dueToday == |PositionsWhere(tasks, DueToday(today))|
    ensures s.todo == |PositionsWhere(tasks, HasStatus("todo"))|
    ensures s.inProgress == |PositionsWhere(tasks, HasStatus("progress"))|
    ensures s.review == |PositionsWhere(tasks, HasStatus("review"))|
    ensures s.studyTime == TotalDuration(sessions)
    ensures s.productivity == Productivity(s.completed, s.total)
  {
    var completed := |Filter(tasks, IsCompleted)|;
    FilterCountsPositions(tasks, IsCompleted);
    FilterCountsPositions(tasks, IsPending);
    FilterCountsPositions(tasks, DueToday(today));
    FilterCountsPositions(tasks, HasStatus("todo"));
    FilterCountsPositions(tasks, HasStatus("progress"));
    FilterCountsPositions(tasks, HasStatus("review"));
    Stats(
      |tasks|,
      completed,
      |Filter(tasks, IsPending)|,
      |Filter(tasks, DueToday(today))|,
      |Filter(tasks, HasStatus("todo"))|,
      |Filter(tasks, HasStatus("progress"))|,
      |Filter(tasks, HasStatus("review"))|,
      Productivity(completed, |tasks|),
      TotalDuration(sessions))
  }

  /** The relations between the counts: completed and pending make up the
      total, due-today tasks are among the pending ones, and the three status
      counts fit in the total. */
  lemma StatsCountIdentities(tasks: seq<Task>, sessions: seq<StudySession>, today: Date)
    ensures var s := UpdateStats(tasks, sessions, today);
      && s.completed + s.pending == s.total
      && s.dueToday <= s.pending
      && s.todo + s.inProgress + s.review <= s.total
  {
    var s := UpdateStats(tasks, sessions, today);
    assert s.completed + s.pending == s.total by {
      FilterCountsPositions(tasks, IsCompleted);
      FilterCountsPositions(tasks, IsPending);
      FilterComplement(tasks, IsCompleted, IsPending);
    }
    assert s.dueToday <= s.pending by {
      FilterCountsPositions(tasks, DueToday(today));
      FilterCountsPositions(tasks, IsPending);
      FilterStricter(tasks, DueToday(today), IsPending);
    }
    assert s.todo + s.inProgress + s.review <= s.total by {
      FilterCountsPositions(tasks, HasStatus("todo"));
      FilterCountsPositions(tasks, HasStatus("progress"));
      FilterCountsPositions(tasks, HasStatus("review"));
      FilterDisjoint(tasks, HasStatus("todo"), HasStatus("progress"), HasStatus("review"));
    }
  }

  /** The productivity figure is a percentage: 0 for no tasks, otherwise the
      completed share of the total rounded to the nearest integer, halves up. */
  lemma StatsProductivity(tasks: seq<Task>, sessions: seq<StudySession>, today: Date)
    ensures var s := UpdateStats(tasks, sessions, today);
      && s.productivity <= 100
      && (s.total == 0 ==> s.productivity == 0)
      && (s.total > 0 ==> 2 * s.total * s.productivity <= 200 * s.completed + s.total < 2 * s.total * (s.productivity + 1))
  {
    var s := UpdateStats(tasks, sessions, today);
    StatsCountIdentities(tasks, sessions, today);
    ProductivityOf(s.completed, s.total, s.productivity);
  }

  lemma ProductivityOf(completed: nat, total: nat, p: nat)
    requires completed <= total && p == Productivity(completed, total)
    ensures p <= 100
    ensures total == 0 ==> p == 0
    ensures total > 0 ==> 2 * total * p <= 200 * completed + total < 2 * total * (p + 1)
  {
  }

  /** A completed task is never counted as due today, whatever its deadline. */
  lemma CompletedNeverDueToday(tasks: seq<Task>, today: Date)
    ensures forall i :: 0 <= i < |Filter(tasks, DueToday(today))| ==>
      !Filter(tasks, DueToday(today))[i].completed && Filter(tasks, DueToday(today))[i].deadline == today
  {
  }

  /** Adding a fresh pending task (status "todo") raises the total, the pending
      count and the "todo" count by one and leaves the completed count alone. */
  lemma {:induction false} StatsAfterNewTask(tasks: seq<Task>, sessions: seq<StudySession>, today: Date, t: Task)
    requires !t.completed && t.status == "todo"
    ensures UpdateStats(tasks + [t], sessions, today).completed == UpdateStats(tasks, sessions, today).completed
    ensures UpdateStats(tasks + [t], sessions, today).pending == UpdateStats(tasks, sessions, today).pending + 1
    ensures UpdateStats(tasks + [t], sessions, today).todo == UpdateStats(tasks, sessions, today).todo + 1
    ensures UpdateStats(tasks + [t], sessions, today).total == UpdateStats(tasks, sessions, today).total + 1
  {
    FilterAppend(tasks, t, IsCompleted);
    FilterAppend(tasks, t, IsPending);
    FilterAppend(tasks, t, HasStatus("todo"));
  }

  lemma {:induction false} FilterAppend(tasks: seq<Task>, t: Task, keep: Task -> bool)
    ensures Filter(tasks + [t], keep) == Filter(tasks, keep) + (if keep(t) then [t] else [])
  {
    if tasks != [] {
      assert (tasks + [t])[1..] == tasks[1..] + [t];
      FilterAppend(tasks[1..], t, keep);
    }
  }
}
