/**
 * The four counters of the statistics cards (src/components/StatsCards.tsx).
 *
 * `dayOf` maps a timestamp to its calendar day in local time; two
 * timestamps truncated to local midnight are equal exactly when their
 * days are.
 */
module StatsCards {
  import opened Common
  import opened Lib

  /** A completed task. */
  const IsDone: Task -> bool := (t: Task) => t.status == Completed

  /** A task `isOverdue` flags at time `now`. */
  function OverdueAt(now: int): Task -> bool {
    (t: Task) => IsOverdue(t.dueDate, t.status, now)
  }

  /** A task not yet completed that is due on the day of `now`. */
  function DueToday(now: int, dayOf: int -> CivilDate): Task -> bool {
    (t: Task) => dayOf(t.dueDate) == dayOf(now) && t.status != Completed
  }

  datatype Stats = Stats(total: nat, completed: nat, overdue: nat, today: nat)

  /**
   * `stats`: the number of tasks, of completed tasks, of overdue tasks and
   * of open tasks due today. A completed task is counted neither as
   * overdue nor as due today, so each of those counts fits beside the
   * completed count within the total.
   */
  function ComputeStats(tasks: seq<Task>, now: int, dayOf: int -> CivilDate): (s: Stats)
    ensures s.total == |tasks|
    ensures s.completed == Count(tasks, IsDone)
    ensures s.overdue == Count(tasks, OverdueAt(now))
    ensures s.today == Count(tasks, DueToday(now, dayOf))
    ensures s.completed + s.overdue <= s.total
    ensures s.completed + s.today <= s.total
  {
    CountDisjoint(tasks, IsDone, OverdueAt(now));
    CountDisjoint(tasks, IsDone, DueToday(now, dayOf));
    Stats(|tasks|, Count(tasks, IsDone), Count(tasks, OverdueAt(now)), Count(tasks, DueToday(now, dayOf)))
  }

  /** The counters do not depend on the order of the list. */
  lemma StatsIgnoreOrder(a: seq<Task>, b: seq<Task>, now: int, dayOf: int -> CivilDate)
    requires multiset(a) == multiset(b)
    ensures ComputeStats(a, now, dayOf) == ComputeStats(b, now, dayOf)
  {
    assert |a| == |multiset(a)| == |multiset(b)| == |b|;
    CountMultiset(a, b, IsDone);
    CountMultiset(a, b, OverdueAt(now));
    CountMultiset(a, b, DueToday(now, dayOf));
  }

  /**
   * Adding one task raises the total by one and each other counter by one
   * exactly when the task qualifies for it.
   */
  lemma StatsOfAppend(tasks: seq<Task>, t: Task, now: int, dayOf: int -> CivilDate)
    ensures var s := ComputeStats(tasks, now, dayOf);
      var s' := ComputeStats(tasks + [t], now, dayOf);
      && s'.total == s.total + 1
      && s'.completed == s.completed + (if t.status == Completed then 1 else 0)
      && s'.overdue == s.overdue + (if t.status != Completed && t.dueDate < now then 1 else 0)
      && s'.today == s.today + (if t.status != Completed && dayOf(t.dueDate) == dayOf(now) then 1 else 0)
  {
    CountAppend(tasks, [t], IsDone);
    CountAppend(tasks, [t], OverdueAt(now));
    CountAppend(tasks, [t], DueToday(now, dayOf));
    assert [t][1..] == [];
  }
}
