/**
 * The dashboard's derived views (src/pages/Dashboard.tsx): the four most
 * recently created tasks, the number of pending tasks, and the pending
 * tasks of each type.
 *
 * Task lists are values, so sorting a copy for the recent list leaves the
 * list it came from as it was.
 */
module Dashboard {
  import opened Common
  import opened Lib

  const RecentLimit := 4

  /** The comparator `b.createdAt - a.createdAt`, newest first, as an ascending key. */
  const NewestFirst: Task -> int := (t: Task) => -t.createdAt

  /**
   * `recentTasks`: the tasks sorted newest first (ties keep their order)
   * and cut to the first four.
   */
  function RecentTasks(tasks: seq<Task>): (r: seq<Task>)
    ensures |r| == if |tasks| < RecentLimit then |tasks| else RecentLimit
    ensures multiset(r) <= multiset(tasks)
    ensures forall i, j :: 0 <= i < j < |r| ==> r[i].createdAt >= r[j].createdAt
  {
    var sorted := SortBy(tasks, NewestFirst);
    TakeIsSubMultiset(sorted, RecentLimit);
    TakeKeepsNewestFirst(sorted, RecentLimit);
    Take(sorted, RecentLimit)
  }

  /** A prefix holds no more of any element than the whole list. */
  lemma TakeIsSubMultiset<T>(s: seq<T>, n: nat)
    ensures multiset(Take(s, n)) <= multiset(s)
  {
    var r := Take(s, n);
    assert s == r + s[|r|..];
  }

  /** A prefix of a list sorted newest first is sorted newest first by creation time. */
  lemma TakeKeepsNewestFirst(s: seq<Task>, n: nat)
    requires SortedBy(s, NewestFirst)
    ensures forall i, j :: 0 <= i < j < |Take(s, n)| ==> Take(s, n)[i].createdAt >= Take(s, n)[j].createdAt
  {
    var r := Take(s, n);
    forall i, j | 0 <= i < j < |r|
      ensures r[i].createdAt >= r[j].createdAt
    {
      assert r[i] == s[i] && r[j] == s[j];
      assert NewestFirst(s[i]) <= NewestFirst(s[j]);
    }
  }

  /**
   * No task left out of the recent list was created after any task in
   * it: every left-out occurrence is at most as new as each shown task.
   */
  lemma LeftOutAreOlder(tasks: seq<Task>)
    ensures forall t, u :: t in multiset(tasks) - multiset(RecentTasks(tasks)) && u in RecentTasks(tasks)
                           ==> t.createdAt <= u.createdAt
  {
    var sorted := SortBy(tasks, NewestFirst);
    var r := RecentTasks(tasks);
    assert r == sorted[..|r|];
    CutMultiset(sorted, |r|);
    CutIsOrdered(sorted, |r|);
  }

  /** Taking the first `n` elements off a list leaves exactly the rest. */
  lemma CutMultiset<T>(s: seq<T>, n: nat)
    requires n <= |s|
    ensures multiset(s) - multiset(s[..n]) == multiset(s[n..])
  {
    assert s == s[..n] + s[n..];
  }

  /** In a list sorted newest first, whatever lies past a cut is no newer than what lies before it. */
  lemma CutIsOrdered(sorted: seq<Task>, n: nat)
    requires n <= |sorted| && SortedBy(sorted, NewestFirst)
    ensures forall t, u :: t in sorted[n..] && u in sorted[..n] ==> t.createdAt <= u.createdAt
  {
    forall t, u | t in sorted[n..] && u in sorted[..n]
      ensures t.createdAt <= u.createdAt
    {
      var j :| n <= j < |sorted| && sorted[j] == t;
      var i :| 0 <= i < n && sorted[i] == u;
      assert NewestFirst(sorted[i]) <= NewestFirst(sorted[j]);
    }
  }

  /** A task not yet completed. */
  const IsPending: Task -> bool := (t: Task) => t.status != Completed

  /** A pending task of the given type. */
  function PendingOfType(k: TaskType): Task -> bool {
    (t: Task) => t.taskType == k && t.status != Completed
  }

  /** The hero line's pending count. */
  function PendingCount(tasks: seq<Task>): (n: nat)
    ensures n <= |tasks|
    ensures n == 0 <==> forall i :: 0 <= i < |tasks| ==> tasks[i].status == Completed
  {
    Count(tasks, IsPending)
  }

  /** The quick summary: pending emails, calendar invites and reminders. */
  function TypeCounts(tasks: seq<Task>): (counts: (nat, nat, nat))
    ensures counts.0 + counts.1 + counts.2 == PendingCount(tasks)
  {
    PerTypeSumsToPending(tasks);
    (Count(tasks, PendingOfType(Email)), Count(tasks, PendingOfType(CalendarInvite)), Count(tasks, PendingOfType(Reminder)))
  }

  /** Every pending task has exactly one of the three types, so the three counts add up to the pending count. */
  lemma {:induction false} PerTypeSumsToPending(tasks: seq<Task>)
    ensures Count(tasks, PendingOfType(Email)) + Count(tasks, PendingOfType(CalendarInvite))
            + Count(tasks, PendingOfType(Reminder)) == Count(tasks, IsPending)
  {
    if tasks != [] {
      PerTypeSumsToPending(tasks[1..]);
    }
  }
}
