/** The right sidebar: the five nearest upcoming deadlines and the five most recent
    activity entries. Due dates and the current instant are compared as keys on one time
    scale. */
module RightSidebar {
  import opened Util
  import opened Store
  import opened Sorting

  const MaxShown: nat := 5

  /** A task is upcoming when it has a due date strictly after `now`; a missing due date is an
      invalid date, which is after nothing. */
  predicate Upcoming(t: Task, now: int) {
    t.dueDate.Day? && t.dueDate.key > now
  }

  /** The sort comparator of the deadlines, as "a may stay in front of b": earlier due date
      first. */
  predicate DueNoLater(a: Task, b: Task) {
    a.dueDate.Day? && b.dueDate.Day? && a.dueDate.key <= b.dueDate.key
  }

  function UpcomingTasks(tasks: seq<Task>, now: int): (r: seq<Task>)
    ensures forall t :: t in r <==> t in tasks && Upcoming(t, now)
    ensures forall t :: multiset(r)[t] == if Upcoming(t, now) then multiset(tasks)[t] else 0
    ensures IsSubseq(r, tasks)
  {
    Filter(tasks, (t: Task) => Upcoming(t, now))
  }

  /** The upcoming tasks, earliest due date first. */
  function SortedUpcoming(tasks: seq<Task>, now: int): (r: seq<Task>)
    ensures multiset(r) == multiset(UpcomingTasks(tasks, now))
    ensures |r| == |UpcomingTasks(tasks, now)|
    ensures forall t :: t in r <==> t in tasks && Upcoming(t, now)
  {
    var up := UpcomingTasks(tasks, now);
    var r := SortBy(up, (a: Task, b: Task) => DueNoLater(a, b));
    assert forall t :: t in r <==> t in multiset(up);
    r
  }

  /** Sorting by due date puts the upcoming tasks in order. */
  lemma SortedUpcomingOrdered(tasks: seq<Task>, now: int)
    ensures var s := SortedUpcoming(tasks, now);
      forall i, j :: 0 <= i < j < |s| ==> DueNoLater(s[i], s[j])
  {
    var up := UpcomingTasks(tasks, now);
    var le := (a: Task, b: Task) => DueNoLater(a, b);
    assert TotalPreorderOn(le, up);
    SortBySorted(up, le);
  }

  /** `upcomingDeadlines`: the upcoming tasks by due date, at most five. */
  function UpcomingDeadlines(tasks: seq<Task>, now: int): (r: seq<Task>)
    ensures |r| <= MaxShown
    ensures |r| == if |UpcomingTasks(tasks, now)| < MaxShown then |UpcomingTasks(tasks, now)| else MaxShown
    ensures r == SortedUpcoming(tasks, now)[..|r|]
  {
    Take(SortedUpcoming(tasks, now), MaxShown)
  }

  /** Every deadline shown belongs to an upcoming task, and they are in due-date order. */
  lemma UpcomingDeadlinesOrdered(tasks: seq<Task>, now: int)
    ensures var r := UpcomingDeadlines(tasks, now);
      && (forall t :: t in r ==> t in tasks && Upcoming(t, now))
      && (forall i, j :: 0 <= i < j < |r| ==> DueNoLater(r[i], r[j]))
  {
    var s := SortedUpcoming(tasks, now);
    var r := UpcomingDeadlines(tasks, now);
    SortedUpcomingOrdered(tasks, now);
    assert forall i :: 0 <= i < |r| ==> r[i] == s[i];
  }

  /** No upcoming task is left out in favour of a later one: a task not shown means five are
      shown, each due no later than it. */
  lemma UpcomingDeadlinesNearest(tasks: seq<Task>, now: int, t: Task)
    requires t in tasks && Upcoming(t, now)
    ensures var r := UpcomingDeadlines(tasks, now);
      t !in r ==> |r| == MaxShown && forall i :: 0 <= i < |r| ==> DueNoLater(r[i], t)
  {
    var s := SortedUpcoming(tasks, now);
    var r := UpcomingDeadlines(tasks, now);
    if t !in r {
      SortedUpcomingOrdered(tasks, now);
      var rest := s[|r|..];
      assert s == r + rest;
      var k :| 0 <= k < |rest| && rest[k] == t;
      assert s[|r| + k] == t;
      assert |r| == MaxShown;
      forall i | 0 <= i < |r|
        ensures DueNoLater(r[i], t)
      {
        assert r[i] == s[i];
      }
    }
  }

  /** An entry of the activity feed: a task or a message. */
  datatype Activity = TaskActivity(task: Task) | MessageActivity(message: Message)

  function Activities(tasks: seq<Task>, messages: seq<Message>): (r: seq<Activity>)
    ensures |r| == |tasks| + |messages|
    ensures forall i :: 0 <= i < |tasks| ==> r[i] == TaskActivity(tasks[i])
    ensures forall i :: 0 <= i < |messages| ==> r[|tasks| + i] == MessageActivity(messages[i])
  {
    seq(|tasks|, i requires 0 <= i < |tasks| => TaskActivity(tasks[i]))
      + seq(|messages|, i requires 0 <= i < |messages| => MessageActivity(messages[i]))
  }

  /** `recentActivity`: tasks and messages together, ordered by the feed's comparator
      `newerFirst`, at most five. */
  function RecentActivity(tasks: seq<Task>, messages: seq<Message>, newerFirst: (Activity, Activity) -> bool): (r: seq<Activity>)
    ensures |r| <= MaxShown
    ensures |r| == if |tasks| + |messages| < MaxShown then |tasks| + |messages| else MaxShown
    ensures multiset(r) <= multiset(Activities(tasks, messages))
  {
    var all := SortBy(Activities(tasks, messages), newerFirst);
    var r := Take(all, MaxShown);
    assert all == r + all[|r|..];
    r
  }

  /** The feed's comparator subtracts two `timestamp` readings that are never valid dates,
      so every comparison is `NaN`, which `sort` takes as a tie. With every pair tied the
      feed is the first five entries as listed: the first tasks, then messages only when
      there are fewer than five tasks. */
  lemma RecentActivityAllTied(tasks: seq<Task>, messages: seq<Message>, newerFirst: (Activity, Activity) -> bool)
    requires forall a, b :: newerFirst(a, b)
    ensures RecentActivity(tasks, messages, newerFirst) == Take(Activities(tasks, messages), MaxShown)
    ensures |tasks| >= MaxShown ==>
      forall i :: 0 <= i < MaxShown ==> RecentActivity(tasks, messages, newerFirst)[i] == TaskActivity(tasks[i])
  {
    SortByAllTied(Activities(tasks, messages), newerFirst);
  }
}
