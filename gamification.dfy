/** The gamification widget: a leaderboard of members scored by their base points plus ten
    points per completed task assigned to them, best first, and the level a score reaches. */
module Gamification {
  import opened Util
  import opened Store
  import opened Sorting

  const PointsPerTask: nat := 10

  function IsDone(): Task -> bool {
    (t: Task) => t.status == Done
  }

  function AssignedTo(name: string): Task -> bool {
    (t: Task) => t.assignee == name
  }

  /** The completed tasks assigned (by name) to a member. */
  function CompletedBy(tasks: seq<Task>, name: string): (n: nat)
    ensures n <= |tasks|
  {
    |Filter(Filter(tasks, IsDone()), AssignedTo(name))|
  }

  /** A leaderboard row; `None` stands for `NaN`, the sum when a member has no base points. */
  datatype Entry = Entry(name: string, points: Option<int>)

  /** A member's score. */
  function Score(m: TeamMember, tasks: seq<Task>): (r: Option<int>)
    ensures r.Some? <==> m.points.Some?
    ensures r.Some? ==> r.value == m.points.value + PointsPerTask * CompletedBy(tasks, m.name)
    ensures r.Some? ==> r.value >= m.points.value
  {
    if m.points.Some? then Some(m.points.value + PointsPerTask * CompletedBy(tasks, m.name)) else None
  }

  /** One row per member, in member order, before sorting. */
  function Entries(members: seq<TeamMember>, tasks: seq<Task>): (r: seq<Entry>)
    ensures |r| == |members|
    ensures forall i :: 0 <= i < |members| ==> r[i] == Entry(members[i].name, Score(members[i], tasks))
  {
    seq(|members|, i requires 0 <= i < |members| => Entry(members[i].name, Score(members[i], tasks)))
  }

  /** The sort comparator `b.points - a.points` read as "a may stay in front of b": a
      difference involving `NaN` counts as a tie. */
  predicate Ahead(a: Entry, b: Entry) {
    a.points.None? || b.points.None? || b.points.value <= a.points.value
  }

  /** The leaderboard as shown. */
  function Leaderboard(members: seq<TeamMember>, tasks: seq<Task>): (r: seq<Entry>)
    ensures |r| == |members|
    ensures multiset(r) == multiset(Entries(members, tasks))
  {
    SortBy(Entries(members, tasks), (a: Entry, b: Entry) => Ahead(a, b))
  }

  /** When every member has base points, the comparator is a total preorder on the rows. */
  lemma AheadTotalPreorder(entries: seq<Entry>)
    requires forall e :: e in entries ==> e.points.Some?
    ensures TotalPreorderOn((a: Entry, b: Entry) => Ahead(a, b), entries)
  {
  }

  /** When every member has base points, the leaderboard holds one row per member with that
      member's score, and scores never increase down the list. */
  lemma LeaderboardRanked(members: seq<TeamMember>, tasks: seq<Task>)
    requires forall m :: m in members ==> m.points.Some?
    ensures var r := Leaderboard(members, tasks);
      && multiset(r) == multiset(Entries(members, tasks))
      && (forall e :: e in r ==> e.points.Some?)
      && (forall i, j :: 0 <= i < j < |r| ==> r[j].points.value <= r[i].points.value)
  {
    var es := Entries(members, tasks);
    var r := Leaderboard(members, tasks);
    forall e | e in es
      ensures e.points.Some?
    {
      var i :| 0 <= i < |es| && es[i] == e;
      assert members[i] in members;
    }
    forall e | e in r
      ensures e.points.Some?
    {
      assert e in multiset(r);
    }
    AheadTotalPreorder(es);
    SortBySorted(es, (a: Entry, b: Entry) => Ahead(a, b));
  }

  /** Finishing a task assigned to a member raises that member's score by ten points. */
  lemma CompletingTaskScoresTen(m: TeamMember, tasks: seq<Task>, t: Task)
    requires m.points.Some? && t.assignee == m.name && t.status == Done
    ensures Score(m, tasks + [t]).value == Score(m, tasks).value + PointsPerTask
  {
    CompletedByAppend(tasks, t, m.name);
  }

  /** A further task counts for a member exactly when it is done and assigned to them. */
  lemma CompletedByAppend(tasks: seq<Task>, t: Task, name: string)
    ensures CompletedBy(tasks + [t], name) == CompletedBy(tasks, name) + (if t.status == Done && t.assignee == name then 1 else 0)
  {
    FilterConcat(tasks, [t], IsDone());
    FilterConcat(Filter(tasks, IsDone()), Filter([t], IsDone()), AssignedTo(name));
    assert [t][..0] == [];
  }

  /** `getLevel`: one level per hundred points, starting at level 1 (`Math.floor` of the
      quotient, so negative scores fall below level 1). */
  function Level(points: int): (level: int)
    ensures (level - 1) * 100 <= points < level * 100
  {
    points / 100 + 1
  }

  /** Levels start at 1 for non-negative scores and never drop as the score grows. */
  lemma LevelMonotone(p: int, q: int)
    ensures p >= 0 ==> Level(p) >= 1
    ensures p <= q ==> Level(p) <= Level(q)
  {
    if p <= q {
      var a, b := Level(p) - 1, Level(q);
      assert a * 100 < b * 100;
    }
  }
}
