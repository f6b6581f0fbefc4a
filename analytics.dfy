/** The analytics page's task-completion chart: one slice per task status. */
module Analytics {
  import opened Store
  import opened TasksPage

  datatype Slice = Slice(name: string, value: nat)

  /** `taskCompletionData`: the number of done, in-progress and to-do tasks, in that
      order. */
  function TaskCompletionData(tasks: seq<Task>): (r: seq<Slice>)
    ensures |r| == 3
    ensures r[0].name == "Completed" && r[1].name == "Ongoing" && r[2].name == "To Do"
    ensures r[0].value + r[1].value + r[2].value == |tasks|
    ensures r[0].value == |Column(tasks, Done)| && r[1].value == |Column(tasks, InProgress)|
    ensures r[2].value == |Column(tasks, Todo)|
  {
    ColumnsPartition(tasks);
    [Slice("Completed", |Column(tasks, Done)|),
     Slice("Ongoing", |Column(tasks, InProgress)|),
     Slice("To Do", |Column(tasks, Todo)|)]
  }

  /** Moving a task on the board leaves the chart's total unchanged. */
  lemma ChartTotalStableUnderMove(tasks: seq<Task>, from: nat, to: nat, status: Status)
    requires from < |tasks|
    ensures var before, after := TaskCompletionData(tasks), TaskCompletionData(MoveTask(tasks, from, to, status));
      after[0].value + after[1].value + after[2].value == before[0].value + before[1].value + before[2].value
  {
  }
}
