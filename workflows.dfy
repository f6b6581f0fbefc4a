/** The automated-workflows widget: an ordered selection of tasks, turned into a chain of
    dependencies where each selected task comes to depend on the one selected after it. */
module Workflows {
  import opened Util
  import opened Store

  /** A task's dependencies, a missing list counting as none. */
  function DepsOf(t: Task): seq<string> {
    if t.dependencies.Some? then t.dependencies.value else []
  }

  /** The id selected right after `id`, if `id` is selected and not last. */
  function NextInChain(selection: seq<string>, id: string): (r: Option<string>)
    ensures id !in selection ==> r.None?
    ensures id in selection ==>
      var k := IndexOf(selection, id);
      r == if k + 1 < |selection| then Some(selection[k + 1]) else None
  {
    if id in selection then
      var k := IndexOf(selection, id);
      if k + 1 < |selection| then Some(selection[k + 1]) else None
    else None
  }

  /** The task after the workflow is created: a selected task followed by a (non-empty) next
      id gets that id appended to its dependencies; any other task is returned as it was. */
  function Chained(t: Task, selection: seq<string>): (r: Task)
    ensures r.(dependencies := t.dependencies) == t
    ensures var next := NextInChain(selection, t.id);
      if next.Some? && next.value != "" then r.dependencies == Some(DepsOf(t) + [next.value]) else r == t
  {
    var next := NextInChain(selection, t.id);
    if next.Some? && next.value != "" then t.(dependencies := Some(DepsOf(t) + [next.value])) else t
  }

  /** The task list after "Create Workflow". */
  function WithWorkflow(tasks: seq<Task>, selection: seq<string>): (r: seq<Task>)
    ensures |r| == |tasks| && TaskIds(r) == TaskIds(tasks)
    ensures forall i :: 0 <= i < |tasks| && tasks[i].id !in selection ==> r[i] == tasks[i]
    ensures forall i :: 0 <= i < |tasks| ==> r[i] == Chained(tasks[i], selection)
  {
    seq(|tasks|, i requires 0 <= i < |tasks| => Chained(tasks[i], selection))
  }

  /** In a selection without repetitions, each task's successor is the next entry. */
  lemma NextIsFollowing(selection: seq<string>, i: nat)
    requires NoDup(selection) && i < |selection|
    ensures NextInChain(selection, selection[i]) == if i + 1 < |selection| then Some(selection[i + 1]) else None
  {
    var k := IndexOf(selection, selection[i]);
    if k != i {
      DistinctPositions(selection, k, i);
    }
  }

  /** The chain the workflow lays down: for consecutive entries `a`, `b` of the selection
      (with `b` non-empty), every task with id `a` now has `b` as its last dependency, after
      the dependencies it had; the last entry's tasks are unchanged. */
  lemma WorkflowChains(tasks: seq<Task>, selection: seq<string>, i: nat, j: nat)
    requires NoDup(selection) && i < |selection| && j < |tasks| && tasks[j].id == selection[i]
    ensures i + 1 < |selection| && selection[i + 1] != "" ==>
      WithWorkflow(tasks, selection)[j].dependencies == Some(DepsOf(tasks[j]) + [selection[i + 1]])
    ensures i + 1 == |selection| ==> WithWorkflow(tasks, selection)[j] == tasks[j]
  {
    NextIsFollowing(selection, i);
  }

  const TaskA: Task := Task("a", "A", Todo, Low, "", NoDate, "", None, None, None)
  const TaskB: Task := Task("b", "B", Todo, Low, "", NoDate, "", None, None, None)

  /** No cycle check is made: the workflow a-then-b followed by the workflow b-then-a leaves
      each task depending on the other. */
  lemma WorkflowsCanFormCycle()
    ensures var r := WithWorkflow(WithWorkflow([TaskA, TaskB], ["a", "b"]), ["b", "a"]);
      r[0].dependencies == Some(["b"]) && r[1].dependencies == Some(["a"])
  {
    var first := WithWorkflow([TaskA, TaskB], ["a", "b"]);
    assert NextInChain(["a", "b"], "a") == Some("b");
    assert NextInChain(["a", "b"], "b") == None;
    assert first[0] == Chained(TaskA, ["a", "b"]);
    assert DepsOf(TaskA) + ["b"] == ["b"];
    assert first[1] == Chained(TaskB, ["a", "b"]) == TaskB;
    var second := WithWorkflow(first, ["b", "a"]);
    assert NextInChain(["b", "a"], "a") == None;
    assert NextInChain(["b", "a"], "b") == Some("a");
    assert second[0] == first[0];
    assert second[1] == Chained(TaskB, ["b", "a"]);
    assert DepsOf(TaskB) + ["a"] == ["a"];
  }

  class AutomatedWorkflows {
    const store: AppStore
    var workflowName: string
    var selectedTasks: seq<string>

    /** No task is selected twice. */
    ghost predicate Valid()
      reads this
    {
      NoDup(selectedTasks)
    }

    constructor (store: AppStore)
      ensures this.store == store && Valid() && workflowName == "" && selectedTasks == []
    {
      this.store := store;
      workflowName := "";
      selectedTasks := [];
    }

    method SetWorkflowName(name: string)
      modifies this
      ensures workflowName == name && selectedTasks == old(selectedTasks)
    {
      workflowName := name;
    }

    /** `handleAddTaskToWorkflow`: appends the id unless it is already selected. */
    method HandleAddTaskToWorkflow(taskId: string)
      requires Valid()
      modifies this
      ensures Valid()
      ensures selectedTasks == if taskId in old(selectedTasks) then old(selectedTasks) else old(selectedTasks) + [taskId]
      ensures workflowName == old(workflowName)
    {
      if taskId !in selectedTasks {
        selectedTasks := selectedTasks + [taskId];
      }
    }

    /** `handleRemoveTaskFromWorkflow`: drops the id, keeping the order of the rest. */
    method HandleRemoveTaskFromWorkflow(taskId: string)
      requires Valid()
      modifies this
      ensures Valid()
      ensures selectedTasks == Without(old(selectedTasks), taskId)
      ensures taskId !in selectedTasks && IsSubseq(selectedTasks, old(selectedTasks))
      ensures workflowName == old(workflowName)
    {
      selectedTasks := Without(selectedTasks, taskId);
    }

    /** `handleCreateWorkflow`: nothing without a name or with fewer than two selected
        tasks; otherwise the chain is laid down and the form cleared. */
    method HandleCreateWorkflow()
      requires Valid()
      modifies this, store
      ensures Valid()
      ensures old(workflowName) == "" || |old(selectedTasks)| < 2 ==>
        store.State() == old(store.State()) && workflowName == old(workflowName) && selectedTasks == old(selectedTasks)
      ensures old(workflowName) != "" && |old(selectedTasks)| >= 2 ==>
        && store.State() == old(store.State()).(tasks := WithWorkflow(old(store.tasks), old(selectedTasks)))
        && workflowName == "" && selectedTasks == []
    {
      var name, selection, tasks := workflowName, selectedTasks, store.tasks;
      if name == "" || |selection| < 2 {
        return;
      }
      store.SetTasks(Value(WithWorkflow(tasks, selection)));
      workflowName := "";
      selectedTasks := [];
    }
  }
}
