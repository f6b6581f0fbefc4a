/** The task board: three status columns fed from the shared task list, drag and drop
    between them, and the forms that add, delete and re-status tasks. */
module TasksPage {
  import opened Util
  import opened Store

  /** The "new task" form: every task field but the id. */
  datatype TaskDraft = TaskDraft(
    title: string,
    assignee: string,
    dueDate: Date,
    priority: Priority,
    status: Status,
    description: string)

  const EmptyDraft: TaskDraft := TaskDraft("", "", NoDate, Medium, Todo, "")

  datatype ViewMode = Kanban | ListView

  /** One end of a drag: the column and the card's position inside that column. */
  datatype DragLocation = DragLocation(droppableId: Status, index: nat)

  /** The board's columns, left to right. */
  const Columns: seq<Status> := [Todo, InProgress, Done]

  /** The cards a column shows, in list order. */
  function Column(tasks: seq<Task>, status: Status): (r: seq<Task>)
    ensures forall t :: t in r <==> t in tasks && t.status == status
    ensures forall t :: multiset(r)[t] == if t.status == status then multiset(tasks)[t] else 0
    ensures IsSubseq(r, tasks)
    ensures |r| <= |tasks|
  {
    Filter(tasks, (t: Task) => t.status == status)
  }

  /** Every task shows in exactly one column. */
  lemma ColumnsPartition(tasks: seq<Task>)
    ensures multiset(Column(tasks, Todo)) + multiset(Column(tasks, InProgress)) + multiset(Column(tasks, Done))
            == multiset(tasks)
    ensures |Column(tasks, Todo)| + |Column(tasks, InProgress)| + |Column(tasks, Done)| == |tasks|
  {
    var a, b, c := Column(tasks, Todo), Column(tasks, InProgress), Column(tasks, Done);
    forall x: Task
      ensures multiset(a)[x] + multiset(b)[x] + multiset(c)[x] == multiset(tasks)[x]
    {
    }
    assert multiset(a) + multiset(b) + multiset(c) == multiset(tasks);
    assert |multiset(a) + multiset(b) + multiset(c)| == |multiset(tasks)|;
  }

  // ---------------------------------------------------------------------------
  // Drag and drop
  // ---------------------------------------------------------------------------

  /** The task list after a drop: the task at list position `from` is cut out, given the
      destination column's status, and inserted at list position `to` (clamped to the end).
      Both positions are the drag library's per-column indices, used on the whole list. */
  function MoveTask(tasks: seq<Task>, from: nat, to: nat, status: Status): (r: seq<Task>)
    requires from < |tasks|
    ensures |r| == |tasks|
    ensures var at := if to < |tasks| - 1 then to else |tasks| - 1;
      && r[at] == tasks[from].(status := status)
      && r[..at] + r[at + 1..] == tasks[..from] + tasks[from + 1..]
  {
    var taken := Splice(tasks, from, 1, []);
    var moved := taken.removed[0].(status := status);
    var r := Splice(taken.result, to, 0, [moved]).result;
    var at := if to < |tasks| - 1 then to else |tasks| - 1;
    assert r == r[..at] + [moved] + r[at + 1..];
    assert taken.result == tasks[..from] + tasks[from + 1..];
    r
  }

  /** A drop never loses, duplicates or invents a task: the ids are the same multiset. */
  lemma MoveTaskKeepsIds(tasks: seq<Task>, from: nat, to: nat, status: Status)
    requires from < |tasks|
    ensures multiset(TaskIds(MoveTask(tasks, from, to, status))) == multiset(TaskIds(tasks))
  {
    var r := MoveTask(tasks, from, to, status);
    var at := if to < |tasks| - 1 then to else |tasks| - 1;
    IdsWithout(r, at);
    IdsWithout(tasks, from);
  }

  /** The ids of a list are those of the list with position `k` cut out, plus that
      position's id. */
  lemma IdsWithout(s: seq<Task>, k: nat)
    requires k < |s|
    ensures multiset(TaskIds(s)) == multiset(TaskIds(s[..k] + s[k + 1..])) + multiset{s[k].id}
  {
    var rest := s[..k] + s[k + 1..];
    assert TaskIds(s) == TaskIds(s[..k]) + [s[k].id] + TaskIds(s[k + 1..]);
    assert TaskIds(rest) == TaskIds(s[..k]) + TaskIds(s[k + 1..]);
  }

  /** Two tasks used to show how drag indices are read. */
  const SampleTodo: Task := Task("a", "A", Todo, Low, "", NoDate, "", None, None, None)
  const SampleDoing: Task := Task("b", "B", InProgress, Low, "", NoDate, "", None, None, None)

  /** The board passes a card's index within its column, but the drop handler splices the
      whole list with it. With a To Do task listed before an In Progress task, the In
      Progress card is first in its column, yet dragging that card (index 0) to Done moves
      the To Do task instead. */
  lemma DragUsesListPosition()
    ensures Column([SampleTodo, SampleDoing], InProgress) == [SampleDoing]
    ensures MoveTask([SampleTodo, SampleDoing], 0, 0, Done) == [SampleTodo.(status := Done), SampleDoing]
  {
    SampleColumn();
    SampleMove();
  }

  lemma SampleMove()
    ensures MoveTask([SampleTodo, SampleDoing], 0, 0, Done) == [SampleTodo.(status := Done), SampleDoing]
  {
    var tasks := [SampleTodo, SampleDoing];
    var r := MoveTask(tasks, 0, 0, Done);
    assert tasks[..0] + tasks[1..] == [SampleDoing];
    assert r[1..] == [SampleDoing];
    assert r == [r[0]] + r[1..];
  }

  lemma SampleColumn()
    ensures Column([SampleTodo, SampleDoing], InProgress) == [SampleDoing]
  {
    var col := Column([SampleTodo, SampleDoing], InProgress);
    assert multiset(col)[SampleDoing] == 1;
    assert |col| == 1;
  }

  // ---------------------------------------------------------------------------
  // Add, delete, re-status
  // ---------------------------------------------------------------------------

  /** New task ids are the prefix and the creation instant in milliseconds. */
  const TaskIdPrefix: string := "task-"

  /** The task list after submitting the form: unchanged when the title is blank, otherwise
      the draft, under a fresh clock-based id, appended after every existing task. */
  function WithTaskAdded(tasks: seq<Task>, draft: TaskDraft, now: nat): (r: seq<Task>)
    ensures IsBlank(draft.title) ==> r == tasks
    ensures !IsBlank(draft.title) ==>
      && |r| == |tasks| + 1 && r[..|tasks|] == tasks
      && var t := r[|tasks|];
      && t.id == StampedId(TaskIdPrefix, now)
      && t.title == draft.title && t.assignee == draft.assignee && t.dueDate == draft.dueDate
      && t.priority == draft.priority && t.status == draft.status && t.description == draft.description
      && t.timeSpent.None? && t.dependencies.None? && t.tags.None?
  {
    TrimEmptyIffBlank(draft.title);
    if Trim(draft.title) == "" then tasks
    else
      var t := Task(StampedId(TaskIdPrefix, now), draft.title, draft.status, draft.priority, draft.assignee,
                    draft.dueDate, draft.description, None, None, None);
      assert (tasks + [t])[..|tasks|] == tasks;
      tasks + [t]
  }

  /** The task list after deleting `id`: every task with that id goes, the others stay in
      order. */
  function WithoutTask(tasks: seq<Task>, id: string): (r: seq<Task>)
    ensures forall t :: t in r <==> t in tasks && t.id != id
    ensures forall t :: multiset(r)[t] == if t.id != id then multiset(tasks)[t] else 0
    ensures IsSubseq(r, tasks)
  {
    Filter(tasks, (t: Task) => t.id != id)
  }

  /** Deleting an id no task has leaves the list as it was. */
  lemma WithoutAbsentTask(tasks: seq<Task>, id: string)
    requires forall t :: t in tasks ==> t.id != id
    ensures WithoutTask(tasks, id) == tasks
  {
    FilterKeepsAll(tasks, (t: Task) => t.id != id);
  }

  /** The task list after moving task `id` to `status` from the list view: same tasks in the
      same places, only the status of the tasks with that id changed. */
  function WithStatus(tasks: seq<Task>, id: string, status: Status): (r: seq<Task>)
    ensures |r| == |tasks| && TaskIds(r) == TaskIds(tasks)
    ensures forall i :: 0 <= i < |r| ==> r[i].(status := tasks[i].status) == tasks[i]
    ensures forall i :: 0 <= i < |r| ==> r[i].status == if tasks[i].id == id then status else tasks[i].status
  {
    seq(|tasks|, i requires 0 <= i < |tasks| => if tasks[i].id == id then tasks[i].(status := status) else tasks[i])
  }

  /** Setting the same status twice is setting it once, and afterwards the task is in that
      status's column. */
  lemma WithStatusIdempotent(tasks: seq<Task>, id: string, status: Status)
    ensures WithStatus(WithStatus(tasks, id, status), id, status) == WithStatus(tasks, id, status)
    ensures forall t :: t in WithStatus(tasks, id, status) && t.id == id ==> t in Column(WithStatus(tasks, id, status), status)
  {
    var r := WithStatus(tasks, id, status);
    var rr := WithStatus(r, id, status);
    forall i | 0 <= i < |r|
      ensures rr[i] == r[i]
    {
      assert TaskIds(r)[i] == TaskIds(tasks)[i];
    }
  }

  // ---------------------------------------------------------------------------
  // The page
  // ---------------------------------------------------------------------------

  class TasksPage {
    const store: AppStore
    var newTask: TaskDraft
    var viewMode: ViewMode

    constructor (store: AppStore)
      ensures this.store == store && newTask == EmptyDraft && viewMode == Kanban
    {
      this.store := store;
      newTask := EmptyDraft;
      viewMode := Kanban;
    }

    /** Typing in the form. */
    method EditDraft(draft: TaskDraft)
      modifies this
      ensures newTask == draft && viewMode == old(viewMode)
    {
      newTask := draft;
    }

    method SetViewMode(mode: ViewMode)
      modifies this
      ensures viewMode == mode && newTask == old(newTask)
    {
      viewMode := mode;
    }

    /** `onDragEnd`: a drop outside every column changes nothing; otherwise the task at the
        source index is moved as `MoveTask` describes. */
    method OnDragEnd(source: DragLocation, destination: Option<DragLocation>)
      requires source.index < |Column(store.tasks, source.droppableId)|
      modifies store
      ensures destination.None? ==> store.State() == old(store.State())
      ensures destination.Some? ==> store.State() == old(store.State()).(tasks :=
        MoveTask(old(store.tasks), source.index, destination.value.index, destination.value.droppableId))
    {
      if destination.None? {
        return;
      }
      var dest := destination.value;
      var newTasks := store.tasks;
      var taken := Splice(newTasks, source.index, 1, []);
      var reordered := taken.removed[0];
      newTasks := taken.result;
      newTasks := Splice(newTasks, dest.index, 0, [reordered.(status := dest.droppableId)]).result;
      store.SetTasks(Value(newTasks));
    }

    /** `addTask`: a blank title changes nothing; otherwise the task is appended and the form
        cleared. */
    method AddTask(now: nat)
      modifies this, store
      ensures store.State() == old(store.State()).(tasks := WithTaskAdded(old(store.tasks), old(newTask), now))
      ensures newTask == if IsBlank(old(newTask.title)) then old(newTask) else EmptyDraft
      ensures viewMode == old(viewMode)
    {
      var draft, tasks := newTask, store.tasks;
      TrimEmptyIffBlank(draft.title);
      if Trim(draft.title) == "" {
        return;
      }
      var item := Task(StampedId(TaskIdPrefix, now), draft.title, draft.status, draft.priority, draft.assignee,
                       draft.dueDate, draft.description, None, None, None);
      store.SetTasks(Value(tasks + [item]));
      newTask := EmptyDraft;
    }

    /** `deleteTask`. */
    method DeleteTask(id: string)
      modifies store
      ensures store.State() == old(store.State()).(tasks := WithoutTask(old(store.tasks), id))
    {
      store.SetTasks(Value(Filter(store.tasks, (t: Task) => t.id != id)));
    }

    /** `updateTaskStatus`. */
    method UpdateTaskStatus(id: string, status: Status)
      modifies store
      ensures store.State() == old(store.State()).(tasks := WithStatus(old(store.tasks), id, status))
    {
      var tasks := store.tasks;
      store.SetTasks(Value(seq(|tasks|, i requires 0 <= i < |tasks| =>
        if tasks[i].id == id then tasks[i].(status := status) else tasks[i])));
    }
  }
}
