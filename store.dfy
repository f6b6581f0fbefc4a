/** The shared application store (`AppProvider`): the entity types, the context guard, the
    mock fixtures the store starts from, and the store object whose eight collections every
    page reads and replaces through React-style setters. */
module Store {
  import opened Util

  // ---------------------------------------------------------------------------
  // Entities
  // ---------------------------------------------------------------------------

  datatype Status = Todo | InProgress | Done
  datatype Priority = Low | Medium | High

  /** A calendar date, as a day key such as 20231215. `NoDate` is what the empty value of a
      date input turns into (`new Date("")` is an invalid date, equal to no day and later
      than no instant). */
  datatype Date = NoDate | Day(key: int)

  datatype Task = Task(
    id: string,
    title: string,
    status: Status,
    priority: Priority,
    assignee: string,
    dueDate: Date,
    description: string,
    timeSpent: Option<nat>,
    dependencies: Option<seq<string>>,
    tags: Option<seq<string>>)

  datatype Milestone = Milestone(id: string, name: string, dueDate: Date, completed: bool)

  datatype Project = Project(
    id: string,
    name: string,
    start: Date,
    end: Date,
    description: string,
    progress: int,
    milestones: seq<Milestone>)

  /** `permissions`, `achievements` and `points` are absent on members created by the team
      page, which only supplies name, email, role and id. */
  datatype TeamMember = TeamMember(
    id: int,
    name: string,
    email: string,
    role: string,
    permissions: Option<seq<string>>,
    achievements: Option<seq<string>>,
    points: Option<int>)

  /** What a message's `chat` field holds at run time: the id of a group chat (a string) or
      of a direct chat (a member's numeric id). */
  datatype ChatKey = ChatName(name: string) | MemberChat(memberId: int)

  /** Channel messages carry `chat`, discussion-thread messages carry `threadId`. */
  datatype Message = Message(
    id: int,
    sender: string,
    content: string,
    timestamp: string,
    chat: Option<ChatKey>,
    threadId: Option<string>)

  /** `uploadedAt` is the upload instant, in milliseconds. */
  datatype FileRecord = FileRecord(id: string, name: string, url: string, uploadedBy: string, uploadedAt: int)

  datatype Reminder = Reminder(id: string, taskId: string, userId: string, message: string, dueDate: Date)

  /** Notifications are untyped in the store and no core operation looks inside them. */
  type Notification = string

  /** A snapshot of the whole store. */
  datatype AppState = AppState(
    tasks: seq<Task>,
    projects: seq<Project>,
    messages: seq<Message>,
    teamMembers: seq<TeamMember>,
    notifications: seq<Notification>,
    files: seq<FileRecord>,
    reminders: seq<Reminder>,
    currentUser: Option<TeamMember>,
    loading: bool,
    failure: Option<string>)

  const Unknown: string := "Unknown"

  /** The name recorded for an action of the signed-in member: the member's name, or
      "Unknown" when nobody is signed in or the name is empty. */
  function NameOrUnknown(current: Option<TeamMember>): (r: string)
    ensures r != ""
    ensures current.Some? && current.value.name != "" ==> r == current.value.name
    ensures current.None? || current.value.name == "" ==> r == Unknown
  {
    if current.Some? && current.value.name != "" then current.value.name else Unknown
  }

  // ---------------------------------------------------------------------------
  // Setter semantics
  // ---------------------------------------------------------------------------

  /** The argument of a React state setter: a replacement value, or a function of the
      previous value. */
  datatype SetStateAction<!T> = Value(value: T) | Updater(update: T -> T)

  /** The value a setter call leaves in its state. */
  function Resolve<T>(action: SetStateAction<T>, prev: T): T {
    match action
    case Value(v) => v
    case Updater(f) => f(prev)
  }

  /** The state after a series of setter calls, applied one after the other (left fold). */
  function Replay<T>(actions: seq<SetStateAction<T>>, init: T): T
    decreases |actions|
  {
    if actions == [] then init else Replay(actions[1..], Resolve(actions[0], init))
  }

  /** Running two series of setter calls one after the other is running their
      concatenation. */
  lemma {:induction false} ReplayConcat<T>(a: seq<SetStateAction<T>>, b: seq<SetStateAction<T>>, init: T)
    ensures Replay(a + b, init) == Replay(b, Replay(a, init))
    decreases |a|
  {
    if a == [] {
      assert a + b == b;
    } else {
      assert (a + b)[1..] == a[1..] + b;
      ReplayConcat(a[1..], b, Resolve(a[0], init));
    }
  }

  /** No update is dropped: a functional update issued last is applied to the state all
      earlier updates produced. */
  lemma ReplayUpdaterLast<T>(a: seq<SetStateAction<T>>, f: T -> T, init: T)
    ensures Replay(a + [Updater(f)], init) == f(Replay(a, init))
  {
    ReplayConcat(a, [Updater(f)], init);
  }

  /** A replacement value discards whatever came before it. */
  lemma ReplayValueResets<T>(a: seq<SetStateAction<T>>, v: T, b: seq<SetStateAction<T>>, init: T)
    ensures Replay(a + [Value(v)] + b, init) == Replay(b, v)
  {
    ReplayConcat(a + [Value(v)], b, init);
    ReplayConcat(a, [Value(v)], init);
  }

  /** Only functional updates: the result is the composition of the functions, in order. */
  function ComposeAll<T>(fs: seq<T -> T>, init: T): T
    decreases |fs|
  {
    if fs == [] then init else ComposeAll(fs[1..], fs[0](init))
  }

  lemma {:induction false} ReplayUpdaters<T>(fs: seq<T -> T>, init: T)
    ensures Replay(seq(|fs|, i requires 0 <= i < |fs| => Updater(fs[i])), init) == ComposeAll(fs, init)
    decreases |fs|
  {
    var actions := seq(|fs|, i requires 0 <= i < |fs| => Updater(fs[i]));
    if fs != [] {
      assert actions[1..] == seq(|fs[1..]|, i requires 0 <= i < |fs[1..]| => Updater(fs[1..][i]));
      ReplayUpdaters(fs[1..], fs[0](init));
    }
  }

  // ---------------------------------------------------------------------------
  // The context guard
  // ---------------------------------------------------------------------------

  const ContextError: string := "useAppContext must be used within an AppProvider"

  /** `useAppContext`: the provided value, or the error thrown when no provider encloses the
      caller. */
  function UseAppContext<C>(provided: Option<C>): (r: Result<C>)
    ensures r.Ok? <==> provided.Some?
    ensures r.Ok? ==> r.value == provided.value
    ensures r.Err? ==> r.message == ContextError
  {
    match provided
    case Some(c) => Ok(c)
    case None => Err(ContextError)
  }

  // ---------------------------------------------------------------------------
  // Fixtures
  // ---------------------------------------------------------------------------

  const MockTasks: seq<Task> := [
    Task("task-1", "Design new landing page", Todo, High, "Jane Smith", Day(20231215),
         "Create a modern landing page design for the new product launch",
         Some(0), None, Some(["design", "marketing"])),
    Task("task-2", "Implement authentication", InProgress, Medium, "John Doe", Day(20231210),
         "Set up user authentication with NextAuth.js",
         Some(120), None, Some(["development", "security"])),
    Task("task-3", "Write API documentation", Done, Low, "Bob Johnson", Day(20231205),
         "Document all API endpoints for the developer portal",
         Some(180), None, Some(["documentation", "api"]))
  ]

  const MockProjects: seq<Project> := [
    Project("proj-1", "Website Redesign", Day(20231101), Day(20231231),
            "Complete overhaul of the company website", 65,
            [Milestone("ms-1", "Design Approval", Day(20231115), true),
             Milestone("ms-2", "Development Complete", Day(20231215), false)]),
    Project("proj-2", "Mobile App Launch", Day(20231201), Day(20240228),
            "Develop and launch the new mobile application", 30,
            [Milestone("ms-3", "Alpha Release", Day(20231231), false)])
  ]

  const MockTeamMembers: seq<TeamMember> := [
    TeamMember(1, "John Doe", "john@example.com", "Project Manager",
               Some(["create_project", "assign_tasks", "view_reports"]), None, Some(150)),
    TeamMember(2, "Jane Smith", "jane@example.com", "Designer",
               Some(["create_tasks", "upload_files"]), None, Some(120)),
    TeamMember(3, "Bob Johnson", "bob@example.com", "Developer",
               Some(["create_tasks", "commit_code"]), None, Some(180)),
    TeamMember(4, "Alice Williams", "alice@example.com", "Marketing",
               Some(["comment", "upload_files"]), None, Some(90))
  ]

  const MockMessages: seq<Message> := [
    Message(1, "John Doe", "When will the design be ready?", "10:30 AM", Some(ChatName("general")), None),
    Message(2, "Jane Smith", "I'll have it ready by tomorrow", "10:35 AM", Some(ChatName("general")), None),
    Message(3, "Bob Johnson", "Has anyone started on the API integration?", "11:15 AM",
            Some(ChatName("project-alpha")), None)
  ]

  /** The state the provider mounts with: the fixtures, three empty collections, the
      first mock member as the current user, and no failed render. */
  const InitialState: AppState :=
    AppState(MockTasks, MockProjects, MockMessages, MockTeamMembers, [], [], [], Some(MockTeamMembers[0]), false, None)

  function TaskIds(tasks: seq<Task>): seq<string> {
    seq(|tasks|, i requires 0 <= i < |tasks| => tasks[i].id)
  }

  function ProjectIds(projects: seq<Project>): seq<string> {
    seq(|projects|, i requires 0 <= i < |projects| => projects[i].id)
  }

  function MemberIds(members: seq<TeamMember>): seq<int> {
    seq(|members|, i requires 0 <= i < |members| => members[i].id)
  }

  function MessageIds(messages: seq<Message>): seq<int> {
    seq(|messages|, i requires 0 <= i < |messages| => messages[i].id)
  }

  predicate DistinctValues<T(==)>(s: seq<T>) {
    forall i, j :: 0 <= i < j < |s| ==> s[i] != s[j]
  }

  /** The fixtures are well formed: ids are unique within each collection, every project
      starts no later than it ends and has its progress in 0..100, and the current user is
      member 1. */
  lemma FixturesWellFormed()
    ensures DistinctValues(TaskIds(MockTasks)) && DistinctValues(ProjectIds(MockProjects))
    ensures DistinctValues(MemberIds(MockTeamMembers)) && DistinctValues(MessageIds(MockMessages))
    ensures forall p :: p in MockProjects ==> p.start.Day? && p.end.Day? && p.start.key <= p.end.key
    ensures forall p :: p in MockProjects ==> 0 <= p.progress <= 100
    ensures InitialState.currentUser.Some? && InitialState.currentUser.value.id == 1
    ensures InitialState.notifications == [] && InitialState.files == [] && InitialState.reminders == []
  {
  }

  // ---------------------------------------------------------------------------
  // The store object
  // ---------------------------------------------------------------------------

  /** What the provider renders: a spinner while loading, its children otherwise. */
  /** What the provider shows: the loading spinner, its children, or (once one of its
      renders has thrown, with no error boundary mounted above it) the framework's error
      screen in place of the whole client tree. */
  datatype View = Spinner | Children | ErrorScreen(message: string)

  class AppStore {
    var tasks: seq<Task>
    var projects: seq<Project>
    var messages: seq<Message>
    var teamMembers: seq<TeamMember>
    var notifications: seq<Notification>
    var files: seq<FileRecord>
    var reminders: seq<Reminder>
    var currentUser: Option<TeamMember>
    var loading: bool
    /** The error a render of the provider threw, if one has. */
    var failure: Option<string>

    function State(): AppState
      reads this
    {
      AppState(tasks, projects, messages, teamMembers, notifications, files, reminders, currentUser, loading, failure)
    }

    /** What the provider renders in the current state. */
    function Render(): (v: View)
      reads this
      ensures v == Children <==> !loading && failure.None?
      ensures v.ErrorScreen? <==> failure.Some?
      ensures v.ErrorScreen? ==> v.message == failure.value
    {
      if failure.Some? then ErrorScreen(failure.value) else if loading then Spinner else Children
    }

    /** Mounting the provider: the fixtures, and not loading (the mock variant never fetches,
        so nothing ever sets `loading`). */
    constructor ()
      ensures State() == InitialState
      ensures !loading && Render() == Children
    {
      tasks := MockTasks;
      projects := MockProjects;
      messages := MockMessages;
      teamMembers := MockTeamMembers;
      notifications := [];
      files := [];
      reminders := [];
      currentUser := Some(MockTeamMembers[0]);
      loading := false;
      failure := None;
    }

    /** `setTasksAndSave`: resolves the action against the previous tasks and stores the
        result; no other collection changes, and nothing is persisted. */
    method SetTasks(action: SetStateAction<seq<Task>>)
      modifies this
      ensures State() == old(State()).(tasks := Resolve(action, old(tasks)))
    {
      tasks := Resolve(action, tasks);
    }

    method SetProjects(action: SetStateAction<seq<Project>>)
      modifies this
      ensures State() == old(State()).(projects := Resolve(action, old(projects)))
    {
      projects := Resolve(action, projects);
    }

    method SetMessages(action: SetStateAction<seq<Message>>)
      modifies this
      ensures State() == old(State()).(messages := Resolve(action, old(messages)))
    {
      messages := Resolve(action, messages);
    }

    method SetTeamMembers(action: SetStateAction<seq<TeamMember>>)
      modifies this
      ensures State() == old(State()).(teamMembers := Resolve(action, old(teamMembers)))
    {
      teamMembers := Resolve(action, teamMembers);
    }

    method SetNotifications(action: SetStateAction<seq<Notification>>)
      modifies this
      ensures State() == old(State()).(notifications := Resolve(action, old(notifications)))
    {
      notifications := Resolve(action, notifications);
    }

    method SetFiles(action: SetStateAction<seq<FileRecord>>)
      modifies this
      ensures State() == old(State()).(files := Resolve(action, old(files)))
    {
      files := Resolve(action, files);
    }

    method SetReminders(action: SetStateAction<seq<Reminder>>)
      modifies this
      ensures State() == old(State()).(reminders := Resolve(action, old(reminders)))
    {
      reminders := Resolve(action, reminders);
    }

    method SetCurrentUser(action: SetStateAction<Option<TeamMember>>)
      modifies this
      ensures State() == old(State()).(currentUser := Resolve(action, old(currentUser)))
    {
      currentUser := Resolve(action, currentUser);
    }

    /** A setter called with an updater that throws: React's eager attempt at the updater
        swallows the error, so the caller carries on to its end; the updater then throws
        again while the provider renders, and with no error boundary mounted the client
        tree is replaced by the error screen. The model keeps the collections as they were;
        in the browser they are lost with the unmounted tree. */
    method QueueThrowingUpdate(message: string)
      modifies this
      ensures State() == old(State()).(failure := Some(message))
      ensures Render() == ErrorScreen(message)
    {
      failure := Some(message);
    }
  }

  /** A run of task-setter calls within one session: the tasks end up as the left fold of
      the actions over the tasks before, and every other collection is untouched. */
  method ApplyTaskActions(store: AppStore, actions: seq<SetStateAction<seq<Task>>>)
    modifies store
    ensures store.State() == old(store.State()).(tasks := Replay(actions, old(store.tasks)))
    ensures store.loading == old(store.loading)
  {
    var i := 0;
    while i < |actions|
      invariant 0 <= i <= |actions|
      invariant store.State() == old(store.State()).(tasks := Replay(actions[..i], old(store.tasks)))
      invariant store.loading == old(store.loading)
    {
      ReplayConcat(actions[..i], [actions[i]], old(store.tasks));
      assert actions[..i + 1] == actions[..i] + [actions[i]];
      store.SetTasks(actions[i]);
      i := i + 1;
    }
    assert actions[..i] == actions;
  }
}
