# TeamCollab core, modelled in Dafny

TeamCollab is a Next.js collaboration dashboard. A client-side store (`AppProvider`) holds
the tasks, projects, messages, team members, notifications, shared files, reminders and the
signed-in member. Pages and widgets read these collections and change them through React
state setters. Three server pieces sit beside it:
- the request middleware that decides between passing a request on and redirecting it;
- the registration endpoint;
- the AI content endpoint, with its canned answers when no model key is configured.
A small mock ledger stores strings under keys.

This project models that core in Dafny:
- `store.dfy`: the entity records, the setter semantics (a value or a function of the
  previous value), the provider class with one field per collection, and the fixtures.
- One module per page or widget (`tasks_page.dfy`, `team_page.dfy`, `projects_page.dfy`,
  `messages_page.dfy`, `files_page.dfy`, `calendar_page.dfy`, `analytics.dfy`,
  `role_based_access.dfy`, `advanced_search.dfy`, `time_tracking.dfy`, `reminders.dfy`,
  `workflows.dfy`, `gamification.dfy`, `discussion_threads.dfy`, `file_sharing.dfy`,
  `right_sidebar.dfy`). A widget's local state is a class whose methods change the shared
  store through its setters. Each method is specified by a pure function of the old state,
  and lemmas prove what those functions promise.
- `middleware.dfy`, `register_route.dfy`, `ai_route.dfy`: the server decisions, as pure
  functions.
- `blockchain.dfy`: the ledger, as a class over a map.
- `util.dfy` and `sorting.dfy`: the JavaScript behaviour the handlers rely on. These are
  `filter`, `splice`, `trim`, `toLowerCase` on ASCII, `includes`, `padStart`, number
  printing, `Number.parseInt`, `Array.from(new Set(...))` and a stable sort.

Clock readings (`Date.now()`, `new Date()`), object URLs, `prompt()` answers and the
outcome of network calls are parameters of the operations that use them.
Dates are day keys: a date input's value `YYYY-MM-DD` is the key `YYYYMMDD`. The empty
input is `NoDate`, which stands for JavaScript's invalid date. The reminder form's
`datetime-local` value is kept as its day key too (see "## Left out").

## Model

| member | source | states |
|---|---|---|
| Store.ReplayConcat | components/app-provider.tsx:236-243 | Setter calls compose: replaying two batches is replaying the second from the state the first left |
| Store.ReplayUpdaterLast | components/app-provider.tsx:264-272 | A functional update is applied to the state all earlier updates produced, so none is lost |
| Store.ReplayValueResets | components/app-provider.tsx:236-243 | A plain value replaces the state: updates issued before it have no effect on the result |
| Store.ReplayUpdaters | components/app-provider.tsx:264-272 | A run of functional updates yields the composition of the functions, in order |
| Store.UseAppContext | components/app-provider.tsx:90-96 | Succeeds exactly when a provider value is present and returns it; otherwise fails with the "must be used within an AppProvider" error |
| Store.FixturesWellFormed | components/app-provider.tsx:99-243 | Fixture ids are distinct per collection, project dates are ordered and progress is 0..100, the current user starts as member 1, and the notifications, files and reminders start empty |
| Store.AppStore.Render | components/app-provider.tsx:274-305 | The provider renders its children exactly when it is not loading and no render has thrown; once one has, the error screen with that error replaces everything |
| Store.AppStore.constructor | components/app-provider.tsx:236-244 | The initial state is the fixtures and the provider is not loading |
| Store.AppStore.SetTasks | components/app-provider.tsx:264-272 | Only the task list changes, to the resolved value or function of the previous list |
| Store.AppStore.SetProjects | components/app-provider.tsx:237 | Only the project list changes, resolved against the previous list |
| Store.AppStore.SetMessages | components/app-provider.tsx:238 | Only the message list changes, resolved against the previous list |
| Store.AppStore.SetTeamMembers | components/app-provider.tsx:239 | Only the member list changes, resolved against the previous list |
| Store.AppStore.SetNotifications | components/app-provider.tsx:240 | Only the notification list changes, resolved against the previous list |
| Store.AppStore.SetFiles | components/app-provider.tsx:241 | Only the file list changes, resolved against the previous list |
| Store.AppStore.SetReminders | components/app-provider.tsx:242 | Only the reminder list changes, resolved against the previous list |
| Store.AppStore.SetCurrentUser | components/app-provider.tsx:243 | Only the current user changes, resolved against the previous one |
| Store.AppStore.QueueThrowingUpdate | components/app-provider.tsx:239 | A setter handed an updater that throws: the collections are not updated, the failure is recorded and the provider shows the error screen, as no error boundary is mounted |
| Store.ApplyTaskActions | components/app-provider.tsx:264-272 | A sequence of task setter calls leaves the task list at the replay of those calls and nothing else changed |
| TasksPage.Column | app/tasks/page.tsx:150-156 | A column shows exactly the tasks of its status, each as often as in the list, in list order |
| TasksPage.ColumnsPartition | app/tasks/page.tsx:75 | The three columns together hold every task exactly once |
| TasksPage.MoveTask | app/tasks/page.tsx:30-35 | The dropped task, with the destination status, lands at the destination index (clamped to the end) and the other tasks keep their relative order |
| TasksPage.MoveTaskKeepsIds | app/tasks/page.tsx:30-35 | A drop neither loses, duplicates nor invents a task id |
| TasksPage.DragUsesListPosition | app/tasks/page.tsx:31 | The per-column drag index is used on the whole list, so dragging the first In Progress card can move a To Do task |
| Util.StampedId | app/tasks/page.tsx:46 | A new id is the prefix followed by digits that read back as the clock reading (also the reminder ids of components/customizable-reminders.tsx:23, prefix "rem-") |
| Util.StampedIdInjective | app/tasks/page.tsx:46 | Ids stamped at different instants differ, for every prefix (tasks, projects, files and reminders) |
| TasksPage.WithTaskAdded | app/tasks/page.tsx:44-47 | A blank (whitespace-only) title adds nothing; otherwise the draft, under the new id, is appended after every existing task |
| TasksPage.WithoutTask | app/tasks/page.tsx:62-63 | Exactly the tasks with another id remain, in order |
| TasksPage.WithoutAbsentTask | app/tasks/page.tsx:62-63 | Deleting an id no task has changes nothing |
| TasksPage.WithStatus | app/tasks/page.tsx:71-73 | Same tasks at the same places; only the status of the tasks with that id changes |
| TasksPage.WithStatusIdempotent | app/tasks/page.tsx:71-73 | Setting a status twice is setting it once, and the task then shows in that column |
| TasksPage.TasksPage.constructor | app/tasks/page.tsx:15-23 | The form starts empty with medium priority and To Do, the view starts as kanban |
| TasksPage.TasksPage.EditDraft | app/tasks/page.tsx:15 | Only the draft changes |
| TasksPage.TasksPage.SetViewMode | app/tasks/page.tsx:23 | Only the view mode changes |
| TasksPage.TasksPage.OnDragEnd | app/tasks/page.tsx:26-37 | A drop outside every column changes nothing; otherwise only the task list changes, as MoveTask describes |
| TasksPage.TasksPage.AddTask | app/tasks/page.tsx:44-55 | The task list becomes WithTaskAdded, and the form is cleared exactly when a task was added |
| TasksPage.TasksPage.DeleteTask | app/tasks/page.tsx:62-63 | The task list becomes WithoutTask and nothing else changes |
| TasksPage.TasksPage.UpdateTaskStatus | app/tasks/page.tsx:71-73 | The task list becomes WithStatus and nothing else changes |
| TeamPage.WithMemberAdded | app/team/page.tsx:23-25 | An incomplete form adds nothing; otherwise the form's fields are appended under the id "member count + 1" |
| TeamPage.AddKeepsIdsSequential | app/team/page.tsx:25 | While members are numbered 1, 2, ... in order, adding keeps that numbering and the new id is fresh |
| TeamPage.FindMember | app/team/page.tsx:35 | Finds a member with the id exactly when one exists, and that member is in the list |
| TeamPage.FirstWithId | app/team/page.tsx:35 | The position `find` stops at: every earlier member has another id, and the member there has this one |
| TeamPage.WithoutMember | app/team/page.tsx:36 | Exactly the members with another id remain, in order |
| TeamPage.RemoveThenAddRepeatsId | app/team/page.tsx:25-36 | Ids by count are not unique: after member 1 leaves a team of two, the next member added gets id 2 again |
| TeamPage.RoleDistribution | app/team/page.tsx:44-49 | One entry per role in order of first appearance, each counting the members with that role (at least one), the counts summing to the team size |
| TeamPage.AssignedProjectCountIsZero | app/team/page.tsx:174 | The assignments card shows 0 for every member |
| TeamPage.TeamPage.constructor | app/team/page.tsx:20 | The form starts empty |
| TeamPage.TeamPage.EditDraft | app/team/page.tsx:20 | Only the form changes |
| TeamPage.TeamPage.AddMember | app/team/page.tsx:23-32 | The members become WithMemberAdded, and the form is cleared exactly when it was complete |
| TeamPage.TeamPage.RemoveMember | app/team/page.tsx:34-42 | The members become WithoutMember; the removed name is there exactly when a member had the id, and otherwise reading it fails |
| ProjectsPage.WithProjectAdded | app/projects/page.tsx:33-46 | An incomplete form (no name, start or end) adds nothing; otherwise the form, under the new id and with no milestones, is appended after every existing project |
| ProjectsPage.AddedProjectMayEndBeforeStart | app/projects/page.tsx:34 | The form does not compare its dates: a project ending before it starts is added |
| ProjectsPage.WithoutProject | app/projects/page.tsx:55-57 | Exactly the projects with another id remain, in order |
| ProjectsPage.EditWhere | app/projects/page.tsx:65-71 | The `map` shared by both edits: same length, projects with another id kept as they were, those with the id edited |
| ProjectsPage.WithProgress | app/projects/page.tsx:65-67 | Same ids at the same places; projects with another id are unchanged, and those with the id get the entered progress with every other field kept |
| ProjectsPage.WithDescription | app/projects/page.tsx:69-71 | Same ids at the same places; projects with another id are unchanged, and those with the id get the new description with every other field kept |
| ProjectsPage.EditsCommute | app/projects/page.tsx:65-71 | The last progress entered wins, and progress and description edits commute |
| Util.AppendUnlessBlank | app/projects/page.tsx:73-77 | A blank entry is not added; any other is appended as typed, untrimmed |
| ProjectsPage.ProjectsPage.constructor | app/projects/page.tsx:16-30 | The form starts empty with progress 0, no notes are pinned and the note input is empty |
| ProjectsPage.ProjectsPage.EditDraft | app/projects/page.tsx:16 | Only the form changes |
| ProjectsPage.ProjectsPage.EditNote | app/projects/page.tsx:30 | Only the note input changes |
| ProjectsPage.ProjectsPage.AddProject | app/projects/page.tsx:33-53 | The projects become WithProjectAdded, and the form is cleared exactly when a project was added |
| ProjectsPage.ProjectsPage.DeleteProject | app/projects/page.tsx:55-57 | The projects become WithoutProject and nothing else changes |
| ProjectsPage.ProjectsPage.UpdateProjectProgress | app/projects/page.tsx:65-67 | The projects become WithProgress and nothing else changes |
| ProjectsPage.ProjectsPage.UpdateProjectDescription | app/projects/page.tsx:69-71 | The projects become WithDescription and nothing else changes |
| ProjectsPage.ProjectsPage.AddPinnedNote | app/projects/page.tsx:73-78 | The notes become AppendUnlessBlank of the draft and the input is cleared exactly when a note was pinned |
| MessagesPage.BuildChats | app/messages/page.tsx:58-62 | The chat list is "General" and "Project Alpha" (group chats), then one direct chat per member, in member order |
| MessagesPage.SortChats | app/messages/page.tsx:101-106 | Sorting only reorders the chats |
| MessagesPage.ChatBeforeTotalPreorder | app/messages/page.tsx:102-106 | The comparator, read as "may stay in front", is total and transitive |
| MessagesPage.SortChatsOrdered | app/messages/page.tsx:101-106 | After sorting, every pinned chat precedes every unpinned one and names ascend within each group |
| MessagesPage.ActiveChatName | app/messages/page.tsx:149 | `find` on a chat list: no name exactly when no chat has the active id; otherwise the name of the first chat with that id |
| MessagesPage.HeaderName | app/messages/page.tsx:149 | The header searches the list after it was sorted in place: no name exactly when no built chat has the active id; otherwise the name of such a chat, and no other chat with that id has a name sorting before it |
| MessagesPage.FindInShownList | app/messages/page.tsx:101-106 | `find` on the sorted list finds a chat iff the built list has one with the id, and the found name sorts first among those chats |
| MessagesPage.ChatBadge | app/messages/page.tsx:125 | The badge is the number of positions holding a message of that chat not sent by "You" |
| Util.CountIndices | app/messages/page.tsx:125 | `filter(p).length` is the number of positions whose element satisfies p |
| MessagesPage.VisibleMessages | app/messages/page.tsx:51-56 | Exactly the messages of the active chat whose content or sender contains the term, ignoring letter case, in order |
| MessagesPage.EmptySearchShowsChat | app/messages/page.tsx:51-56 | With an empty search every message of the active chat is shown, in order |
| MessagesPage.StarredMessages | app/messages/page.tsx:134-135 | Exactly the messages whose id is starred, in order |
| MessagesPage.WithMessageSent | app/messages/page.tsx:22-31 | A blank draft sends nothing; otherwise a message from "You" into the active chat with id "count + 1" is appended |
| MessagesPage.SendKeepsIdsSequential | app/messages/page.tsx:25-31 | While message ids are 1..n in order, after a send they are 1..n+1 |
| MessagesPage.SentMessageVisible | app/messages/page.tsx:22-56 | A message just sent shows in the active chat exactly when it matches the search |
| MessagesPage.MessagesPage.constructor | app/messages/page.tsx:16-20 | Empty draft and search, "general" active, nothing starred, "general" pinned |
| MessagesPage.MessagesPage.EditMessage | app/messages/page.tsx:16 | Only the draft changes |
| MessagesPage.MessagesPage.SetSearchTerm | app/messages/page.tsx:92 | Only the search term changes |
| MessagesPage.MessagesPage.SetActiveChat | app/messages/page.tsx:113 | Only the active chat changes |
| MessagesPage.MessagesPage.SendMessage | app/messages/page.tsx:22-33 | The messages become WithMessageSent, and the draft is cleared exactly when a message was sent |
| MessagesPage.MessagesPage.ToggleStar | app/messages/page.tsx:35-41 | The id's membership flips, the list stays free of duplicates and nothing else changes |
| MessagesPage.MessagesPage.TogglePin | app/messages/page.tsx:43-49 | The chat's membership flips, the list stays free of duplicates and nothing else changes |
| Util.Toggle | app/messages/page.tsx:35-41 | The toggled value is present exactly when it was absent, every other value keeps its count, and no duplicate is created |
| Util.ToggleTwice | app/messages/page.tsx:35-49 | Toggling twice restores the set of values, and the exact list when the value was absent |
| FilesPage.RemoveAt | app/files/page.tsx:37-38 | `splice(index, 1)` on a copy: the entry at an in-range position goes and the rest close up; a position past the end removes nothing; a negative one counts back from the end; one before the start removes the first entry |
| FilesPage.RemoveLastAppended | app/files/page.tsx:18-38 | Deleting the entry just appended gives back the list before the append |
| FilesPage.RemoveAtShrinks | app/files/page.tsx:37-38 | Deleting never grows the list; at an in-range position exactly that one entry goes |
| FilesPage.FilesPage.constructor | app/files/page.tsx:11-13 | No files, no folders, empty name input |
| FilesPage.FilesPage.EditFolderName | app/files/page.tsx:13 | Only the name input changes |
| FilesPage.FilesPage.HandleFileUpload | app/files/page.tsx:16-18 | Every chosen file is appended in the order chosen, and nothing else changes |
| FilesPage.FilesPage.CreateFolder | app/files/page.tsx:25-34 | The folders become AppendUnlessBlank of the draft, and the input is cleared exactly when a folder was created |
| FilesPage.FilesPage.DeleteFile | app/files/page.tsx:36-39 | The files become RemoveAt of the position, and nothing else changes |
| FilesPage.FilesPage.DeleteFolder | app/files/page.tsx:47-50 | The folders become RemoveAt of the position, and nothing else changes |
| CalendarPage.EventsForDate | app/calendar/page.tsx:31-33 | Exactly the events on the day, in order |
| CalendarPage.TasksForDate | app/calendar/page.tsx:35-37 | Exactly the tasks due on the day, in order; a task without a due date is never listed |
| CalendarPage.ProjectsForDate | app/calendar/page.tsx:39-44 | Exactly the projects that start or end on the day, in order |
| CalendarPage.ProjectLabel | app/calendar/page.tsx:82 | A listed project is tagged "(Start)" or "(End)" |
| CalendarPage.ProjectLabelsTruthful | app/calendar/page.tsx:79-82 | "(Start)" exactly when the project starts that day; "(End)" only when it ends that day and does not start it |
| CalendarPage.AddedEventShownOnItsDay | app/calendar/page.tsx:20-33 | An added event shows, last, on its own day and changes no other day's list |
| CalendarPage.WithEvent | app/calendar/page.tsx:20-22 | A blank title adds nothing; otherwise the draft is appended |
| CalendarPage.CalendarPage.constructor | app/calendar/page.tsx:15-17 | Today is selected, the draft is empty and dated today, and there are no events |
| CalendarPage.CalendarPage.SelectDate | app/calendar/page.tsx:55 | Only the selected day changes (deselecting is allowed) |
| CalendarPage.CalendarPage.EditEvent | app/calendar/page.tsx:100-110 | Only the draft's title and description change |
| CalendarPage.CalendarPage.PickEventDate | app/calendar/page.tsx:111-115 | Only the draft's day changes; deselecting falls back to today |
| CalendarPage.CalendarPage.AddEvent | app/calendar/page.tsx:20-29 | The events become WithEvent, and the draft is reset to today exactly when an event was added |
| CalendarPage.CalendarPage.Agenda | app/calendar/page.tsx:60-87 | The three lists are shown exactly when a day is selected, and they are that day's events, tasks due and projects starting or ending (EventsForDate, TasksForDate, ProjectsForDate) |
| Analytics.TaskCompletionData | app/analytics/page.tsx:49-53 | Three slices, "Completed", "Ongoing" and "To Do", counting the done, in-progress and to-do tasks and summing to the number of tasks |
| Analytics.ChartTotalStableUnderMove | app/analytics/page.tsx:49-53 | A drag on the task board leaves the chart's total unchanged |
| RoleBasedAccess.SelectingFromListTargetsThatId | components/role-based-access.tsx:22-74 | A member id chosen from the list, printed and parsed back, selects exactly the members with that id |
| Util.ParseInt | components/role-based-access.tsx:22 | `Number.parseInt`: a number exactly when a digit follows the leading whitespace and an optional sign; negative only after a minus; its magnitude is the value of the longest digit run |
| Util.ParseIntToString | components/role-based-access.tsx:22 | `Number.parseInt` of an integer's decimal text gives back that integer |
| RoleBasedAccess.WithPermissionAdded | components/role-based-access.tsx:20-26 | Throws exactly when a selected member has no permission list; otherwise every selected member gets the permission appended and every other member is unchanged |
| RoleBasedAccess.WithPermissionRemoved | components/role-based-access.tsx:37-43 | Throws exactly when a selected member has no permission list; otherwise every selected member loses every copy of the permission and every other member is unchanged |
| RoleBasedAccess.GrantThenRevoke | components/role-based-access.tsx:20-43 | Revoking a permission just granted to members that lacked it restores the members |
| RoleBasedAccess.GrantTwiceDuplicates | components/role-based-access.tsx:23 | Granting a permission a member already has lists it twice |
| RoleBasedAccess.ShownPermissions | components/role-based-access.tsx:105-117 | No matching member shows nothing; otherwise the first matching member's permissions are shown, or rendering throws when it has no list |
| RoleBasedAccess.ShownFor | components/role-based-access.tsx:109-110 | The list of the first member whose id equals the parsed selection, or an empty list when none has it |
| RoleBasedAccess.RoleBasedAccess.constructor | components/role-based-access.tsx:13-14 | Nothing selected |
| RoleBasedAccess.RoleBasedAccess.SelectMember | components/role-based-access.tsx:68 | Only the member selection changes |
| RoleBasedAccess.RoleBasedAccess.SelectPermission | components/role-based-access.tsx:81 | Only the permission selection changes |
| RoleBasedAccess.RoleBasedAccess.HandleAddPermission | components/role-based-access.tsx:17-26 | Without both selections nothing happens; otherwise the members become WithPermissionAdded; or a selected member has no permission list, the handler still completes (with its toast), the queued updater throws on the provider's next render and the page is left on the error screen |
| RoleBasedAccess.RoleBasedAccess.HandleRemovePermission | components/role-based-access.tsx:34-43 | Without both selections nothing happens; otherwise the members become WithPermissionRemoved; or a selected member has no permission list, the handler still completes (with its toast), the queued updater throws on the provider's next render and the page is left on the error screen |
| AdvancedSearch.AllTagOccurrences | components/advanced-search.tsx:17 | Exactly the tags some task carries, a missing list counting as none |
| AdvancedSearch.AllTags | components/advanced-search.tsx:17 | Every tag some task carries, each listed once |
| AdvancedSearch.FilteredTasks | components/advanced-search.tsx:35-40 | Exactly the tasks whose title or description contains the term, ignoring letter case, and that carry every selected tag, in order |
| AdvancedSearch.EmptySearchKeepsAll | components/advanced-search.tsx:35-40 | An empty term with no tags selected keeps every task, in order |
| AdvancedSearch.MoreTagsNarrow | components/advanced-search.tsx:39 | A larger tag selection yields a subsequence of the smaller selection's results |
| AdvancedSearch.SelectingTagRequiresIt | components/advanced-search.tsx:19-39 | After ticking a tag, every result carries it and no result is added |
| AdvancedSearch.AdvancedSearch.constructor | components/advanced-search.tsx:13-15 | Empty term, no tags selected, no saved searches |
| AdvancedSearch.AdvancedSearch.SetSearchTerm | components/advanced-search.tsx:54 | Only the term changes |
| AdvancedSearch.AdvancedSearch.HandleTagToggle | components/advanced-search.tsx:19-21 | The tag's membership in the selection flips, the selection stays free of duplicates, so its length changes by exactly one, and nothing else changes |
| AdvancedSearch.AdvancedSearch.HandleSaveSearch | components/advanced-search.tsx:23-28 | A cancelled or empty name saves nothing; otherwise the name with the current term and tags is appended |
| AdvancedSearch.AdvancedSearch.HandleApplySavedSearch | components/advanced-search.tsx:30-33 | Applying one of the saved searches makes the term and tags exactly the saved ones, keeps the saved list and keeps every tag list free of duplicates |
| AdvancedSearch.AdvancedSearch.Results | components/advanced-search.tsx:35-40 | The listed tasks are those matching the current term and selection |
| AdvancedSearch.SaveThenApply | components/advanced-search.tsx:23-33 | Saving a search and applying it after further edits restores the term and the tags it was saved with |
| TimeTracking.Pad2 | components/time-tracking.tsx:63 | A field is the number's digits, at least two characters, exactly two below 100 |
| TimeTracking.Pad2Value | components/time-tracking.tsx:63 | A field reads back as its number, padded or not |
| TimeTracking.Pad2IsPadStart | components/time-tracking.tsx:63 | A field is the number's text padded at the start with '0' to width 2 |
| TimeTracking.FormatTime | components/time-tracking.tsx:59-64 | The display is digits, ":", two digits, ":", two digits; it is eight characters exactly below 100 hours; the fields read back as s div 3600, (s mod 3600) div 60 and s mod 60 at every count |
| TimeTracking.Clock | components/time-tracking.tsx:63 | Three padded fields joined by colons, each reading back as the number it shows |
| TimeTracking.ClockFields | components/time-tracking.tsx:60-62 | Hours, minutes and seconds split the count exactly, with minutes and seconds under 60 and, below 360000 seconds, hours under 100 |
| TimeTracking.FormatTimeRoundTrip | components/time-tracking.tsx:59-64 | At every count the display reads back as the count of seconds it was made from, so distinct counts never share a display |
| TimeTracking.ReadBack | components/time-tracking.tsx:59-64 | The display's hours, minutes and seconds recombine to the count |
| TimeTracking.WithTimeAdded | components/time-tracking.tsx:46-50 | Every task with the chosen id has the reading added to its recorded time (a missing time counts as 0); every other task and field is unchanged |
| TimeTracking.StopAddsReading | components/time-tracking.tsx:46-50 | The total recorded time grows by the reading once per task carrying the id, and by nothing else |
| TimeTracking.TimeTracking.constructor | components/time-tracking.tsx:13-15 | No task chosen, not tracking, reading 0 |
| TimeTracking.TimeTracking.SelectTask | components/time-tracking.tsx:73 | Offered only while the watch is stopped; only the chosen task changes |
| TimeTracking.TimeTracking.HandleStartTracking | components/time-tracking.tsx:34-36 | Tracking starts only when a task is chosen; nothing else changes |
| TimeTracking.TimeTracking.Tick | components/time-tracking.tsx:18-24 | Each second adds one to the reading while tracking, and nothing otherwise |
| TimeTracking.TimeTracking.HandleStopTracking | components/time-tracking.tsx:43-52 | Tracking stops and the reading returns to 0; with a chosen task the tasks become WithTimeAdded of the reading, otherwise the store is unchanged |
| TimeTracking.TrackFor | components/time-tracking.tsx:18-52 | Starting, letting n seconds pass and stopping records exactly n more seconds on the chosen task |
| Reminders.OwnerId | components/customizable-reminders.tsx:25 | The owner is the signed-in member's id as text, and the empty string exactly when nobody is signed in |
| Reminders.VisibleReminders | components/customizable-reminders.tsx:87-88 | Exactly the reminders owned by the viewer's id as text, in order; nothing when nobody is signed in |
| Reminders.WithoutReminder | components/customizable-reminders.tsx:41-42 | Exactly the reminders with another id remain, in order |
| Reminders.RemoveThenList | components/customizable-reminders.tsx:41-88 | Removing a reminder changes each viewer's list by exactly that removal |
| Reminders.WithReminder | components/customizable-reminders.tsx:22-30 | The earlier reminders stay as they were and one reminder, with the new id, the chosen task, the owner, the message and the date, is appended |
| Reminders.AddedReminderListedForOwner | components/customizable-reminders.tsx:22-88 | A new reminder is listed for the member who set it, after that member's earlier ones; one set while nobody is signed in is listed for nobody |
| Reminders.Reminders.constructor | components/customizable-reminders.tsx:14-16 | No task chosen, empty message, empty date |
| Reminders.Reminders.EditForm | components/customizable-reminders.tsx:57-77 | Only the three form fields change |
| Reminders.Reminders.HandleAddReminder | components/customizable-reminders.tsx:19-33 | An incomplete form changes nothing; otherwise the reminders become WithReminder and the form is cleared |
| Reminders.Reminders.HandleRemoveReminder | components/customizable-reminders.tsx:41-42 | The reminders become WithoutReminder and nothing else changes |
| Workflows.NextInChain | components/automated-workflows.tsx:34-35 | The entry after the first occurrence of the id, none when the id is last or not selected |
| Workflows.NextIsFollowing | components/automated-workflows.tsx:34-35 | In a selection without repeats, each entry's successor is the next entry |
| Workflows.Chained | components/automated-workflows.tsx:33-41 | Only a task's dependencies may change: a selected task followed by a non-empty id gets that id appended (a missing list counting as empty); any other task is returned as it was |
| Workflows.WithWorkflow | components/automated-workflows.tsx:32-42 | Same tasks at the same places, each chained; unselected tasks are unchanged |
| Workflows.WorkflowChains | components/automated-workflows.tsx:32-42 | For consecutive entries a, b, every task with id a gets b as its last dependency after its earlier ones; the last entry's tasks are unchanged |
| Workflows.WorkflowsCanFormCycle | components/automated-workflows.tsx:28-42 | No cycle check is made: workflows a-then-b and b-then-a leave each task depending on the other |
| Workflows.AutomatedWorkflows.constructor | components/automated-workflows.tsx:14-15 | Empty name, nothing selected |
| Workflows.AutomatedWorkflows.SetWorkflowName | components/automated-workflows.tsx:65 | Only the name changes |
| Workflows.AutomatedWorkflows.HandleAddTaskToWorkflow | components/automated-workflows.tsx:18-22 | The id is appended unless already selected, so no id is ever selected twice |
| Workflows.AutomatedWorkflows.HandleRemoveTaskFromWorkflow | components/automated-workflows.tsx:24-26 | The id leaves the selection, the rest keep their order |
| Workflows.AutomatedWorkflows.HandleCreateWorkflow | components/automated-workflows.tsx:28-46 | Without a name or with fewer than two tasks nothing changes; otherwise the tasks become WithWorkflow and the form is cleared |
| Gamification.CompletedBy | components/gamification.tsx:15-20 | Counts the done tasks assigned to the member's name, never more than there are tasks |
| Gamification.CompletedByAppend | components/gamification.tsx:15-20 | A further task counts for a member exactly when it is done and assigned to them |
| Gamification.Score | components/gamification.tsx:18-21 | A score exists exactly when the member has base points (otherwise it is NaN), and is those points plus ten per completed task, never below the base |
| Gamification.CompletingTaskScoresTen | components/gamification.tsx:16-20 | Finishing a task assigned to a member raises that member's score by ten |
| Gamification.Entries | components/gamification.tsx:18-21 | One row per member, in member order, holding the name and score |
| Gamification.Leaderboard | components/gamification.tsx:23 | Sorting only reorders the rows |
| Gamification.AheadTotalPreorder | components/gamification.tsx:23 | When every member has base points, the comparator is total and transitive |
| Gamification.LeaderboardRanked | components/gamification.tsx:18-23 | When every member has base points, the board holds one row per member, with scores descending |
| Gamification.Level | components/gamification.tsx:26 | The level is the hundreds of points plus one, rounding down, also for negative scores |
| Gamification.LevelMonotone | components/gamification.tsx:26 | Levels start at 1 for non-negative scores and never drop as the score grows |
| DiscussionThreads.ThreadIds | components/discussion-threads.tsx:36 | The thread id of each message, in message order, none for channel messages |
| DiscussionThreads.Threads | components/discussion-threads.tsx:36 | Every thread id some message uses, channel messages' missing id included, each listed once |
| DiscussionThreads.ThreadMessages | components/discussion-threads.tsx:60-61 | Exactly the messages of the active thread, in order |
| Store.NameOrUnknown | components/discussion-threads.tsx:22 | The signed-in member's name when there is a non-empty one, otherwise "Unknown"; never empty |
| DiscussionThreads.WithPost | components/discussion-threads.tsx:17-28 | A blank text posts nothing; otherwise one message with id "count + 1", the author, the text and the active thread is appended |
| DiscussionThreads.PostShownInThread | components/discussion-threads.tsx:28-61 | A post lands at the end of its own thread's list and leaves every other thread's list as it was |
| DiscussionThreads.PostExtendsThreads | components/discussion-threads.tsx:28-36 | The thread list gains the post's thread, at its end, exactly when it was not listed yet |
| DiscussionThreads.DiscussionThreads.constructor | components/discussion-threads.tsx:13-14 | Empty draft, "thread-1" active |
| DiscussionThreads.DiscussionThreads.EditMessage | components/discussion-threads.tsx:13 | Only the draft changes |
| DiscussionThreads.DiscussionThreads.SetActiveThread | components/discussion-threads.tsx:51 | Only the active thread changes |
| DiscussionThreads.DiscussionThreads.HandleSendMessage | components/discussion-threads.tsx:17-29 | The messages become WithPost, and the draft is cleared exactly when a message was posted |
| FileSharing.NewRecord | components/file-sharing.tsx:25-31 | The record carries the new id, the chosen file's name, its object URL, the uploader and the upload instant |
| FileSharing.WithoutFile | components/file-sharing.tsx:41-42 | Exactly the files with another id remain, in order |
| FileSharing.DeleteUndoesUpload | components/file-sharing.tsx:33-42 | Deleting a file just uploaded under a fresh id gives back the list before the upload |
| FileSharing.FileSharing.constructor | components/file-sharing.tsx:13 | Not uploading |
| FileSharing.FileSharing.BeginUpload | components/file-sharing.tsx:16-20 | With no file chosen nothing happens; otherwise the uploading flag goes up; the signed-in user the handler sees is returned for the record |
| FileSharing.FileSharing.FinishUpload | components/file-sharing.tsx:25-34 | The record, naming the user captured when the upload began, is appended to the shared files and the flag goes down |
| FileSharing.FileSharing.HandleFileUpload | components/file-sharing.tsx:16-34 | With no file chosen nothing changes; otherwise exactly one record for it is appended and the flag ends down |
| FileSharing.FileSharing.HandleFileDelete | components/file-sharing.tsx:41-42 | The files become WithoutFile and nothing else changes |
| RightSidebar.UpcomingTasks | components/right-sidebar.tsx:15 | Exactly the tasks due strictly after now; a task without a due date is never upcoming |
| RightSidebar.SortedUpcoming | components/right-sidebar.tsx:15-16 | The upcoming tasks, each as often as before, only reordered |
| RightSidebar.SortedUpcomingOrdered | components/right-sidebar.tsx:16 | After sorting, due dates never decrease |
| RightSidebar.UpcomingDeadlines | components/right-sidebar.tsx:14-17 | The first five of the sorted upcoming tasks, or all of them when there are fewer |
| RightSidebar.UpcomingDeadlinesOrdered | components/right-sidebar.tsx:14-17 | Every deadline shown belongs to an upcoming task, in due-date order |
| RightSidebar.UpcomingDeadlinesNearest | components/right-sidebar.tsx:14-17 | An upcoming task left out means five are shown, none due later than it |
| RightSidebar.Activities | components/right-sidebar.tsx:19 | The tasks, then the messages, in their own orders |
| RightSidebar.RecentActivity | components/right-sidebar.tsx:19-21 | At most five entries, five whenever there are that many, all drawn from the tasks and messages |
| RightSidebar.RecentActivityAllTied | components/right-sidebar.tsx:19-21 | With the source's comparator, which finds every pair tied, the feed is the first five entries as listed: with five or more tasks, the first five tasks |
| Middleware.Decide | middleware.ts:9-34 | Development passes everything; a signed-out request for a path neither public nor static goes to the login page with the path as callback; a signed-in request for a public path other than the auth API goes home; everything else passes |
| Middleware.SignedOutReachesOnlyPublic | middleware.ts:9-27 | A signed-out visitor is redirected exactly when the path is neither public nor static |
| Middleware.AuthApiAlwaysPasses | middleware.ts:9-32 | The authentication endpoints always pass, signed in or not |
| Middleware.RedirectsSettle | middleware.ts:23-32 | The target of a redirect is itself let through, so redirects never loop |
| Middleware.PrefixNotSegment | middleware.ts:11-30 | The public test is a bare prefix test: "/login-help" sends a signed-in member home and "/api/authority" passes without a token |
| Middleware.ExtensionsEndLowerCase | middleware.ts:15 | Every static extension ends in a lower-case letter or a digit |
| Middleware.UpperCaseEndNotStatic | middleware.ts:15 | A path ending in an upper-case letter is never a static file |
| Middleware.StaticIsCaseSensitive | middleware.ts:15-27 | "/logo.png" is static, "/logo.PNG" is not and is sent to the login page when signed out |
| RegisterRoute.Validate | app/api/auth/register/route.ts:10-20 | The first failing check answers 400: missing fields, then a password under eight characters, then an email without "@" and "."; input passing all three is not answered here |
| RegisterRoute.Register | app/api/auth/register/route.ts:8-62 | An unreadable body gives 500; invalid input its 400; with no database a mock 201; a failing database 503; a known email 409; otherwise 201 with the email added, the only case that changes the database |
| RegisterRoute.RegisterKeepsEmailsShaped | app/api/auth/register/route.ts:18-54 | Every stored email passed the email check, and registration keeps it so |
| RegisterRoute.SecondRegistrationConflicts | app/api/auth/register/route.ts:38-41 | Registering an email a second time is refused with 409 and changes nothing |
| RegisterRoute.EightCharactersAndDotFirstAccepted | app/api/auth/register/route.ts:14-20 | Exactly eight characters is long enough, seven is not, and the email check ignores where the "." stands |
| RegisterRoute.MockStoresNothing | app/api/auth/register/route.ts:10-26 | With no database valid input gets the mock 201 and nothing is stored; invalid input is answered before the database is consulted |
| AiRoute.KindOf | app/api/ai/route.ts:16 | The requested kind, "text" when the field is absent |
| AiRoute.MockResponse | app/api/ai/route.ts:70-86 | One iff per answer: the image answer exactly for "image"; the task advice exactly for another kind whose prompt mentions "task" in any letter case; the summary exactly when it mentions "meeting" but not "task"; the weekly report exactly when it mentions neither |
| AiRoute.FailureReply | app/api/ai/route.ts:43-66 | 504 exactly for the timeout message, else 499 exactly for an abort, else 500, each with its own message |
| AiRoute.Handle | app/api/ai/route.ts:14-67 | An unreadable body gives 500; a missing or empty prompt 400; without an API key the canned answer with 200; otherwise the model's text with 200 or its error mapped by FailureReply |
| AiRoute.ImageIgnoresPrompt | app/api/ai/route.ts:71-73 | "image" ignores the prompt, and no other kind gets the image answer |
| AiRoute.NoKeyNoCall | app/api/ai/route.ts:25-28 | Without an API key the reply does not depend on the model call and, once the prompt is there, is a 200 |
| AiRoute.TaskBeforeMeeting | app/api/ai/route.ts:83-84 | "Meeting TASK" gets the task advice: the task test comes first and ignores letter case |
| AiRoute.MeetingIgnoresCase | app/api/ai/route.ts:84 | "MEETING" gets the meeting summary |
| AiRoute.TimeoutTestFirst | app/api/ai/route.ts:43-66 | Three examples: an abort carrying the timeout message is a 504, an abort with another message a 499, a plain error a 500 |
| Blockchain.Lookup | utils/blockchain.ts:9-11 | A read finds the stored string exactly when the key is present with a non-empty value, and null otherwise |
| Blockchain.AddThenGet | utils/blockchain.ts:5-11 | A key just written reads back as the data, or as null for the empty string |
| Blockchain.AddKeepsOthers | utils/blockchain.ts:5-11 | Writing a key leaves every other key reading as before |
| Blockchain.AddOverwrites | utils/blockchain.ts:5-7 | The later of two writes to a key wins |
| Blockchain.EmptyReadsAsNull | utils/blockchain.ts:5-11 | Storing the empty string under a new key reads the same as never storing |
| Blockchain.Ledger.constructor | utils/blockchain.ts:3 | The storage starts empty |
| Blockchain.Ledger.Add | utils/blockchain.ts:5-7 | The key now maps to the data, and every other entry is unchanged |
| Blockchain.Ledger.Get | utils/blockchain.ts:9-11 | Returns Lookup of the storage, changing nothing |
| Blockchain.AddThenRead | utils/blockchain.ts:5-11 | Through the ledger's own operations, a written key reads back its data and another key reads as before |
| Util.Filter | app/tasks/page.tsx:63 | `filter`: the kept elements are exactly those satisfying the test, each as often as before, in their original order |
| Util.Without | app/messages/page.tsx:37 | Filtering one value out removes every copy of it and keeps every other value's count and order |
| Util.Distinct | components/advanced-search.tsx:17 | `Array.from(new Set(...))`: the same values, each once |
| Util.Splice | app/tasks/page.tsx:31-32 | `splice`: the removed run starts at the clamped start, the items take its place, everything before and after is kept, and no element is lost or invented |
| Util.Trim | app/tasks/page.tsx:45 | `trim()`: the stretch of the text between a blank prefix and a blank suffix, starting and ending with a non-whitespace character |
| Util.TrimEmptyIffBlank | app/tasks/page.tsx:45 | `trim()` yields "" exactly when the text is all whitespace |
| Util.Lower | app/messages/page.tsx:54-55 | `toLowerCase` on ASCII: same length, each capital letter lowered, every other character kept, no capital left |
| Util.ContainsIff | app/messages/page.tsx:54-55 | `includes` holds exactly when the search text occurs at some position |
| Util.NatToString | components/time-tracking.tsx:63 | `toString` of a natural number: decimal digits, without a leading zero, one digit exactly below 10 |
| Util.NatToStringValue | components/time-tracking.tsx:63 | The printed digits read back as the number |
| Util.PadStart | components/time-tracking.tsx:63 | `padStart`: the text, ending the result, is preceded by fill characters up to the width |
| Util.Take | components/right-sidebar.tsx:17 | `slice(0, n)`: the first n elements, or all of them when there are fewer |
| Sorting.SortBy | app/messages/page.tsx:102 | `sort` with a comparator: only reorders |
| Sorting.InsertStable | app/messages/page.tsx:102 | Inserting an element places it after every element already placed that is tied with it |
| Sorting.SortByStable | app/messages/page.tsx:102 | Stable: with a comparator consistent on the input, the elements tied with any one of them keep their input order |
| Sorting.SortByAllTied | components/right-sidebar.tsx:20 | A comparator that ties every pair leaves the array as it was |
| Sorting.SortBySorted | app/messages/page.tsx:102 | With a comparator that is a total preorder on the elements, the result is ordered by it |
| Sorting.LexLeqTotalPreorder | app/messages/page.tsx:105 | String comparison with `<` is a total preorder |

## Left out

- Rendering, styling, charts, icons, toasts and `console` output. Only the values the pages compute and the state they change are modelled.
- `useSession`, the session effect in `components/app-provider.tsx` and `saveTasks`. The effect does nothing and `saveTasks` is never called. `loading` is never set to true. `Store.AppStore.Render` is stated for both values, but no operation sets it.
- Store.AppStore.QueueThrowingUpdate: after a render throws, React unmounts the whole client tree and the in-memory store is lost. The model keeps the collections as they were and records the failure; it does not model what the store holds after the page has failed, and no operation is meant to run after it. RoleBasedAccess.RoleBasedAccess.HandleAddPermission and HandleRemovePermission end in this state (`Crashed`) when a selected member has no permission list.
- Store.AppStore.SetNotifications: notifications are untyped in the source and no modelled operation looks inside them. The model stores them as opaque strings.
- The simulated incoming message every 30 seconds on the messages page. It picks its sender and content at random.
- Scheduling of the stopwatch's `setInterval`. TimeTracking.TimeTracking.Tick is one firing of the interval, and the caller decides when it fires.
- The 2-second upload delay in the file-sharing widget. FileSharing.FileSharing.BeginUpload and FinishUpload are its two halves. No other event is modelled in between; HandleFileUpload is the run without interleaving.
- Clock readings, `URL.createObjectURL` and the answer to `prompt()`. These are parameters: `now`, `today`, `timestamp`, `url` and `answer`.
- Date parsing, time zones and locale formatting. A date is a day key or `NoDate`, for the empty input. Comparisons such as the right sidebar's `new Date(dueDate) > new Date()` compare keys, with `now` given in the same units. A reminder's `datetime-local` value keeps only its day key, so the time of day is dropped; only the reminder list displays that value, and nothing the model computes reads it.
- RightSidebar.RecentActivity: the comparator is a parameter, and the function's own contract says nothing about order. The source compares `timestamp` fields that tasks lack and that are not parseable dates for messages, so every comparison yields `NaN`, which `sort` reads as a tie; RightSidebar.RecentActivityAllTied states the feed for that comparator.
- Gamification.Leaderboard: its order is stated only when every member has base points. Otherwise the comparator yields `NaN` (modelled as `None`) and is not a consistent ordering.
- `getProgressToNextLevel` in the gamification widget, which is floating point.
- Sorting.SortBy: ECMAScript 2019 and later require `Array.prototype.sort` to be stable, and Sorting.SortByStable proves that order of ties for the model's insertion sort; which stable algorithm runs, and the order it gives under a comparator that is not consistent, are not modelled.
- MessagesPage.SortChats: two chats with the same name and the same pinned state make the source's comparator answer -1 in both directions. ECMAScript calls such a comparator inconsistent and leaves the resulting order implementation-defined. The model reads both answers as "may stay in front", so such chats keep their input order; a real engine may order them differently. A member added under an existing name produces this case.
- TeamPage.RoleDistribution: lists roles in order of first appearance. `Object.entries` lists integer-like keys (such as a role named "1") first in ascending order; no role in the role select or the fixtures is integer-like, and that ordering is not modelled.
- LexLess compares strings character by character as code points, while JavaScript's `<` compares UTF-16 code units; the two orders differ only for characters outside the Basic Multilingual Plane.
- WithProgress: the progress is an integer. The input passes `Number(e.target.value)`, which also admits fractions and `NaN`; those values are not modelled.
- UpdateProjectProgress: integer progress only, as in WithProgress.
- Validate: the password length counts characters, while JavaScript's `length` counts UTF-16 code units; a password with characters outside the Basic Multilingual Plane is measured differently.
- Gamification.Score: points are unbounded integers. JavaScript number overflow and rounding are not modelled.
- RoleBasedAccess.WithPermissionAdded and WithPermissionRemoved throw a `TypeError`. Its exact text is engine-specific; the model uses a text of its own.
- `Number.parseInt` beyond decimal integers (radix prefixes, partial parses of mixed text, values beyond 2^53) is not modelled, beyond the leading whitespace, sign and digit prefix the model reads.
- `toLowerCase` beyond ASCII letters, in AiRoute.MockResponse and the searches: other Unicode case mappings are not modelled.
- `trim` treats as whitespace the ASCII space, tab, line feed, vertical tab, form feed and carriage return, plus the no-break space, the byte-order mark and the line and paragraph separators. The other Unicode space separators (such as U+2003) are not modelled.
- Middleware.Decide: `getToken` is a boolean input and `NODE_ENV` the boolean `development`. The redirect URL is the target plus the callback path; the callback's URL encoding and the request's origin are not modelled.
- The middleware's `config.matcher` (middleware.ts:37-46), which decides which requests reach the middleware at all. It is routing configuration run by the framework.
- RegisterRoute.Register: the database is the set of registered emails.
  - Each request is one atomic step. The handler awaits the duplicate lookup, the password hash and the insert separately, so two interleaved requests for the same email can both pass the 409 check and both be stored; such interleavings, and the duplicates they leave, are not modelled. RegisterRoute.SecondRegistrationConflicts holds for requests that run one after another.
  - Password hashing, the stored name and password, `createdAt` and the returned `insertedId` are not modelled.
  - The 5-second connection timeout and every later database error are the single state `Failing`.
  - A JSON body whose fields are not strings is not modelled.
- AiRoute.Handle:
  - the Gemini call and its race against the 25-second timeout are the input `call`;
  - a body that cannot be read is the absent body, raising a `SyntaxError` with a text of the model's own;
  - a prompt that is not a string is not modelled.
- Blockchain.Lookup: the ledger is a plain map. Keys inherited from `Object.prototype` (such as `toString`) and the special key `__proto__` are not modelled. The functions are `async`; the model runs them synchronously.
- The AI widgets (chatbot, recommendations, reports), the Gemini client, the NextAuth configuration, the MongoDB client and the purely presentational components are not part of this model.
