/** The calendar page: a selected day, the page's own events, and the tasks due and the
    projects starting or ending on the selected day. Days are compared by calendar day,
    here a day key such as 20231215. */
module CalendarPage {
  import opened Util
  import opened Store

  datatype Event = Event(title: string, description: string, date: int)

  /** A stored date falls on `day` only when it is a day at all: the empty date becomes an
      invalid date, whose day string matches no real day. */
  predicate OnDay(d: Date, day: int) {
    d == Day(day)
  }

  /** `getEventsForDate`. */
  function EventsForDate(events: seq<Event>, day: int): (r: seq<Event>)
    ensures forall e :: e in r <==> e in events && e.date == day
    ensures forall e :: multiset(r)[e] == if e.date == day then multiset(events)[e] else 0
    ensures IsSubseq(r, events)
  {
    Filter(events, (e: Event) => e.date == day)
  }

  /** `getTasksForDate`: the tasks due on the day; a task without a due date is never
      listed. */
  function TasksForDate(tasks: seq<Task>, day: int): (r: seq<Task>)
    ensures forall t :: t in r <==> t in tasks && t.dueDate == Day(day)
    ensures forall t :: multiset(r)[t] == if t.dueDate == Day(day) then multiset(tasks)[t] else 0
    ensures forall t :: t in r ==> t.dueDate != NoDate
    ensures IsSubseq(r, tasks)
  {
    Filter(tasks, (t: Task) => OnDay(t.dueDate, day))
  }

  /** `getProjectsForDate`: the projects that start or end on the day. */
  function ProjectsForDate(projects: seq<Project>, day: int): (r: seq<Project>)
    ensures forall p :: p in r <==> p in projects && (OnDay(p.start, day) || OnDay(p.end, day))
    ensures forall p :: multiset(r)[p] == if OnDay(p.start, day) || OnDay(p.end, day) then multiset(projects)[p] else 0
    ensures IsSubseq(r, projects)
  {
    Filter(projects, (p: Project) => OnDay(p.start, day) || OnDay(p.end, day))
  }

  /** The tag after a listed project's name. */
  function ProjectLabel(p: Project, day: int): (tag: string)
    ensures tag == "(Start)" || tag == "(End)"
  {
    if OnDay(p.start, day) then "(Start)" else "(End)"
  }

  /** Every project listed for a day is tagged truthfully: "(Start)" when it starts that
      day (also when it ends the same day), "(End)" only when it ends that day and does not
      start it. */
  lemma ProjectLabelsTruthful(projects: seq<Project>, day: int)
    ensures forall p :: p in ProjectsForDate(projects, day) ==>
      (ProjectLabel(p, day) == "(Start)" <==> OnDay(p.start, day))
    ensures forall p :: p in ProjectsForDate(projects, day) && ProjectLabel(p, day) == "(End)" ==>
      OnDay(p.end, day) && !OnDay(p.start, day)
  {
  }

  /** Which events are shown is decided by their day alone: adding an event shows it on its
      own day and leaves every other day's list as it was. */
  lemma {:induction false} AddedEventShownOnItsDay(events: seq<Event>, e: Event, day: int)
    ensures e.date == day ==> EventsForDate(events + [e], day) == EventsForDate(events, day) + [e]
    ensures e.date != day ==> EventsForDate(events + [e], day) == EventsForDate(events, day)
  {
    var p := (x: Event) => x.date == day;
    FilterConcat(events, [e], p);
    assert [e][..0] == [];
  }

  /** The events after pressing "Add Event": the draft is kept when its title is not
      blank. */
  function WithEvent(events: seq<Event>, draft: Event): (r: seq<Event>)
    ensures IsBlank(draft.title) ==> r == events
    ensures !IsBlank(draft.title) ==> r == events + [draft]
  {
    TrimEmptyIffBlank(draft.title);
    if Trim(draft.title) != "" then events + [draft] else events
  }

  class CalendarPage {
    const store: AppStore
    /** The day picked in the big calendar; `None` once it is deselected. */
    var selectedDate: Option<int>
    var newEvent: Event
    var events: seq<Event>

    /** Mounting on day `today`. */
    constructor (store: AppStore, today: int)
      ensures this.store == store && selectedDate == Some(today)
      ensures newEvent == Event("", "", today) && events == []
    {
      this.store := store;
      selectedDate := Some(today);
      newEvent := Event("", "", today);
      events := [];
    }

    method SelectDate(day: Option<int>)
      modifies this
      ensures selectedDate == day && newEvent == old(newEvent) && events == old(events)
    {
      selectedDate := day;
    }

    method EditEvent(title: string, description: string)
      modifies this
      ensures newEvent == old(newEvent).(title := title, description := description)
      ensures selectedDate == old(selectedDate) && events == old(events)
    {
      newEvent := newEvent.(title := title, description := description);
    }

    /** Picking the event's day in the dialog; deselecting falls back to today. */
    method PickEventDate(day: Option<int>, today: int)
      modifies this
      ensures newEvent == old(newEvent).(date := if day.Some? then day.value else today)
      ensures selectedDate == old(selectedDate) && events == old(events)
    {
      var d := if day.Some? then day.value else today;
      newEvent := newEvent.(date := d);
    }

    /** `addEvent`: a titled event is appended and the dialog reset to today. */
    method AddEvent(today: int)
      modifies this
      ensures events == WithEvent(old(events), old(newEvent))
      ensures newEvent == if IsBlank(old(newEvent).title) then old(newEvent) else Event("", "", today)
      ensures selectedDate == old(selectedDate)
    {
      var draft := newEvent;
      TrimEmptyIffBlank(draft.title);
      if Trim(draft.title) != "" {
        events := events + [draft];
        newEvent := Event("", "", today);
      }
    }

    /** The three lists under the selected day, or nothing when no day is selected. */
    function Agenda(): (r: Option<(seq<Event>, seq<Task>, seq<Project>)>)
      reads this, store
      ensures r.Some? <==> selectedDate.Some?
      ensures r.Some? ==>
        var day := selectedDate.value;
        r.value == (EventsForDate(events, day), TasksForDate(store.tasks, day), ProjectsForDate(store.projects, day))
    {
      if selectedDate.Some? then
        Some((EventsForDate(events, selectedDate.value), TasksForDate(store.tasks, selectedDate.value),
              ProjectsForDate(store.projects, selectedDate.value)))
      else None
    }
  }
}
