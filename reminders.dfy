/** The customizable-reminders widget: reminders for a task, owned by the signed-in member,
    listed for their owner and removed by id. */
module Reminders {
  import opened Util
  import opened Store

  /** New reminder ids are the prefix and the creation instant in milliseconds. */
  const ReminderIdPrefix: string := "rem-"

  /** The owner recorded on a new reminder: the signed-in member's id as text, or the empty
      string when nobody is signed in. */
  function OwnerId(current: Option<TeamMember>): (r: string)
    ensures current.Some? ==> r == IntToString(current.value.id)
    ensures current.None? <==> r == ""
  {
    if current.Some? then IntToString(current.value.id) else ""
  }

  /** A reminder is listed for the viewer when its owner is the viewer's id as text; with
      nobody signed in the comparison is against `undefined` and never holds. */
  predicate ListedFor(r: Reminder, current: Option<TeamMember>) {
    current.Some? && r.userId == IntToString(current.value.id)
  }

  /** The "Current Reminders" list. */
  function VisibleReminders(reminders: seq<Reminder>, current: Option<TeamMember>): (r: seq<Reminder>)
    ensures forall x :: x in r <==> x in reminders && ListedFor(x, current)
    ensures forall x :: multiset(r)[x] == if ListedFor(x, current) then multiset(reminders)[x] else 0
    ensures current.None? ==> r == []
    ensures IsSubseq(r, reminders)
  {
    Filter(reminders, (x: Reminder) => ListedFor(x, current))
  }

  /** The reminders after removing `id`: every reminder with that id goes, the rest keep
      their order. */
  function WithoutReminder(reminders: seq<Reminder>, id: string): (r: seq<Reminder>)
    ensures forall x :: x in r <==> x in reminders && x.id != id
    ensures forall x :: multiset(r)[x] == if x.id != id then multiset(reminders)[x] else 0
    ensures IsSubseq(r, reminders)
  {
    Filter(reminders, (x: Reminder) => x.id != id)
  }

  /** Removing a reminder changes each viewer's list by exactly that removal. */
  lemma RemoveThenList(reminders: seq<Reminder>, id: string, current: Option<TeamMember>)
    ensures VisibleReminders(WithoutReminder(reminders, id), current)
      == WithoutReminder(VisibleReminders(reminders, current), id)
  {
    FilterCommute(reminders, (x: Reminder) => x.id != id, (x: Reminder) => ListedFor(x, current));
  }

  /** The reminders after "Set Reminder" with all three fields filled. */
  function WithReminder(reminders: seq<Reminder>, taskId: string, message: string, date: Date,
                        current: Option<TeamMember>, now: nat): (r: seq<Reminder>)
    ensures |r| == |reminders| + 1 && r[..|reminders|] == reminders
    ensures r[|reminders|] == Reminder(StampedId(ReminderIdPrefix, now), taskId, OwnerId(current), message, date)
  {
    var x := Reminder(StampedId(ReminderIdPrefix, now), taskId, OwnerId(current), message, date);
    assert (reminders + [x])[..|reminders|] == reminders;
    reminders + [x]
  }

  /** A new reminder is listed for the member who set it, after that member's earlier ones;
      one set while nobody is signed in is listed for nobody. */
  lemma {:induction false} AddedReminderListedForOwner(reminders: seq<Reminder>, taskId: string, message: string,
                                                       date: Date, current: Option<TeamMember>, now: nat,
                                                       viewer: Option<TeamMember>)
    ensures var r := WithReminder(reminders, taskId, message, date, current, now);
      current.Some? ==> VisibleReminders(r, current) == VisibleReminders(reminders, current) + [r[|reminders|]]
    ensures var r := WithReminder(reminders, taskId, message, date, current, now);
      current.None? ==> VisibleReminders(r, viewer) == VisibleReminders(reminders, viewer)
  {
    var r := WithReminder(reminders, taskId, message, date, current, now);
    var x := r[|reminders|];
    assert r == reminders + [x];
    FilterConcat(reminders, [x], (y: Reminder) => ListedFor(y, current));
    FilterConcat(reminders, [x], (y: Reminder) => ListedFor(y, viewer));
    assert [x][..0] == [];
  }

  class Reminders {
    const store: AppStore
    var selectedTask: Option<string>
    var reminderMessage: string
    /** The date field; `NoDate` while it is empty. */
    var reminderDate: Date

    constructor (store: AppStore)
      ensures this.store == store && selectedTask.None? && reminderMessage == "" && reminderDate == NoDate
    {
      this.store := store;
      selectedTask := None;
      reminderMessage := "";
      reminderDate := NoDate;
    }

    method EditForm(task: Option<string>, message: string, date: Date)
      modifies this
      ensures selectedTask == task && reminderMessage == message && reminderDate == date
    {
      selectedTask := task;
      reminderMessage := message;
      reminderDate := date;
    }

    /** All three fields are filled. */
    predicate Complete()
      reads this
    {
      selectedTask.Some? && selectedTask.value != "" && reminderMessage != "" && reminderDate != NoDate
    }

    /** `handleAddReminder` at clock reading `now`: an incomplete form changes nothing;
        otherwise the reminder is appended and the form cleared. */
    method HandleAddReminder(now: nat)
      modifies this, store
      ensures !old(Complete()) ==>
        store.State() == old(store.State()) && (selectedTask, reminderMessage, reminderDate) == old((selectedTask, reminderMessage, reminderDate))
      ensures old(Complete()) ==>
        && store.State() == old(store.State()).(reminders := WithReminder(old(store.reminders), old(selectedTask).value,
             old(reminderMessage), old(reminderDate), old(store.currentUser), now))
        && selectedTask.None? && reminderMessage == "" && reminderDate == NoDate
    {
      var task, message, date, owner := selectedTask, reminderMessage, reminderDate, store.currentUser;
      if task.None? || task.value == "" || message == "" || date == NoDate {
        return;
      }
      var x := Reminder(StampedId(ReminderIdPrefix, now), task.value, OwnerId(owner), message, date);
      store.SetReminders(Updater((prev: seq<Reminder>) => prev + [x]));
      selectedTask := None;
      reminderMessage := "";
      reminderDate := NoDate;
    }

    /** `handleRemoveReminder`. */
    method HandleRemoveReminder(id: string)
      modifies store
      ensures store.State() == old(store.State()).(reminders := WithoutReminder(old(store.reminders), id))
    {
      store.SetReminders(Updater((prev: seq<Reminder>) => WithoutReminder(prev, id)));
    }
  }
}
