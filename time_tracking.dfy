/** The time-tracking widget: a stopwatch for the selected task whose reading is added to
    the task's recorded time when it is stopped, and the `hh:mm:ss` display. */
module TimeTracking {
  import opened Util
  import opened Store

  // ---------------------------------------------------------------------------
  // Display
  // ---------------------------------------------------------------------------

  /** A clock field: the number's digits, zero-padded to two characters. */
  function Pad2(n: nat): (r: string)
    ensures |r| >= 2 && AllDigits(r)
    ensures n < 100 <==> |r| == 2
  {
    assert n >= 100 ==> |NatToString(n / 10)| >= 2 && |NatToString(n)| == |NatToString(n / 10)| + 1;
    if n < 10 then ['0', DigitChar(n)] else NatToString(n)
  }

  /** A field is `n.toString().padStart(2, '0')`. */
  lemma Pad2IsPadStart(n: nat)
    ensures Pad2(n) == PadStart(NatToString(n), 2, '0')
  {
    if n < 10 {
      assert PadStart(NatToString(n), 2, '0') == ['0'] + [DigitChar(n)];
    }
  }

  /** A field reads back as its number, whether padded to two characters or not. */
  lemma Pad2Value(n: nat)
    ensures DigitsValue(Pad2(n)) == n
  {
    NatToStringValue(n);
    if n < 10 {
      var r := Pad2(n);
      assert r == ['0', DigitChar(n)];
      assert r[..1] == ['0'];
    }
  }

  /** `formatTime`: hours, minutes and seconds, each at least two digits, separated by
      colons; exactly eight characters below 100 hours, longer from then on. The three
      fields read back as the whole hours, the minutes under 60 and the seconds under 60. */
  function FormatTime(seconds: nat): (r: string)
    ensures |r| >= 8
    ensures |r| == 8 <==> seconds < 360000
    ensures r[|r| - 3] == ':' && r[|r| - 6] == ':'
    ensures AllDigits(r[..|r| - 6]) && AllDigits(r[|r| - 5..|r| - 3]) && AllDigits(r[|r| - 2..])
    ensures DigitsValue(r[..|r| - 6]) == seconds / 3600
    ensures DigitsValue(r[|r| - 5..|r| - 3]) == (seconds % 3600) / 60
    ensures DigitsValue(r[|r| - 2..]) == seconds % 60
  {
    ClockFields(seconds);
    Clock(seconds / 3600, (seconds % 3600) / 60, seconds % 60)
  }

  /** The display of given hours, minutes and seconds: the padded fields joined by colons,
      each reading back as its number. */
  function Clock(hours: nat, minutes: nat, rest: nat): (r: string)
    requires minutes < 60 && rest < 60
    ensures |r| >= 8 && (|r| == 8 <==> hours < 100)
    ensures r[|r| - 3] == ':' && r[|r| - 6] == ':'
    ensures AllDigits(r[..|r| - 6]) && AllDigits(r[|r| - 5..|r| - 3]) && AllDigits(r[|r| - 2..])
    ensures DigitsValue(r[..|r| - 6]) == hours
    ensures DigitsValue(r[|r| - 5..|r| - 3]) == minutes
    ensures DigitsValue(r[|r| - 2..]) == rest
  {
    var h, m, s := Pad2(hours), Pad2(minutes), Pad2(rest);
    Pad2Value(hours);
    Pad2Value(minutes);
    Pad2Value(rest);
    ClockJoin(h, m, s);
    h + ":" + m + ":" + s
  }

  /** Where the fields sit in the joined display, and what each reads back as. */
  lemma ClockJoin(h: string, m: string, s: string)
    requires |m| == 2 && |s| == 2 && AllDigits(h) && AllDigits(m) && AllDigits(s)
    ensures var r := h + ":" + m + ":" + s;
      && |r| == |h| + 6 && r[|r| - 3] == ':' && r[|r| - 6] == ':'
      && r[..|r| - 6] == h && r[|r| - 5..|r| - 3] == m && r[|r| - 2..] == s
      && AllDigits(r[..|r| - 6]) && AllDigits(r[|r| - 5..|r| - 3]) && AllDigits(r[|r| - 2..])
      && DigitsValue(r[..|r| - 6]) == DigitsValue(h)
      && DigitsValue(r[|r| - 5..|r| - 3]) == DigitsValue(m)
      && DigitsValue(r[|r| - 2..]) == DigitsValue(s)
  {
    var r := h + ":" + m + ":" + s;
    assert r[..|r| - 6] == h;
    assert r[|r| - 5..|r| - 3] == m;
    assert r[|r| - 2..] == s;
  }

  /** The fields of the display split the count exactly: whole hours, then minutes under
      60, then seconds under 60; the hours stay below 100 exactly under 360000 seconds. */
  lemma ClockFields(seconds: nat)
    ensures var h, m, s := seconds / 3600, (seconds % 3600) / 60, seconds % 60;
      h * 3600 + m * 60 + s == seconds && m < 60 && s < 60 && (h < 100 <==> seconds < 360000)
  {
    var h, q := seconds / 3600, seconds % 3600;
    assert seconds == h * 3600 + q && 0 <= q < 3600;
    var m, s := q / 60, q % 60;
    assert q == m * 60 + s && 0 <= s < 60;
    assert seconds == (h * 60 + m) * 60 + s;
    assert seconds % 60 == s;
    if h >= 100 {
      assert seconds >= 100 * 3600;
    }
  }

  /** Reading a display back as hours, minutes and seconds. */
  function ClockValue(r: string): (n: nat)
    requires |r| >= 8 && AllDigits(r[..|r| - 6]) && AllDigits(r[|r| - 5..|r| - 3]) && AllDigits(r[|r| - 2..])
  {
    DigitsValue(r[..|r| - 6]) * 3600 + DigitsValue(r[|r| - 5..|r| - 3]) * 60 + DigitsValue(r[|r| - 2..])
  }

  /** The display is faithful at every count, beyond 100 hours too: it reads back as the
      count it shows, so different counts never share a display. */
  lemma FormatTimeRoundTrip(seconds: nat)
    ensures ClockValue(FormatTime(seconds)) == seconds
    ensures forall other: nat :: FormatTime(other) == FormatTime(seconds) ==> other == seconds
  {
    ReadBack(seconds);
    forall other: nat | FormatTime(other) == FormatTime(seconds)
      ensures other == seconds
    {
      ReadBack(other);
    }
  }

  lemma ReadBack(seconds: nat)
    ensures ClockValue(FormatTime(seconds)) == seconds
  {
    var h, m, s := seconds / 3600, (seconds % 3600) / 60, seconds % 60;
    ClockFields(seconds);
    ClockValueOfFields(FormatTime(seconds), h, m, s);
  }

  lemma ClockValueOfFields(r: string, h: nat, m: nat, s: nat)
    requires |r| >= 8 && AllDigits(r[..|r| - 6]) && AllDigits(r[|r| - 5..|r| - 3]) && AllDigits(r[|r| - 2..])
    requires DigitsValue(r[..|r| - 6]) == h && DigitsValue(r[|r| - 5..|r| - 3]) == m
    requires DigitsValue(r[|r| - 2..]) == s
    ensures ClockValue(r) == h * 3600 + m * 60 + s
  {
  }

  // ---------------------------------------------------------------------------
  // Recorded time
  // ---------------------------------------------------------------------------

  /** A task's recorded seconds, a missing value counting as none. */
  function TimeOf(t: Task): nat {
    if t.timeSpent.Some? then t.timeSpent.value else 0
  }

  /** The tasks after stopping the watch at `seconds` for task `id`: every task with that id
      has the reading added to its recorded time; nothing else changes. */
  function WithTimeAdded(tasks: seq<Task>, id: string, seconds: nat): (r: seq<Task>)
    ensures |r| == |tasks|
    ensures forall i :: 0 <= i < |tasks| && tasks[i].id != id ==> r[i] == tasks[i]
    ensures forall i :: 0 <= i < |tasks| && tasks[i].id == id ==>
      TimeOf(r[i]) == TimeOf(tasks[i]) + seconds && r[i].(timeSpent := tasks[i].timeSpent) == tasks[i]
  {
    seq(|tasks|, i requires 0 <= i < |tasks| =>
      if tasks[i].id == id then tasks[i].(timeSpent := Some(TimeOf(tasks[i]) + seconds)) else tasks[i])
  }

  /** The time recorded over all tasks. */
  function TotalTime(tasks: seq<Task>): nat
    decreases |tasks|
  {
    if tasks == [] then 0 else TotalTime(tasks[..|tasks| - 1]) + TimeOf(tasks[|tasks| - 1])
  }

  /** The test "this task has id `id`". */
  function HasId(id: string): Task -> bool {
    (t: Task) => t.id == id
  }

  /** No second is lost or invented: stopping adds the reading once per task carrying the
      id, and only that, to the total. */
  lemma {:induction false} StopAddsReading(tasks: seq<Task>, id: string, seconds: nat)
    ensures TotalTime(WithTimeAdded(tasks, id, seconds))
      == TotalTime(tasks) + seconds * Count(tasks, HasId(id))
    decreases |tasks|
  {
    if tasks != [] {
      var init, last := tasks[..|tasks| - 1], tasks[|tasks| - 1];
      var p := HasId(id);
      var extra := if last.id == id then seconds else 0;
      var c0, c := Count(init, p), Count(tasks, p);
      assert seconds * c == seconds * c0 + extra by {
        CountSnoc(tasks, p);
        ScaleStep(seconds, c, c0, last.id == id);
      }
      var before, beforeInit := TotalTime(tasks), TotalTime(init);
      assert before == beforeInit + TimeOf(last);
      var after, afterInit := TotalTime(WithTimeAdded(tasks, id, seconds)), TotalTime(WithTimeAdded(init, id, seconds));
      assert after == afterInit + TimeOf(last) + extra by {
        WithTimeAddedInit(tasks, id, seconds);
      }
      assert afterInit == beforeInit + seconds * c0 by {
        StopAddsReading(init, id, seconds);
      }
    }
  }

  /** Scaling a count that grew by zero or one. */
  lemma ScaleStep(k: nat, c: nat, c0: nat, grew: bool)
    requires c == c0 + (if grew then 1 else 0)
    ensures k * c == k * c0 + (if grew then k else 0)
  {
  }

  lemma WithTimeAddedInit(tasks: seq<Task>, id: string, seconds: nat)
    requires tasks != []
    ensures var last := tasks[|tasks| - 1];
      TotalTime(WithTimeAdded(tasks, id, seconds))
        == TotalTime(WithTimeAdded(tasks[..|tasks| - 1], id, seconds)) + TimeOf(last) + (if last.id == id then seconds else 0)
  {
    var r := WithTimeAdded(tasks, id, seconds);
    assert r[..|r| - 1] == WithTimeAdded(tasks[..|tasks| - 1], id, seconds);
  }

  lemma CountSnoc(s: seq<Task>, p: Task -> bool)
    requires s != []
    ensures Count(s, p) == Count(s[..|s| - 1], p) + (if p(s[|s| - 1]) then 1 else 0)
  {
    var init, last := s[..|s| - 1], s[|s| - 1];
    assert s == init + [last];
    FilterConcat(init, [last], p);
    assert [last][..0] == [];
  }

  // ---------------------------------------------------------------------------
  // Widget state
  // ---------------------------------------------------------------------------

  /** A task is chosen when the select holds a non-empty id. */
  predicate Chosen(selected: Option<string>) {
    selected.Some? && selected.value != ""
  }

  class TimeTracking {
    const store: AppStore
    var selectedTask: Option<string>
    var isTracking: bool
    var elapsedTime: nat

    constructor (store: AppStore)
      ensures this.store == store && selectedTask.None? && !isTracking && elapsedTime == 0
    {
      this.store := store;
      selectedTask := None;
      isTracking := false;
      elapsedTime := 0;
    }

    /** Choosing a task; the select box is disabled while the watch runs. */
    method SelectTask(id: string)
      requires !isTracking
      modifies this
      ensures selectedTask == Some(id) && isTracking == old(isTracking) && elapsedTime == old(elapsedTime)
    {
      selectedTask := Some(id);
    }

    /** `handleStartTracking`: starts the watch only when a task is chosen. */
    method HandleStartTracking()
      modifies this
      ensures isTracking == (old(isTracking) || Chosen(selectedTask))
      ensures selectedTask == old(selectedTask) && elapsedTime == old(elapsedTime)
    {
      if selectedTask.None? || selectedTask.value == "" {
        return;
      }
      isTracking := true;
    }

    /** One second of the interval timer, which runs only while tracking. */
    method Tick()
      modifies this
      ensures elapsedTime == old(elapsedTime) + (if isTracking then 1 else 0)
      ensures isTracking == old(isTracking) && selectedTask == old(selectedTask)
    {
      if isTracking {
        elapsedTime := elapsedTime + 1;
      }
    }

    /** `handleStopTracking`: the reading goes to the chosen task, the watch stops and is
        reset. */
    method HandleStopTracking()
      modifies this, store
      ensures !isTracking && elapsedTime == 0 && selectedTask == old(selectedTask)
      ensures Chosen(selectedTask) ==>
        store.State() == old(store.State()).(tasks := WithTimeAdded(old(store.tasks), selectedTask.value, old(elapsedTime)))
      ensures !Chosen(selectedTask) ==> store.State() == old(store.State())
    {
      isTracking := false;
      if selectedTask.Some? && selectedTask.value != "" {
        var id, seconds := selectedTask.value, elapsedTime;
        store.SetTasks(Updater((prev: seq<Task>) => WithTimeAdded(prev, id, seconds)));
      }
      elapsedTime := 0;
    }
  }

  /** Starting, letting `n` seconds pass and stopping records exactly `n` more seconds on
      the chosen task. */
  method TrackFor(w: TimeTracking, n: nat)
    requires !w.isTracking && w.elapsedTime == 0 && Chosen(w.selectedTask)
    modifies w, w.store
    ensures w.selectedTask == old(w.selectedTask)
    ensures w.store.State() == old(w.store.State()).(tasks := WithTimeAdded(old(w.store.tasks), old(w.selectedTask).value, n))
  {
    w.HandleStartTracking();
    var i := 0;
    while i < n
      invariant 0 <= i <= n
      invariant w.isTracking && w.elapsedTime == i && w.selectedTask == old(w.selectedTask)
      invariant w.store.State() == old(w.store.State())
    {
      w.Tick();
      i := i + 1;
    }
    w.HandleStopTracking();
  }
}
