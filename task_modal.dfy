/**
 * The task modal's form-state logic (TaskModal/index.tsx): the draft it edits,
 * the recurring-task lock, the status switch, the Save outcome, the title
 * sanitiser, the date/range switch and the time-log handlers.
 * Dates are whole minutes; the current time is passed in as `now`.
 */
module TaskModal {
  import opened Wrappers
  import opened TimeLogs

  const MinutesPerDay: int := 1440

  datatype Status = Todo | Done

  /** The block a task was read from; only its marker is rewritten here. */
  datatype RawBlock = RawBlock(uuid: string, content: string, marker: string)

  /** The persisted task handed to the modal in edit mode. */
  datatype AgendaTask = AgendaTask(
    id: string,
    title: string,
    status: Status,
    rrule: Option<string>,
    recurringPast: Option<bool>,
    rawBlock: RawBlock)

  /** The draft fields the modal reads and writes. */
  datatype TaskForm = TaskForm(
    title: string,
    startDateVal: Option<int>,
    endDateVal: Option<int>,
    startTime: Option<int>,
    estimatedTime: Option<int>,
    objectiveId: Option<string>,
    projectId: Option<string>,
    timeLogs: Option<seq<TimeLog>>)

  /** The `info` prop: a create modal with seed data, or an edit modal on an existing task. */
  datatype ModalInfo = Create(initialData: TaskForm) | Edit(initialTaskData: AgendaTask)

  datatype DateMode = DateOnly | Range

  datatype DisplayMode = Normal | Advanced

  // ---------------------------------------------------------------------------
  // Recurring-task lock
  // ---------------------------------------------------------------------------

  /** JavaScript truthiness of the optional `rrule` string: absent and "" are falsy. */
  predicate RruleSet(rrule: Option<string>) {
    rrule.Some? && rrule.value != ""
  }

  /**
   * `editDisabled`: an edit modal on a task that has a recurrence rule or is a
   * past occurrence. A create modal is never locked.
   */
  function EditDisabled(info: ModalInfo): (locked: bool)
    ensures locked ==> info.Edit?
  {
    if info.Edit? && (RruleSet(info.initialTaskData.rrule) || info.initialTaskData.recurringPast == Some(true))
    then true else false
  }

  /** An edit modal is locked exactly when the task carries a non-empty rule or the past-occurrence flag. */
  lemma EditLockedIff(task: AgendaTask)
    ensures EditDisabled(Edit(task)) <==> (task.rrule.Some? && task.rrule.value != "") || task.recurringPast == Some(true)
  {
  }

  /**
   * The lock looks at nothing but the recurrence markers: tasks that agree on
   * `rrule` and `recurringPast` are locked alike, whatever their status, title
   * or block.
   */
  lemma LockDependsOnlyOnRecurrence(a: AgendaTask, b: AgendaTask)
    requires a.rrule == b.rrule && a.recurringPast == b.recurringPast
    ensures EditDisabled(Edit(a)) == EditDisabled(Edit(b))
  {
  }

  // ---------------------------------------------------------------------------
  // Status switch
  // ---------------------------------------------------------------------------

  const RecurringStatusMessage: string := "Please modify the status of the recurring task in logseq."

  /** The Logseq marker that goes with a status. */
  function MarkerFor(status: Status): (m: string)
    ensures m == "TODO" <==> status == Todo
    ensures m == "DONE" <==> status == Done
  {
    assert "TODO"[0] != "DONE"[0];
    match status
    case Todo => "TODO"
    case Done => "DONE"
  }

  /**
   * What `onSwitchTaskStatus` does: refuses with a message on a locked task,
   * returns early in create mode, and otherwise asks the block store to change
   * the status (`persisted`, `status`) and hands `okTask` to `onOk`.
   */
  datatype StatusOutcome =
    | Refused(message: string)
    | Ignored
    | Switched(persisted: AgendaTask, status: Status, okTask: AgendaTask)

  function SwitchTaskStatus(info: ModalInfo, status: Status): (o: StatusOutcome)
    ensures o.Refused? <==> EditDisabled(info)
    ensures o.Refused? ==> o.message == RecurringStatusMessage
    ensures o.Ignored? <==> !EditDisabled(info) && info.Create?
    ensures o.Switched? <==> !EditDisabled(info) && info.Edit?
    ensures o.Switched? ==> o.persisted == info.initialTaskData && o.status == status
  {
    if EditDisabled(info) then Refused(RecurringStatusMessage)
    else if !info.Edit? then Ignored
    else
      var task := info.initialTaskData;
      Switched(task, status, task.(status := status, rawBlock := task.rawBlock.(marker := MarkerFor(status))))
  }

  /**
   * The task given to `onOk` after a switch is the initial task with only the
   * status and the block's marker changed.
   */
  lemma SwitchedTaskFields(task: AgendaTask, status: Status)
    requires !EditDisabled(Edit(task))
    ensures var t := SwitchTaskStatus(Edit(task), status).okTask;
      && t.status == status
      && (t.rawBlock.marker == "TODO" <==> status == Todo)
      && (t.rawBlock.marker == "DONE" <==> status == Done)
      && t.id == task.id && t.title == task.title
      && t.rrule == task.rrule && t.recurringPast == task.recurringPast
      && t.rawBlock.uuid == task.rawBlock.uuid && t.rawBlock.content == task.rawBlock.content
  {
  }

  /**
   * The switched task is no more locked than the original, and switching it
   * back to the original status restores the original task when the original
   * marker agreed with its status.
   */
  lemma SwitchBackRestores(task: AgendaTask, status: Status)
    requires !EditDisabled(Edit(task))
    requires task.rawBlock.marker == MarkerFor(task.status)
    ensures var t := SwitchTaskStatus(Edit(task), status).okTask;
      && !EditDisabled(Edit(t))
      && SwitchTaskStatus(Edit(t), task.status) == Switched(t, task.status, task)
  {
  }

  // ---------------------------------------------------------------------------
  // Save
  // ---------------------------------------------------------------------------

  const SaveFailedMessage: string := "Failed to create task"

  datatype SaveOutcome = SaveFailed(message: string) | Saved(task: AgendaTask)

  /** `handleOk` once the create/edit action has resolved to `result`. */
  function SaveResult(result: Option<AgendaTask>): (o: SaveOutcome)
    ensures o.SaveFailed? <==> result.None?
    ensures o.SaveFailed? ==> o.message == SaveFailedMessage
    ensures o.Saved? ==> o.task == result.value
  {
    if result.None? then SaveFailed(SaveFailedMessage) else Saved(result.value)
  }

  // ---------------------------------------------------------------------------
  // Title input
  // ---------------------------------------------------------------------------

  /** `val.replace(/\n/, '')`: removes the first newline, if any. */
  function StripFirstNewline(s: string): (r: string)
    ensures '\n' in s ==> |r| == |s| - 1
    ensures '\n' !in s ==> r == s
  {
    if s == [] then []
    else if s[0] == '\n' then s[1..]
    else [s[0]] + StripFirstNewline(s[1..])
  }

  /** The character removed is the first newline, and everything around it is kept in order. */
  lemma {:induction false} StripFirstNewlineAt(s: string, i: nat)
    requires i < |s| && s[i] == '\n'
    requires forall j :: 0 <= j < i ==> s[j] != '\n'
    ensures StripFirstNewline(s) == s[..i] + s[i + 1..]
  {
    if i > 0 {
      StripFirstNewlineAt(s[1..], i - 1);
      assert s[..i] == [s[0]] + s[1..][..i - 1];
    }
  }

  /** Only one newline goes per call: any later newline is still there, one place earlier. */
  lemma StripKeepsLaterNewlines(s: string, i: nat, j: nat)
    requires i < j < |s| && s[i] == '\n' && s[j] == '\n'
    requires forall k :: 0 <= k < i ==> s[k] != '\n'
    ensures StripFirstNewline(s)[j - 1] == '\n'
  {
    StripFirstNewlineAt(s, i);
  }

  // ---------------------------------------------------------------------------
  // Date / range switch
  // ---------------------------------------------------------------------------

  /** The form after `handleSwitchRangeMode(mode)`: only `endDateVal` is written. */
  function SwitchedRange(form: TaskForm, mode: DateMode, now: int): (f: TaskForm)
    ensures f.endDateVal.Some? <==> mode == Range
    ensures f.startDateVal == form.startDateVal && f.startTime == form.startTime
  {
    form.(endDateVal := if mode == Range then Some(form.startDateVal.GetOr(now) + MinutesPerDay) else None)
  }

  /**
   * Range mode ends one day after the start (after now when there is no
   * start); date mode clears the end; start date and time stay as they were.
   */
  lemma SwitchedRangeEffect(form: TaskForm, mode: DateMode, now: int)
    ensures var f := SwitchedRange(form, mode, now);
      && (mode == Range ==> f.endDateVal.Some? && f.endDateVal.value == form.startDateVal.GetOr(now) + MinutesPerDay)
      && (mode == DateOnly ==> f.endDateVal.None?)
      && f.(endDateVal := form.endDateVal) == form
  {
  }

  /** Range then date gives the original form with no end date. */
  lemma RangeThenDate(form: TaskForm, now: int, now': int)
    ensures SwitchedRange(SwitchedRange(form, Range, now), DateOnly, now') == form.(endDateVal := None)
  {
  }

  /** Switching to the mode already chosen changes nothing when the clock has not moved. */
  lemma SwitchedRangeIdempotent(form: TaskForm, mode: DateMode, now: int)
    ensures SwitchedRange(SwitchedRange(form, mode, now), mode, now) == SwitchedRange(form, mode, now)
  {
  }

  // ---------------------------------------------------------------------------
  // The modal's state
  // ---------------------------------------------------------------------------

  /**
   * One open modal. `formData` is the draft of the form hook, `initialForm` the
   * value that hook's reset restores; `open` is the internal open flag and
   * `mode` the Normal/Advanced display toggle. Each handler writes the draft by
   * merging a one-field partial, as `updateFormData({ field: value })` does.
   */
  class TaskModalState {
    const info: ModalInfo
    const initialForm: TaskForm
    var formData: TaskForm
    var open: bool
    var mode: DisplayMode

    constructor (info: ModalInfo, initialForm: TaskForm)
      ensures this.info == info && this.initialForm == initialForm
      ensures formData == initialForm && !open && mode == Normal
    {
      this.info := info;
      this.initialForm := initialForm;
      formData := initialForm;
      open := false;
      mode := Normal;
    }

    /**
     * The time logs the handlers start from: `editHookResult.formData.timeLogs ?? []`.
     * The time-log controls exist only in an edit modal, where the active
     * form hook is the edit hook, so `formData` is that hook's draft.
     */
    function CurrentLogs(): (logs: seq<TimeLog>)
      requires info.Edit?
      reads this
      ensures formData.timeLogs.Some? ==> logs == formData.timeLogs.value
      ensures formData.timeLogs.None? ==> logs == []
    {
      LogsOrEmpty(formData.timeLogs)
    }

    method SwitchRangeMode(dateMode: DateMode, now: int)
      modifies this
      ensures formData == SwitchedRange(old(formData), dateMode, now)
      ensures open == old(open) && mode == old(mode)
    {
      var start := formData.startDateVal.GetOr(now);
      var end := if dateMode == Range then Some(start + MinutesPerDay) else None;
      formData := formData.(endDateVal := end);
    }

    /** `start` and `allDay` are the form hook's derived values at the time of the click. */
    method AddDefaultTimeLog(start: Option<int>, allDay: bool, now: int)
      requires info.Edit?
      modifies this
      ensures formData == old(formData).(timeLogs := Some(AppendDefaultLog(old(CurrentLogs()), start, allDay, now)))
      ensures open == old(open) && mode == old(mode)
    {
      var curTimeLogs := LogsOrEmpty(formData.timeLogs);
      var logStart := if start.Some? && !allDay then start.value else now - DefaultDuration;
      if |curTimeLogs| > 0 {
        logStart := curTimeLogs[|curTimeLogs| - 1].end + DefaultDuration;
      }
      var logEnd := logStart + DefaultDuration;
      formData := formData.(timeLogs := Some(curTimeLogs + [TimeLog(logStart, logEnd, DefaultDuration)]));
    }

    method DeleteTimeLog(index: int)
      requires info.Edit?
      modifies this
      ensures formData == old(formData).(timeLogs := Some(DeleteAt(old(CurrentLogs()), index)))
      ensures open == old(open) && mode == old(mode)
    {
      formData := formData.(timeLogs := Some(DeleteAt(LogsOrEmpty(formData.timeLogs), index)));
    }

    method UpdateTimeLog(index: int, data: TimeLog)
      requires info.Edit?
      modifies this
      ensures formData == old(formData).(timeLogs := Some(UpdateAt(old(CurrentLogs()), index, data)))
      ensures open == old(open) && mode == old(mode)
    {
      formData := formData.(timeLogs := Some(UpdateAt(LogsOrEmpty(formData.timeLogs), index, data)));
    }

    /** The title input's `onChange`. */
    method ChangeTitle(val: string)
      modifies this
      ensures formData == old(formData).(title := StripFirstNewline(val))
      ensures open == old(open) && mode == old(mode)
    {
      formData := formData.(title := StripFirstNewline(val));
    }

    /** `reset` (run after the modal closes): the form hook's reset, and back to Normal mode. */
    method Reset()
      modifies this
      ensures formData == initialForm && mode == Normal && open == old(open)
    {
      formData := initialForm;
      mode := Normal;
    }

    /**
     * `onSwitchTaskStatus`: the draft is never touched; the modal closes only
     * when the switch went through.
     */
    method SwitchStatus(status: Status) returns (o: StatusOutcome)
      modifies this
      ensures o == SwitchTaskStatus(info, status)
      ensures open == (if o.Switched? then false else old(open))
      ensures formData == old(formData) && mode == old(mode)
    {
      o := SwitchTaskStatus(info, status);
      if o.Switched? {
        open := false;
      }
    }

    /**
     * `handleOk` once the action resolved to `result`: on failure the draft and
     * the open flag are untouched; on success the modal closes.
     */
    method HandleOk(result: Option<AgendaTask>) returns (o: SaveOutcome)
      modifies this
      ensures o == SaveResult(result)
      ensures open == (if result.None? then old(open) else false)
      ensures formData == old(formData) && mode == old(mode)
    {
      o := SaveResult(result);
      if o.Saved? {
        open := false;
      }
    }

    /**
     * Whether the Save button is enabled. It shares the status switch's lock:
     * a create modal can always save, and an edit modal can save exactly when
     * a status switch would go through to the block store.
     */
    function SaveEnabled(): (enabled: bool)
      reads this
      ensures info.Create? ==> enabled
      ensures info.Edit? ==> (enabled <==> SwitchTaskStatus(info, info.initialTaskData.status).Switched?)
    {
      !EditDisabled(info)
    }
  }
}
