# Task and objective edit forms of the Logseq agenda plugin, in Dafny

This project models the form-state logic of two modals of the agenda plugin.

- **Task modal** (`TaskModal/index.tsx`). The handlers rewrite the task draft:
  - adding a default 30-minute time log;
  - deleting or replacing a time log by its index;
  - switching between a single date and a date range;
  - the recurring-task lock, which refuses a status switch and disables Save;
  - the status switch's result record;
  - the Save outcome when the action fails;
  - the title input, which drops one newline;
  - reset on close.
- **Objective edit form** (`EditObjectiveModal/useEdit.ts`). A draft is projected from the objective. Partial updates shallow-merge into it, and reset restores the projection.

Time is whole minutes and a day is 1440 minutes. The current time (`dayjs()`) is a parameter `now`. The task's `start` and `allDay` come from the active form hook: `./useCreate` in a create modal, `./useEdit` in an edit modal. Neither hook is part of this model, so both values are parameters too.

Files:
- `wrappers.dfy`: `Option`, which stands for `T | undefined`.
- `time_logs.dfy`: the time-log transforms as functions, with lemmas.
- `task_modal.dfy`: task records, the lock, the status switch, Save, the title sanitiser and the range switch, all as functions. The class `TaskModalState` holds the draft, and its handler methods are specified by those functions.
- `objective_edit.dfy`: the merge/reset store as the class `EditObjectiveStore`, with lemmas about `Merge` and about runs of updates.

Behaviour of the code worth knowing:
- A new log starts 30 minutes after the last log's end (`index.tsx:121`), so successive adds leave 30-minute gaps. `NextLogAfterGap` and `AddDefaultLogsLayout` state this.
- Deleting or updating a time log at an out-of-range index is a silent no-op.
- `handleOk` itself does not check the recurring-task lock. Only the Save button is disabled (`SaveEnabled`).
- Nothing checks that a time log's end follows its start.
- The time-log handlers read the edit hook's draft. Their controls are shown only in an edit modal (`index.tsx:337`), so the model's handler methods require an edit modal.

## Model

| member | source | states |
|---|---|---|
| TimeLogs.DefaultLogStart | src/Agenda3/components/modals/TaskModal/index.tsx:120-121 | the layered start: 30 minutes after the last log when there are logs; else the start of a timed task; else 30 minutes before now |
| TimeLogs.LogsOrEmpty | src/Agenda3/components/modals/TaskModal/index.tsx:117 | a missing log list reads as empty; a present one as itself |
| TimeLogs.DefaultLog | src/Agenda3/components/modals/TaskModal/index.tsx:119-122 | the default log ends 30 minutes after it starts and records 30 minutes |
| TimeLogs.AppendDefaultLog | src/Agenda3/components/modals/TaskModal/index.tsx:123 | adding appends exactly one log: length grows by one, the old logs stay as the prefix in order, the last is the default log |
| TimeLogs.FirstLogAtTaskStart | src/Agenda3/components/modals/TaskModal/index.tsx:120-123 | with no logs and a timed (not all-day) task start, the new log is [start, start+30] with amount 30 |
| TimeLogs.FirstLogBeforeNow | src/Agenda3/components/modals/TaskModal/index.tsx:120-123 | with no logs and no start or an all-day task, the new log is the half hour ending now |
| TimeLogs.NextLogAfterGap | src/Agenda3/components/modals/TaskModal/index.tsx:118-121 | with logs present the new log ignores start, all-day flag and clock and starts 30 minutes after the last log's end, never at it |
| TimeLogs.AddDefaultLogs | src/Agenda3/components/modals/TaskModal/index.tsx:116-123 | n successive adds lengthen the list by n and keep the old logs as its prefix |
| TimeLogs.AddDefaultLogsLayout | src/Agenda3/components/modals/TaskModal/index.tsx:116-123 | n successive adds keep the old logs as prefix, add n 30-minute logs, each starting 30 minutes after the previous one ends |
| TimeLogs.DeleteAt | src/Agenda3/components/modals/TaskModal/index.tsx:127 | the filtered list is one shorter exactly when the index is in range |
| TimeLogs.DeleteAtRemovesOne | src/Agenda3/components/modals/TaskModal/index.tsx:125-128 | deleting removes only position i and keeps the others in order; an out-of-range index leaves the list unchanged |
| TimeLogs.DeleteUndoesAdd | src/Agenda3/components/modals/TaskModal/index.tsx:123-127 | deleting the log just added restores the previous list |
| TimeLogs.UpdateAt | src/Agenda3/components/modals/TaskModal/index.tsx:132-135 | the mapped list has the same length, the new log at the index and every other position unchanged |
| TimeLogs.UpdateAtReplacesOne | src/Agenda3/components/modals/TaskModal/index.tsx:130-136 | update equals replacing position i; an out-of-range index is a no-op |
| TimeLogs.UpdateAtRestore | src/Agenda3/components/modals/TaskModal/index.tsx:130-136 | writing back the old entry undoes an update |
| TimeLogs.UpdateAtLastWins | src/Agenda3/components/modals/TaskModal/index.tsx:130-136 | two updates of one position leave only the later value |
| TaskModal.EditDisabled | src/Agenda3/components/modals/TaskModal/index.tsx:83-84 | the lock holds only in edit mode |
| TaskModal.LockDependsOnlyOnRecurrence | src/Agenda3/components/modals/TaskModal/index.tsx:83-84 | tasks that agree on rrule and recurringPast are locked alike, whatever their other fields |
| TaskModal.EditLockedIff | src/Agenda3/components/modals/TaskModal/index.tsx:83-84 | in edit mode the lock holds exactly when the task has a non-empty rrule or recurringPast is true |
| TaskModal.MarkerFor | src/Agenda3/components/modals/TaskModal/index.tsx:153 | the marker is "TODO" exactly for todo and "DONE" exactly for done |
| TaskModal.SwitchTaskStatus | src/Agenda3/components/modals/TaskModal/index.tsx:143-155 | refused with the recurring-task message exactly when locked; ignored exactly in create mode; otherwise the initial task and new status go to the block store |
| TaskModal.SwitchedTaskFields | src/Agenda3/components/modals/TaskModal/index.tsx:148-155 | the task given to onOk has the new status, marker TODO iff todo, and every other field of the initial task |
| TaskModal.SwitchBackRestores | src/Agenda3/components/modals/TaskModal/index.tsx:148-155 | the switched task stays unlocked, and switching back to the old status restores the original task when its marker matched |
| TaskModal.SaveResult | src/Agenda3/components/modals/TaskModal/index.tsx:94-96 | a missing action result gives the "Failed to create task" error; a present one is the task passed on |
| TaskModal.StripFirstNewline | src/Agenda3/components/modals/TaskModal/index.tsx:250 | a title with a newline loses exactly one character; a title without one is unchanged |
| TaskModal.StripFirstNewlineAt | src/Agenda3/components/modals/TaskModal/index.tsx:250 | the character removed is the first newline, with the text before and after kept in order |
| TaskModal.StripKeepsLaterNewlines | src/Agenda3/components/modals/TaskModal/index.tsx:250 | every newline after the first survives one call, one position earlier |
| TaskModal.SwitchedRange | src/Agenda3/components/modals/TaskModal/index.tsx:106-110 | the form has an end date exactly in range mode; start date and start time are kept |
| TaskModal.SwitchedRangeEffect | src/Agenda3/components/modals/TaskModal/index.tsx:106-110 | range sets the end to (start, or now) + 1 day; date clears the end; no other field changes |
| TaskModal.RangeThenDate | src/Agenda3/components/modals/TaskModal/index.tsx:106-110 | range then date yields the original form without an end date |
| TaskModal.SwitchedRangeIdempotent | src/Agenda3/components/modals/TaskModal/index.tsx:106-110 | switching to the active mode again at the same time changes nothing |
| TaskModal.TaskModalState.constructor | src/Agenda3/components/modals/TaskModal/index.tsx:57-59 | the modal starts closed, in Normal mode, with the hook's initial draft |
| TaskModal.TaskModalState.CurrentLogs | src/Agenda3/components/modals/TaskModal/index.tsx:117 | in an edit modal the handlers start from the edit draft's logs, or an empty list when it has none |
| TaskModal.TaskModalState.SwitchRangeMode | src/Agenda3/components/modals/TaskModal/index.tsx:106-110 | the new draft is the switched form; open flag and mode unchanged |
| TaskModal.TaskModalState.AddDefaultTimeLog | src/Agenda3/components/modals/TaskModal/index.tsx:116-124 | in an edit modal, only timeLogs is written, to the old logs plus the default log |
| TaskModal.TaskModalState.DeleteTimeLog | src/Agenda3/components/modals/TaskModal/index.tsx:125-129 | in an edit modal, only timeLogs is written, to the list without position i |
| TaskModal.TaskModalState.UpdateTimeLog | src/Agenda3/components/modals/TaskModal/index.tsx:130-137 | in an edit modal, only timeLogs is written, to the list with position i replaced |
| TaskModal.TaskModalState.ChangeTitle | src/Agenda3/components/modals/TaskModal/index.tsx:250 | only the title is written, to the input with its first newline removed |
| TaskModal.TaskModalState.Reset | src/Agenda3/components/modals/TaskModal/index.tsx:111-115 | the draft returns to the initial form and the mode to Normal, whatever edits came before |
| TaskModal.TaskModalState.SwitchStatus | src/Agenda3/components/modals/TaskModal/index.tsx:143-158 | the outcome is SwitchTaskStatus's; the draft is untouched; the modal closes only on a switch |
| TaskModal.TaskModalState.HandleOk | src/Agenda3/components/modals/TaskModal/index.tsx:92-98 | on a missing result the draft and open flag stay as they were; on success the modal closes |
| TaskModal.TaskModalState.SaveEnabled | src/Agenda3/components/modals/TaskModal/index.tsx:235 | Save is always enabled in create mode; in edit mode it is enabled exactly when a status switch would go through (the shared recurring-task lock) |
| ObjectiveEdit.Project | src/Agenda3/components/modals/ObjectiveModal/EditObjectiveModal/useEdit.ts:17 | the initial draft carries the objective's title and period |
| ObjectiveEdit.ProjectionForgets | src/Agenda3/components/modals/ObjectiveModal/EditObjectiveModal/useEdit.ts:17-18 | objectives that differ only outside title and period give the same draft |
| ObjectiveEdit.Merge | src/Agenda3/components/modals/ObjectiveModal/EditObjectiveModal/useEdit.ts:20-24 | fields named in the partial are overwritten, the others kept |
| ObjectiveEdit.MergeEmpty | src/Agenda3/components/modals/ObjectiveModal/EditObjectiveModal/useEdit.ts:20-24 | an empty partial leaves the draft unchanged |
| ObjectiveEdit.MergeIdempotent | src/Agenda3/components/modals/ObjectiveModal/EditObjectiveModal/useEdit.ts:20-24 | applying the same partial twice equals applying it once |
| ObjectiveEdit.MergeKeepsIff | src/Agenda3/components/modals/ObjectiveModal/EditObjectiveModal/useEdit.ts:20-24 | a field is unchanged exactly when the partial omits it or repeats its value |
| ObjectiveEdit.MergeCompose | src/Agenda3/components/modals/ObjectiveModal/EditObjectiveModal/useEdit.ts:21-24 | merging p then q equals merging their combination |
| ObjectiveEdit.DisjointUpdatesSurvive | src/Agenda3/components/modals/ObjectiveModal/EditObjectiveModal/useEdit.ts:21-24 | updates to the two different fields both survive, in either order |
| ObjectiveEdit.ApplyAll | src/Agenda3/components/modals/ObjectiveModal/EditObjectiveModal/useEdit.ts:21-24 | after a run of updates each field holds its starting value or a value some update in the run named |
| ObjectiveEdit.ApplyAllIsOneMerge | src/Agenda3/components/modals/ObjectiveModal/EditObjectiveModal/useEdit.ts:20-24 | a run of updates, each merging into the latest draft, equals one merge of the combined partial |
| ObjectiveEdit.UnnamedFieldsSurvive | src/Agenda3/components/modals/ObjectiveModal/EditObjectiveModal/useEdit.ts:20-24 | a field no update in a run names keeps its value |
| ObjectiveEdit.LastUpdateWins | src/Agenda3/components/modals/ObjectiveModal/EditObjectiveModal/useEdit.ts:20-24 | a field ends with the value of the last update in the run that names it |
| ObjectiveEdit.EditObjectiveStore.constructor | src/Agenda3/components/modals/ObjectiveModal/EditObjectiveModal/useEdit.ts:16-18 | the initial value is the projection of the objective being edited, and the draft starts there |
| ObjectiveEdit.EditObjectiveStore.UpdateFormData | src/Agenda3/components/modals/ObjectiveModal/EditObjectiveModal/useEdit.ts:20-25 | the draft becomes the previous draft merged with the partial |
| ObjectiveEdit.EditObjectiveStore.Reset | src/Agenda3/components/modals/ObjectiveModal/EditObjectiveModal/useEdit.ts:38-40 | the draft becomes the initial projection, whatever came before; so reset is idempotent |
| ObjectiveEdit.EditObjectiveStore.Edit | src/Agenda3/components/modals/ObjectiveModal/EditObjectiveModal/useEdit.ts:27-37 | edit changes nothing |

The objective's `type` is restricted to week or month by the datatype `ObjectiveEdit.PeriodType` (useEdit.ts:9).

## Left out

- Rendering and widgets are left out: the modal, calendar, pickers, mentions input, popovers and buttons. Only the Save button's `disabled` flag is modelled.
- Block-store and Logseq calls are left out: `updateBlockTaskStatus`, `deleteTask`, `navToLogseqBlock`, `logseq.Editor.createPage`, `refreshPages`, and the create/edit `action` of `handleOk`. They are asynchronous foreign calls whose bodies are not part of this model. The action's result is an input to `HandleOk`. The status switch returns the arguments it would pass to the block store.
- TaskModal.TaskModalState: `open` models only the internal open flag `internalOpen`. A modal opened without trigger children is shown by its parent's `open` prop (`index.tsx:58`) and closes through the parent's `onOk`/`onCancel` callbacks, which are not modelled. The `onCancel` call that follows `onOk` after a status switch (`index.tsx:156`) is not represented either.
- A throwing `updateBlockTaskStatus` is not modelled. The model assumes it completes.
- `handleDelete` is left out. It asks the block store to delete the task, calls `onDelete` with the task id and closes the modal.
- `createPage` is left out for the same reason.
- Analytics (`track`) and the delayed focus effect are left out. They are side effects and timing.
- Date formatting (`SHOW_DATE_FORMATTER`, `SHOW_DATETIME_FORMATTER`) is left out.
- Calendar arithmetic is simplified: `add(1, 'day')` is taken as 1440 minutes, so daylight-saving shifts are not modelled.
- `formData.actualTime` and the derivation of `start` and `allDay` are left out. They come from the task form hooks `./useCreate` and `./useEdit`, which are not part of this model. `start` and `allDay` are inputs.
- Those hooks' `updateFormData` and `reset` are assumed to behave like the objective store's: a shallow merge and a restore of the captured initial form.
- The task form's fields are those the modal reads and writes. The full task and form types, and `TimeLog`'s exact type, come from files that are not part of this model.
- The Advanced display mode UI is left out. It is commented out. Only "reset sets the mode to Normal" is kept.
- ObjectiveEdit.EditObjectiveStore: the edited objective is assumed fixed for the form's life. `_initialData` is rebuilt from the current prop on every render, and `reset` restores that render's projection, while `useState` keeps only the first render's. The constant `initial` field matches both only while the prop does not change.
- The valibot schema library is left out. Only the shape of the objective form is kept: a title, and a period of type week or month with a year and a number.
- The objective's other fields are represented by `uuid` and `content`, because the objective type is not part of this model.
- A partial that names a field with the value `undefined` is not modelled. A patch field is either absent or set to a value.
