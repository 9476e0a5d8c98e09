/**
 * Time logs of a task and the index-based edits the task modal makes to them
 * (TaskModal/index.tsx, `addDefaultTimeLog`, `deleteTimeLog`, `updateTimeLog`).
 * Timestamps are whole minutes; a log's `amount` is stored, not derived.
 */
module TimeLogs {
  import opened Wrappers

  datatype TimeLog = TimeLog(start: int, end: int, amount: int)

  /** Length in minutes of a default log, and the gap left after the last log. */
  const DefaultDuration: int := 30

  /** `formData.timeLogs ?? []`. */
  function LogsOrEmpty(logs: Option<seq<TimeLog>>): (r: seq<TimeLog>)
    ensures logs.Some? ==> r == logs.value
    ensures logs.None? ==> r == []
  {
    logs.GetOr([])
  }

  /**
   * Where the default log starts: the task's start when the task has one and is
   * not all-day, otherwise half an hour before now; but when there are logs
   * already, half an hour after the end of the last one, whatever the task start.
   */
  function DefaultLogStart(logs: seq<TimeLog>, start: Option<int>, allDay: bool, now: int): (s: int)
    ensures |logs| > 0 ==> s - logs[|logs| - 1].end == DefaultDuration
    ensures |logs| == 0 && start.Some? && !allDay ==> s == start.value
    ensures |logs| == 0 && (start.None? || allDay) ==> s + DefaultDuration == now
  {
    if |logs| > 0 then logs[|logs| - 1].end + DefaultDuration
    else if start.Some? && !allDay then start.value
    else now - DefaultDuration
  }

  /** The log `addDefaultTimeLog` appends. */
  function DefaultLog(logs: seq<TimeLog>, start: Option<int>, allDay: bool, now: int): (l: TimeLog)
    ensures l.end == l.start + DefaultDuration && l.amount == DefaultDuration
  {
    var s := DefaultLogStart(logs, start, allDay, now);
    TimeLog(s, s + DefaultDuration, DefaultDuration)
  }

  /** The new sequence `addDefaultTimeLog` writes: the old logs, then the default log. */
  function AppendDefaultLog(logs: seq<TimeLog>, start: Option<int>, allDay: bool, now: int): (r: seq<TimeLog>)
    ensures |r| == |logs| + 1
    ensures r[..|logs|] == logs
    ensures r[|logs|] == DefaultLog(logs, start, allDay, now)
  {
    logs + [DefaultLog(logs, start, allDay, now)]
  }

  /** `logs.filter((_, i) => index !== i)`, one element at a time. */
  function DeleteAt(logs: seq<TimeLog>, index: int): (r: seq<TimeLog>)
    ensures |r| == if 0 <= index < |logs| then |logs| - 1 else |logs|
    decreases |logs|
  {
    if logs == [] then []
    else (if index == 0 then [] else [logs[0]]) + DeleteAt(logs[1..], index - 1)
  }

  /** `logs.map((log, i) => index === i ? data : log)`. */
  function UpdateAt(logs: seq<TimeLog>, index: int, data: TimeLog): (r: seq<TimeLog>)
    ensures |r| == |logs|
    ensures forall i :: 0 <= i < |logs| ==> r[i] == if i == index then data else logs[i]
  {
    seq(|logs|, i requires 0 <= i < |logs| => if i == index then data else logs[i])
  }

  // ---------------------------------------------------------------------------
  // Adding a default log
  // ---------------------------------------------------------------------------

  /** With no logs yet, a timed task's own start anchors the first log. */
  lemma FirstLogAtTaskStart(start: int, now: int)
    ensures AppendDefaultLog([], Some(start), false, now)
         == [TimeLog(start, start + DefaultDuration, DefaultDuration)]
  {
  }

  /** With no logs yet and no usable task start, the first log is the half hour before now. */
  lemma FirstLogBeforeNow(start: Option<int>, allDay: bool, now: int)
    requires start.None? || allDay
    ensures AppendDefaultLog([], start, allDay, now)
         == [TimeLog(now - DefaultDuration, now, DefaultDuration)]
  {
  }

  /**
   * With logs present the new log ignores the task's start, its all-day flag
   * and the clock: it begins half an hour after the last log ends, leaving a
   * 30-minute gap rather than chaining end to start.
   */
  lemma NextLogAfterGap(logs: seq<TimeLog>, start: Option<int>, allDay: bool, now: int,
                        start': Option<int>, allDay': bool, now': int)
    requires |logs| > 0
    ensures DefaultLog(logs, start, allDay, now) == DefaultLog(logs, start', allDay', now')
    ensures DefaultLog(logs, start, allDay, now).start == logs[|logs| - 1].end + DefaultDuration
    ensures DefaultLog(logs, start, allDay, now).start != logs[|logs| - 1].end
  {
  }

  /** The result of `count` successive clicks on "(Add a log)". */
  function AddDefaultLogs(logs: seq<TimeLog>, count: nat, start: Option<int>, allDay: bool, now: int): (r: seq<TimeLog>)
    ensures |r| == |logs| + count
    ensures r[..|logs|] == logs
    decreases count
  {
    if count == 0 then logs
    else AppendDefaultLog(AddDefaultLogs(logs, count - 1, start, allDay, now), start, allDay, now)
  }

  /**
   * Successive adds keep the old logs as a prefix and lay the new ones out in a
   * row of 30-minute blocks separated by 30-minute gaps.
   */
  lemma {:induction false} AddDefaultLogsLayout(logs: seq<TimeLog>, count: nat, start: Option<int>, allDay: bool, now: int)
    ensures var r := AddDefaultLogs(logs, count, start, allDay, now);
      && |r| == |logs| + count
      && r[..|logs|] == logs
      && (forall j :: |logs| <= j < |r| ==> r[j].end == r[j].start + DefaultDuration && r[j].amount == DefaultDuration)
      && (forall j :: |logs| < j < |r| ==> r[j].start == r[j - 1].end + DefaultDuration)
    decreases count
  {
    if count > 0 {
      var prev := AddDefaultLogs(logs, count - 1, start, allDay, now);
      AddDefaultLogsLayout(logs, count - 1, start, allDay, now);
      var r := AppendDefaultLog(prev, start, allDay, now);
      assert r == prev + [DefaultLog(prev, start, allDay, now)];
      assert r[..|logs|] == prev[..|logs|];
    }
  }

  // ---------------------------------------------------------------------------
  // Deleting and updating by index
  // ---------------------------------------------------------------------------

  /** Deleting removes exactly position `index` and keeps the rest in order; an out-of-range index changes nothing. */
  lemma {:induction false} DeleteAtRemovesOne(logs: seq<TimeLog>, index: int)
    ensures 0 <= index < |logs| ==> DeleteAt(logs, index) == logs[..index] + logs[index + 1..]
    ensures !(0 <= index < |logs|) ==> DeleteAt(logs, index) == logs
    decreases |logs|
  {
    if logs != [] {
      DeleteAtRemovesOne(logs[1..], index - 1);
      if index == 0 {
        assert logs[..0] + logs[1..] == logs[1..];
      } else if 0 < index < |logs| {
        assert logs[..index] + logs[index + 1..] == [logs[0]] + (logs[1..][..index - 1] + logs[1..][index..]);
      } else {
        assert [logs[0]] + logs[1..] == logs;
      }
    }
  }

  /** Deleting the log just added gives back the logs as they were before. */
  lemma DeleteUndoesAdd(logs: seq<TimeLog>, start: Option<int>, allDay: bool, now: int)
    ensures DeleteAt(AppendDefaultLog(logs, start, allDay, now), |logs|) == logs
  {
    var r := AppendDefaultLog(logs, start, allDay, now);
    DeleteAtRemovesOne(r, |logs|);
    assert r[|logs| + 1..] == [];
  }

  /** Updating puts `data` at `index` and nothing else changes; an out-of-range index is a no-op. */
  lemma UpdateAtReplacesOne(logs: seq<TimeLog>, index: int, data: TimeLog)
    ensures 0 <= index < |logs| ==> UpdateAt(logs, index, data) == logs[index := data]
    ensures !(0 <= index < |logs|) ==> UpdateAt(logs, index, data) == logs
  {
  }

  /** Writing back the entry that was there undoes an update. */
  lemma UpdateAtRestore(logs: seq<TimeLog>, index: int, data: TimeLog)
    requires 0 <= index < |logs|
    ensures UpdateAt(UpdateAt(logs, index, data), index, logs[index]) == logs
  {
  }

  /** Of two updates of the same position only the later one is seen. */
  lemma UpdateAtLastWins(logs: seq<TimeLog>, index: int, d1: TimeLog, d2: TimeLog)
    ensures UpdateAt(UpdateAt(logs, index, d1), index, d2) == UpdateAt(logs, index, d2)
  {
  }
}
