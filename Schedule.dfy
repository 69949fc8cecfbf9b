/**
 * The schedule screen: it shows the one schedule of the app and its recent
 * runs, and lets the user pause or resume the schedule or trigger a run. Each
 * scheduler call is replaced by its outcome, given as a parameter; a thrown
 * call is an outcome of its own. Every call made is recorded (a ghost log).
 */
module Scheduling {
  import opened Wrappers
  import opened Json
  import opened JsText

  const SCHEDULE_ID := "6999693e399dfadeac37e371"
  /** How many runs the screen asks for. */
  const LOG_LIMIT := 20

  const LOAD_FAILED := "Failed to load schedule"
  const TOGGLE_FAILED := "Failed to toggle schedule"
  const TRIGGER_FAILED := "Failed to trigger schedule"

  /** One call into the scheduler service. */
  datatype SchedulerCall =
    | GetSchedule(scheduleId: string)
    | GetLogs(scheduleId: string, limit: nat)
    | Pause(scheduleId: string)
    | Resume(scheduleId: string)
    | Trigger(scheduleId: string)

  /**
   * What fetching the schedule yields: a throw, or a response with its `success`
   * flag, its `schedule` (if any) and its `error` text (`""` when absent).
   */
  datatype ScheduleOutcome =
    | ScheduleThrew
    | ScheduleReturned(success: bool, schedule: Option<Json>, errorText: string)

  /** What fetching the run log yields: a throw, or a response with its `success` flag and its `executions` (if any). */
  datatype LogsOutcome =
    | LogsThrew
    | LogsReturned(success: bool, executions: Option<Json>)

  /** Pause, resume and trigger: only whether they throw matters, their results are not read. */
  datatype ActionOutcome = ActionDone | ActionThrew

  /** The screen's state; `calls` is the ghost record of scheduler calls, oldest first. */
  datatype ScheduleState = ScheduleState(
    schedule: Option<Json>,
    logs: seq<Json>,
    loading: bool,
    logsLoading: bool,
    actionLoading: bool,
    error: string,
    calls: seq<SchedulerCall>)

  /** Before the mount effect: no schedule, no runs, and the loading flag already set. */
  const SCHEDULE_INITIAL := ScheduleState(None, [], true, false, false, "", [])

  /** `res.success && res.schedule`. */
  predicate ScheduleLoaded(o: ScheduleOutcome) {
    o.ScheduleReturned? && o.success && Present(o.schedule)
  }

  /** `res.success && Array.isArray(res.executions)`. */
  predicate LogsLoaded(o: LogsOutcome) {
    o.LogsReturned? && o.success && IsArray(o.executions)
  }

  /**
   * Fetching the schedule: a fetched schedule replaces the shown one; otherwise
   * the response's error text (or the fixed text) is shown and the schedule
   * kept. A success does not clear an earlier error.
   */
  function AfterLoadSchedule(st: ScheduleState, o: ScheduleOutcome): ScheduleState {
    var asked := st.(calls := st.calls + [GetSchedule(SCHEDULE_ID)]);
    var settled :=
      if ScheduleLoaded(o) then asked.(schedule := Some(o.schedule.value))
      else if o.ScheduleReturned? then asked.(error := TextOr(o.errorText, LOAD_FAILED))
      else asked.(error := LOAD_FAILED);
    settled.(loading := false)
  }

  /** Fetching the last runs: they replace the shown ones only when they arrive as an array; failures are silent. */
  function AfterLoadLogs(st: ScheduleState, o: LogsOutcome): ScheduleState {
    var asked := st.(calls := st.calls + [GetLogs(SCHEDULE_ID, LOG_LIMIT)]);
    var settled := if LogsLoaded(o) then asked.(logs := o.executions.value.items) else asked;
    settled.(logsLoading := false)
  }

  /** The mount effect: both fetches, the schedule first. */
  function AfterMountSchedule(st: ScheduleState, s: ScheduleOutcome, l: LogsOutcome): ScheduleState {
    AfterLoadLogs(AfterLoadSchedule(st, s), l)
  }

  /** `!!schedule`: a schedule is shown (every schedule a fetch stores is truthy). */
  predicate HasSchedule(st: ScheduleState) {
    st.schedule.Some? && Truthy(st.schedule.value)
  }

  /** The call the toggle button makes for the shown schedule: pause an active one, resume any other. */
  function ToggleCall(schedule: Json): SchedulerCall {
    if Present(Field(schedule, "is_active")) then Pause(SCHEDULE_ID) else Resume(SCHEDULE_ID)
  }

  /**
   * The toggle button: nothing without a schedule; otherwise pause or resume,
   * then (if that did not throw) fetch the schedule again. The shown schedule
   * changes only through that fetch.
   */
  function AfterToggle(st: ScheduleState, action: ActionOutcome, reload: ScheduleOutcome): ScheduleState {
    if !HasSchedule(st) then st
    else
      var sent := st.(actionLoading := true, calls := st.calls + [ToggleCall(st.schedule.value)]);
      var settled := if action.ActionThrew? then sent.(error := TOGGLE_FAILED) else AfterLoadSchedule(sent, reload);
      settled.(actionLoading := false)
  }

  /** The run-now button: trigger a run, then (if that did not throw) fetch the runs again. */
  function AfterRunNow(st: ScheduleState, action: ActionOutcome, logs: LogsOutcome): ScheduleState {
    var sent := st.(actionLoading := true, calls := st.calls + [Trigger(SCHEDULE_ID)]);
    var settled := if action.ActionThrew? then sent.(error := TRIGGER_FAILED) else AfterLoadLogs(sent, logs);
    settled.(actionLoading := false)
  }

  /** The dismiss button of the error banner. */
  function AfterDismissError(st: ScheduleState): ScheduleState {
    st.(error := "")
  }

  /** The screen's state as fields updated in place by its handlers. */
  class ScheduleScreen {
    var schedule: Option<Json>
    var logs: seq<Json>
    var loading: bool
    var logsLoading: bool
    var actionLoading: bool
    var error: string
    ghost var calls: seq<SchedulerCall>

    ghost function State(): ScheduleState
      reads this
    {
      ScheduleState(schedule, logs, loading, logsLoading, actionLoading, error, calls)
    }

    constructor ()
      ensures State() == SCHEDULE_INITIAL
    {
      schedule, logs, loading, logsLoading, actionLoading, error := None, [], true, false, false, "";
      calls := [];
    }

    method LoadSchedule(o: ScheduleOutcome)
      modifies this
      ensures State() == AfterLoadSchedule(old(State()), o)
    {
      loading := true;
      calls := calls + [GetSchedule(SCHEDULE_ID)];
      match o {
        case ScheduleThrew =>
          error := LOAD_FAILED;
        case ScheduleReturned(success, s, errorText) =>
          if success && Present(s) {
            schedule := Some(s.value);
          } else {
            error := TextOr(errorText, LOAD_FAILED);
          }
      }
      loading := false;
    }

    method LoadLogs(o: LogsOutcome)
      modifies this
      ensures State() == AfterLoadLogs(old(State()), o)
    {
      logsLoading := true;
      calls := calls + [GetLogs(SCHEDULE_ID, LOG_LIMIT)];
      if o.LogsReturned? && o.success && IsArray(o.executions) {
        logs := o.executions.value.items;
      }
      logsLoading := false;
    }

    method Mount(s: ScheduleOutcome, l: LogsOutcome)
      modifies this
      ensures State() == AfterMountSchedule(old(State()), s, l)
    {
      LoadSchedule(s);
      LoadLogs(l);
    }

    method Toggle(action: ActionOutcome, reload: ScheduleOutcome)
      modifies this
      ensures State() == AfterToggle(old(State()), action, reload)
    {
      if !(schedule.Some? && Truthy(schedule.value)) {
        return;
      }
      actionLoading := true;
      if Present(Field(schedule.value, "is_active")) {
        calls := calls + [Pause(SCHEDULE_ID)];
      } else {
        calls := calls + [Resume(SCHEDULE_ID)];
      }
      if action.ActionThrew? {
        error := TOGGLE_FAILED;
      } else {
        LoadSchedule(reload);
      }
      actionLoading := false;
    }

    method RunNow(action: ActionOutcome, logsOutcome: LogsOutcome)
      modifies this
      ensures State() == AfterRunNow(old(State()), action, logsOutcome)
    {
      actionLoading := true;
      calls := calls + [Trigger(SCHEDULE_ID)];
      if action.ActionThrew? {
        error := TRIGGER_FAILED;
      } else {
        LoadLogs(logsOutcome);
      }
      actionLoading := false;
    }

    method DismissError()
      modifies this
      ensures State() == AfterDismissError(old(State()))
    {
      error := "";
    }
  }

  // ---------------------------------------------------------------------------
  // Properties
  // ---------------------------------------------------------------------------

  /** Without a schedule the toggle button changes nothing and calls nothing. */
  lemma ToggleWithoutSchedule(st: ScheduleState, action: ActionOutcome, reload: ScheduleOutcome)
    requires !HasSchedule(st)
    ensures AfterToggle(st, action, reload) == st
  {
  }

  /**
   * With a schedule, the toggle pauses an active schedule and resumes any other,
   * then fetches the schedule unless that threw, and calls nothing else; the runs
   * are not touched and the action flag ends cleared.
   */
  lemma ToggleCalls(st: ScheduleState, action: ActionOutcome, reload: ScheduleOutcome)
    requires HasSchedule(st)
    ensures var r := AfterToggle(st, action, reload);
      var first := if Present(Field(st.schedule.value, "is_active")) then Pause(SCHEDULE_ID) else Resume(SCHEDULE_ID);
      && r.calls == st.calls + [first] + (if action.ActionDone? then [GetSchedule(SCHEDULE_ID)] else [])
      && r.logs == st.logs && !r.actionLoading
  {
  }

  /** Of pause and resume, a toggle calls exactly one: pause exactly when the schedule is active. */
  lemma ToggleCallsExactlyOne(st: ScheduleState, action: ActionOutcome, reload: ScheduleOutcome)
    requires HasSchedule(st)
    ensures var r := AfterToggle(st, action, reload);
      var active := Present(Field(st.schedule.value, "is_active"));
      && |r.calls| > |st.calls| && r.calls[..|st.calls|] == st.calls
      && (Pause(SCHEDULE_ID) in r.calls[|st.calls|..] <==> active)
      && (Resume(SCHEDULE_ID) in r.calls[|st.calls|..] <==> !active)
  {
    var r := AfterToggle(st, action, reload);
    var tail := if action.ActionDone? then [GetSchedule(SCHEDULE_ID)] else [];
    ToggleCalls(st, action, reload);
    assert r.calls == st.calls + ([ToggleCall(st.schedule.value)] + tail);
    assert r.calls[|st.calls|..] == [ToggleCall(st.schedule.value)] + tail;
  }

  /**
   * No optimistic flip: after a toggle the shown schedule is the one shown before,
   * unless the pause or resume went through and the fetch after it returned a
   * schedule, which then is shown.
   */
  lemma ToggleShowsFetchedSchedule(st: ScheduleState, action: ActionOutcome, reload: ScheduleOutcome)
    ensures var r := AfterToggle(st, action, reload);
      if HasSchedule(st) && action.ActionDone? && ScheduleLoaded(reload)
      then r.schedule == reload.schedule
      else r.schedule == st.schedule
  {
  }

  /** Run now triggers, then fetches the runs only: the schedule is never fetched or changed. */
  lemma RunNowReloadsLogsOnly(st: ScheduleState, action: ActionOutcome, logs: LogsOutcome)
    ensures var r := AfterRunNow(st, action, logs);
      && r.calls == st.calls + [Trigger(SCHEDULE_ID)] + (if action.ActionDone? then [GetLogs(SCHEDULE_ID, LOG_LIMIT)] else [])
      && r.schedule == st.schedule && r.loading == st.loading && !r.actionLoading
      && (action.ActionThrew? ==> r.error == TRIGGER_FAILED && r.logs == st.logs)
  {
  }

  /** A failed fetch of the runs, whether it threw or returned no array, leaves the runs and the error as they were. */
  lemma FailedLogsKeepState(st: ScheduleState, o: LogsOutcome)
    requires !LogsLoaded(o)
    ensures var r := AfterLoadLogs(st, o);
      r.logs == st.logs && r.error == st.error && r.schedule == st.schedule && !r.logsLoading
  {
  }

  /**
   * Fetching the schedule: success shows it and keeps any earlier error; a
   * failure keeps the schedule and shows the response's error text, or the
   * fixed text when there is none or the call threw.
   */
  lemma LoadScheduleOutcomes(st: ScheduleState, o: ScheduleOutcome)
    ensures var r := AfterLoadSchedule(st, o);
      && !r.loading && r.logs == st.logs
      && (ScheduleLoaded(o) ==> r.schedule == o.schedule && r.error == st.error)
      && (!ScheduleLoaded(o) ==> r.schedule == st.schedule)
      && (o.ScheduleThrew? ==> r.error == LOAD_FAILED)
      && (o.ScheduleReturned? && !ScheduleLoaded(o) && o.errorText != "" ==> r.error == o.errorText)
      && (o.ScheduleReturned? && !ScheduleLoaded(o) && o.errorText == "" ==> r.error == LOAD_FAILED)
  {
  }

  /** After the mount effect the screen is no longer loading, and it made exactly the two fetches, in order. */
  lemma MountFetchesBoth(s: ScheduleOutcome, l: LogsOutcome)
    ensures var r := AfterMountSchedule(SCHEDULE_INITIAL, s, l);
      && r.calls == [GetSchedule(SCHEDULE_ID), GetLogs(SCHEDULE_ID, LOG_LIMIT)]
      && !r.loading && !r.logsLoading
      && (LogsLoaded(l) ==> r.logs == l.executions.value.items)
      && (!LogsLoaded(l) ==> r.logs == [])
  {
  }

  /**
   * Only the dismiss button clears the error banner: the two fetches, the toggle
   * and run-now may replace an error but never clear it, whatever their outcome.
   */
  lemma OnlyDismissClearsError(st: ScheduleState, so: ScheduleOutcome, lo: LogsOutcome, action: ActionOutcome)
    requires st.error != ""
    ensures AfterLoadSchedule(st, so).error != ""
    ensures AfterLoadLogs(st, lo).error != ""
    ensures AfterToggle(st, action, so).error != ""
    ensures AfterRunNow(st, action, lo).error != ""
    ensures AfterDismissError(st).error == "" && AfterDismissError(st).(error := st.error) == st
  {
  }

  /** Every schedule the screen shows is truthy: nothing but a fetch that returned a truthy one stores a schedule. */
  predicate ShowsTruthySchedule(st: ScheduleState) {
    st.schedule.None? || Truthy(st.schedule.value)
  }

  /** The two fetches keep `ShowsTruthySchedule`, and it holds before mount. */
  lemma FetchesKeepTruthySchedule(st: ScheduleState, so: ScheduleOutcome, lo: LogsOutcome)
    requires ShowsTruthySchedule(st)
    ensures ShowsTruthySchedule(SCHEDULE_INITIAL)
    ensures ShowsTruthySchedule(AfterLoadSchedule(st, so))
    ensures ShowsTruthySchedule(AfterLoadLogs(st, lo))
    ensures ShowsTruthySchedule(AfterMountSchedule(st, so, lo))
  {
    assert ShowsTruthySchedule(AfterLoadSchedule(st, so));
  }

  /** The buttons keep `ShowsTruthySchedule` too, so it holds on every screen the handlers can reach. */
  lemma ActionsKeepTruthySchedule(st: ScheduleState, so: ScheduleOutcome, lo: LogsOutcome, action: ActionOutcome)
    requires ShowsTruthySchedule(st)
    ensures ShowsTruthySchedule(AfterToggle(st, action, so))
    ensures ShowsTruthySchedule(AfterRunNow(st, action, lo))
    ensures ShowsTruthySchedule(AfterDismissError(st))
  {
    if HasSchedule(st) && action.ActionDone? {
      var sent := st.(actionLoading := true, calls := st.calls + [ToggleCall(st.schedule.value)]);
      FetchesKeepTruthySchedule(sent, so, lo);
    }
    if action.ActionDone? {
      var sent := st.(actionLoading := true, calls := st.calls + [Trigger(SCHEDULE_ID)]);
      FetchesKeepTruthySchedule(sent, so, lo);
    }
  }

  /** On a screen that keeps `ShowsTruthySchedule`, the toggle's `!schedule` test is the same as "no schedule shown". */
  lemma ToggleTestOnTruthySchedule(st: ScheduleState)
    requires ShowsTruthySchedule(st)
    ensures HasSchedule(st) <==> st.schedule.Some?
  {
  }
}
