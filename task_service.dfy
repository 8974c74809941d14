/** The task lifecycle (internal/service/task.go): starting a task, finishing
    it (set the end time, archive it, delete the live row) and reporting the
    durations of a trailing window of days.

    Each operation is specified by a function from the store's rows and the
    environment to a `Run` (new rows, queries issued, result); the methods of
    `TaskService` run the queries in place and are proved to agree with it,
    and the lemmas state what the source promises about it. */
module TaskService {
  import opened Wrappers
  import opened Models
  import opened Db
  import opened Errors
  import opened Utils
  import opened Store
  import opened GoLib

  /** How `CreateTask` classifies a store failure: the foreign-key and the
      unique-constraint SQLSTATEs become the service's sentinels, anything
      else is returned as it is. */
  function ClassifyCreateTaskError(e: StoreError): (r: Error)
    ensures r == ErrForeignKeyViolation <==> e == PgError(ForeignKeyViolationCode)
    ensures r == ErrTaskAlreadyExists <==> e == PgError(UniqueViolationCode)
    ensures r != ErrForeignKeyViolation && r != ErrTaskAlreadyExists ==> r == FromStore(e)
  {
    if e.PgError? then
      match e.code
      case "23503" => ErrForeignKeyViolation
      case "23505" => ErrTaskAlreadyExists
      case _ => FromStore(e)
    else FromStore(e)
  }

  /** How a one-row lookup's failure is reported: "no rows" becomes the given
      sentinel, anything else is returned as it is. */
  function ClassifyLookupError(e: StoreError, notFound: Error): (r: Error)
    requires !notFound.FromStore?
    ensures r == notFound <==> e == NoRows
    ensures e != NoRows ==> r == FromStore(e)
  {
    if e == NoRows then notFound else FromStore(e)
  }

  // ---------------------------------------------------------------------------
  // CreateTask

  function CreateTaskSpec(s: State, userUUID: Uuid, payload: CreateTaskPayload, env: Env): Run<Task> {
    var params := CreateTaskParams(PgUuid(userUUID, true), payload.name);
    var (s1, taskRaw) := CreateTaskOp(s, params, env.now, env.freshId, FaultAt(env, 0));
    var calls := [Call.CreateTask(params)];
    match taskRaw
    case Failure(e) => Run(s1, calls, Failure(ClassifyCreateTaskError(e)))
    case Success(row) =>
      match ConvertDBTaskToModelsTask(row)
      case Failure(e) => Run(s1, calls, Failure(Message("error converting user")))
      case Success(task) => Run(s1, calls, Success(task))
  }

  /** A user who already has a live task cannot start another: the call fails
      with ErrTaskAlreadyExists and no row changes. */
  lemma CreateTaskWhileActive(s: State, userUUID: Uuid, payload: CreateTaskPayload, env: Env)
    requires userUUID in s.tasks && FaultAt(env, 0).None?
    ensures CreateTaskSpec(s, userUUID, payload, env).result == Failure(ErrTaskAlreadyExists)
    ensures CreateTaskSpec(s, userUUID, payload, env).state == s
  {
  }

  /** Starting a task for a user the store does not know is a foreign-key
      violation, and no row changes. */
  lemma CreateTaskUnknownUser(s: State, userUUID: Uuid, payload: CreateTaskPayload, env: Env)
    requires Valid(s) && userUUID !in s.users && !TaskIdTaken(s, env.freshId) && FaultAt(env, 0).None?
    ensures CreateTaskSpec(s, userUUID, payload, env).result == Failure(ErrForeignKeyViolation)
    ensures CreateTaskSpec(s, userUUID, payload, env).state == s
  {
  }

  /** A user without a live task gets one that is running, named as asked and
      started now; nothing else changes. */
  lemma CreateTaskStarts(s: State, userUUID: Uuid, payload: CreateTaskPayload, env: Env)
    requires userUUID in s.users && userUUID !in s.tasks && !TaskIdTaken(s, env.freshId) && FaultAt(env, 0).None?
    ensures var run := CreateTaskSpec(s, userUUID, payload, env);
      && run.result == Success(Task(env.freshId, userUUID, payload.name, env.now, None))
      && run.state == s.(tasks := s.tasks[userUUID := TaskRow(run.result.value)])
  {
  }

  /** Whatever happens, a failed start changes no row. */
  lemma CreateTaskFailureChangesNothing(s: State, userUUID: Uuid, payload: CreateTaskPayload, env: Env)
    ensures CreateTaskSpec(s, userUUID, payload, env).result.Failure? ==>
      CreateTaskSpec(s, userUUID, payload, env).state == s
  {
  }

  // ---------------------------------------------------------------------------
  // FinishTask

  /** The four queries of a finish, in the order they are issued. */
  function FinishSteps(id: PgUuid, p: CreateTaskHistoryParams): seq<Call> {
    [Call.GetUserByUUID(id), Call.UpdateTaskEndTime(id), Call.CreateTaskHistory(p), Call.DeleteTask(id)]
  }

  /** The history parameters built from the row whose end time was just set. */
  function HistoryParams(id: PgUuid, taskRaw: DbTask): CreateTaskHistoryParams {
    CreateTaskHistoryParams(id, taskRaw.name, taskRaw.startTime, taskRaw.endTime)
  }

  function FinishTaskSpec(s: State, userUUID: Uuid, env: Env): Run<CompletedTask> {
    var id := PgUuid(userUUID, true);
    var c0 := [Call.GetUserByUUID(id)];
    var user := GetUserByUUIDOp(s, id, FaultAt(env, 0));
    if user.Failure? then Run(s, c0, Failure(ClassifyLookupError(user.error, ErrUserNotFound)))
    else
      var c1 := c0 + [Call.UpdateTaskEndTime(id)];
      var (s1, taskRaw) := UpdateTaskEndTimeOp(s, id, env.now, FaultAt(env, 1));
      if taskRaw.Failure? then Run(s1, c1, Failure(ClassifyLookupError(taskRaw.error, ErrTaskNotFound)))
      else
        var params := HistoryParams(id, taskRaw.value);
        var c2 := c1 + [Call.CreateTaskHistory(params)];
        var (s2, historyRaw) := CreateTaskHistoryOp(s1, params, env.freshId, env.duration, FaultAt(env, 2));
        if historyRaw.Failure? then Run(s2, c2, Failure(FromStore(historyRaw.error)))
        else
          var c3 := c2 + [Call.DeleteTask(id)];
          var (s3, deleted) := DeleteTaskOp(s2, id, FaultAt(env, 3));
          if deleted.Failure? then Run(s3, c3, Failure(FromStore(deleted.error)))
          else Run(s3, c3, Success(CompletedTask(historyRaw.value.name, historyRaw.value.duration)))
  }

  /** An unknown user is reported before anything is changed: one lookup, no
      other query, no row touched. */
  lemma FinishUnknownUser(s: State, userUUID: Uuid, env: Env)
    requires userUUID !in s.users && FaultAt(env, 0).None?
    ensures var run := FinishTaskSpec(s, userUUID, env);
      && run.result == Failure(ErrUserNotFound)
      && run.state == s
      && run.calls == [Call.GetUserByUUID(PgUuid(userUUID, true))]
  {
  }

  /** A known user without a live task gets ErrTaskNotFound: no history row is
      inserted, no delete is issued, no row changes. */
  lemma FinishWithoutLiveTask(s: State, userUUID: Uuid, env: Env)
    requires userUUID in s.users && userUUID !in s.tasks && FaultAt(env, 0).None? && FaultAt(env, 1).None?
    ensures var run := FinishTaskSpec(s, userUUID, env);
      && run.result == Failure(ErrTaskNotFound)
      && run.state == s
      && run.calls == [Call.GetUserByUUID(PgUuid(userUUID, true)), Call.UpdateTaskEndTime(PgUuid(userUUID, true))]
  {
  }

  /** A successful finish archives exactly the stopped task: one history row
      with the user's UUID and the task's name and start time, ending now; the
      live row is gone; the other users' rows are untouched. */
  lemma FinishArchives(s: State, userUUID: Uuid, env: Env)
    requires userUUID in s.users && userUUID in s.tasks && !HistoryIdTaken(s, env.freshId) && Reliable(env)
    ensures var run := FinishTaskSpec(s, userUUID, env);
      var task := s.tasks[userUUID];
      && run.result == Success(CompletedTask(task.name, env.duration))
      && |run.state.history| == |s.history| + 1
      && run.state.history[..|s.history|] == s.history
      && (var row := run.state.history[|s.history|];
          row.userUuid == PgUuid(userUUID, true) && row.name == task.name &&
          row.startTime == task.startTime && row.endTime == PgTimestamp(env.now, true) &&
          row.duration == env.duration)
      && run.state.tasks == s.tasks - {userUUID}
      && run.state.users == s.users
  {
    assert FaultAt(env, 0).None? && FaultAt(env, 1).None? && FaultAt(env, 2).None? && FaultAt(env, 3).None?;
  }

  /** The queries run strictly in the order lookup, update, insert, delete; a
      failure at a step stops the call there, so the queries issued are a
      proper prefix of the four exactly when the call fails before the
      delete, and all four when it succeeds. */
  lemma {:induction false} FinishStepOrder(s: State, userUUID: Uuid, env: Env)
    ensures var run := FinishTaskSpec(s, userUUID, env);
      exists p, k :: 1 <= k <= 4 && run.calls == FinishSteps(PgUuid(userUUID, true), p)[..k]
        && (k < 4 ==> run.result.Failure?)
    ensures var run := FinishTaskSpec(s, userUUID, env);
      run.result.Success? ==> |run.calls| == 4 && run.calls[3] == Call.DeleteTask(PgUuid(userUUID, true))
  {
    var id := PgUuid(userUUID, true);
    var run := FinishTaskSpec(s, userUUID, env);
    var user := GetUserByUUIDOp(s, id, FaultAt(env, 0));
    var dummy := CreateTaskHistoryParams(id, "", PgTimestamp(0, false), PgTimestamp(0, false));
    if user.Failure? {
      assert run.calls == FinishSteps(id, dummy)[..1];
    } else {
      var (s1, taskRaw) := UpdateTaskEndTimeOp(s, id, env.now, FaultAt(env, 1));
      if taskRaw.Failure? {
        assert run.calls == FinishSteps(id, dummy)[..2];
      } else {
        var p := HistoryParams(id, taskRaw.value);
        var (s2, historyRaw) := CreateTaskHistoryOp(s1, p, env.freshId, env.duration, FaultAt(env, 2));
        if historyRaw.Failure? {
          assert run.calls == FinishSteps(id, p)[..3];
        } else {
          assert run.calls == FinishSteps(id, p)[..4];
        }
      }
    }
  }

  /** No rollback: when the history insert fails, the task row keeps the end
      time just set and no history row is written. */
  lemma FinishInsertFailureKeepsEndTime(s: State, userUUID: Uuid, env: Env)
    requires userUUID in s.users && userUUID in s.tasks
    requires FaultAt(env, 0).None? && FaultAt(env, 1).None? && FaultAt(env, 2).Some?
    ensures var run := FinishTaskSpec(s, userUUID, env);
      && run.result == Failure(FromStore(FaultAt(env, 2).value))
      && run.state.history == s.history
      && userUUID in run.state.tasks
      && run.state.tasks[userUUID] == s.tasks[userUUID].(endTime := PgTimestamp(env.now, true))
  {
  }

  /** No rollback of the archive either: when the delete fails, the history row
      is written and the task row, with its end time set, is still there. */
  lemma FinishDeleteFailureKeepsBoth(s: State, userUUID: Uuid, env: Env)
    requires userUUID in s.users && userUUID in s.tasks && !HistoryIdTaken(s, env.freshId)
    requires FaultAt(env, 0).None? && FaultAt(env, 1).None? && FaultAt(env, 2).None? && FaultAt(env, 3).Some?
    ensures var run := FinishTaskSpec(s, userUUID, env);
      && run.result == Failure(FromStore(FaultAt(env, 3).value))
      && |run.state.history| == |s.history| + 1
      && userUUID in run.state.tasks
      && run.state.tasks[userUUID].endTime == PgTimestamp(env.now, true)
  {
  }

  /** Finishing keeps the schema's invariants. */
  lemma FinishTaskValid(s: State, userUUID: Uuid, env: Env)
    requires Valid(s)
    ensures Valid(FinishTaskSpec(s, userUUID, env).state)
  {
    var id := PgUuid(userUUID, true);
    var (s1, taskRaw) := UpdateTaskEndTimeOp(s, id, env.now, FaultAt(env, 1));
    UpdateTaskEndTimeOpValid(s, id, env.now, FaultAt(env, 1));
    if taskRaw.Success? {
      var params := HistoryParams(id, taskRaw.value);
      var (s2, historyRaw) := CreateTaskHistoryOp(s1, params, env.freshId, env.duration, FaultAt(env, 2));
      CreateTaskHistoryOpValid(s1, params, env.freshId, env.duration, FaultAt(env, 2));
      DeleteTaskOpValid(s2, id, FaultAt(env, 3));
    }
  }

  /** Start then stop, with nothing failing: exactly one history row is added,
      carrying the task's name and the user's UUID, and the user has no live
      task left. */
  lemma StartThenFinish(s: State, userUUID: Uuid, payload: CreateTaskPayload, startEnv: Env, stopEnv: Env)
    requires userUUID in s.users && userUUID !in s.tasks
    requires !TaskIdTaken(s, startEnv.freshId) && !HistoryIdTaken(s, stopEnv.freshId)
    requires Reliable(startEnv) && Reliable(stopEnv)
    ensures var started := CreateTaskSpec(s, userUUID, payload, startEnv);
      var stopped := FinishTaskSpec(started.state, userUUID, stopEnv);
      && stopped.result == Success(CompletedTask(payload.name, stopEnv.duration))
      && |stopped.state.history| == |s.history| + 1
      && stopped.state.history[|s.history|].name == payload.name
      && stopped.state.history[|s.history|].userUuid == PgUuid(userUUID, true)
      && stopped.state.history[|s.history|].startTime == PgTimestamp(startEnv.now, true)
      && userUUID !in stopped.state.tasks
  {
    assert FaultAt(startEnv, 0).None?;
    CreateTaskStarts(s, userUUID, payload, startEnv);
    var started := CreateTaskSpec(s, userUUID, payload, startEnv);
    FinishArchives(started.state, userUUID, stopEnv);
  }

  // ---------------------------------------------------------------------------
  // GetTasksResult

  /** The result entries, one per aggregated row, in the rows' order. */
  function CompletedTasksOf(rows: seq<TaskResultRow>): (r: seq<CompletedTask>)
    ensures |r| == |rows|
  {
    seq(|rows|, i requires 0 <= i < |rows| => CompletedTask(rows[i].taskName, rows[i].duration))
  }

  /** The window passed to the store: an interval of `int32(days)` days. */
  function PeriodParams(userUUID: Uuid, days: int): GetTasksResultByPeriodParams {
    GetTasksResultByPeriodParams(PgUuid(userUUID, true), WrapInt32(days))
  }

  function GetTasksResultSpec(s: State, userUUID: Uuid, days: int, env: Env): Run<TasksResult> {
    var id := PgUuid(userUUID, true);
    var c0 := [Call.GetUserByUUID(id)];
    var user := GetUserByUUIDOp(s, id, FaultAt(env, 0));
    if user.Failure? then Run(s, c0, Failure(ClassifyLookupError(user.error, ErrUserNotFound)))
    else
      var params := PeriodParams(userUUID, days);
      var c1 := c0 + [Call.GetTasksResultByPeriod(params)];
      var rows := GetTasksResultByPeriodOp(env.taskRows, FaultAt(env, 1));
      if rows.Failure? then Run(s, c1, Failure(FromStore(rows.error)))
      else if |rows.value| == 0 then Run(s, c1, Failure(ErrTaskNotFound))
      else Run(s, c1, Success(TasksResult(rows.value[0].totalDuration, CompletedTasksOf(rows.value))))
  }

  /** The report changes no row; the user is looked up before the window is
      queried, and the window is queried only for a known user. */
  lemma GetTasksResultChecksUserFirst(s: State, userUUID: Uuid, days: int, env: Env)
    ensures var run := GetTasksResultSpec(s, userUUID, days, env);
      && run.state == s
      && 1 <= |run.calls| <= 2
      && run.calls[0] == Call.GetUserByUUID(PgUuid(userUUID, true))
      && (|run.calls| == 2 <==> GetUserByUUIDOp(s, PgUuid(userUUID, true), FaultAt(env, 0)).Success?)
  {
  }

  /** The window handed to the store is exactly `days` days whenever `days`
      fits in 32 bits (the store's interval keeps only 32 bits of it). */
  lemma GetTasksResultWindow(s: State, userUUID: Uuid, days: int, env: Env)
    requires userUUID in s.users && FaultAt(env, 0).None?
    requires MinInt32 <= days <= MaxInt32
    ensures GetTasksResultSpec(s, userUUID, days, env).calls[1] ==
      Call.GetTasksResultByPeriod(GetTasksResultByPeriodParams(PgUuid(userUUID, true), days))
  {
  }

  /** Zero rows is reported as ErrTaskNotFound; otherwise the result lists one
      entry per row, in the rows' order, with the row's name and duration, and
      the total is row 0's. */
  lemma GetTasksResultRows(s: State, userUUID: Uuid, days: int, env: Env)
    requires userUUID in s.users && FaultAt(env, 0).None? && FaultAt(env, 1).None?
    ensures var run := GetTasksResultSpec(s, userUUID, days, env);
      && (env.taskRows == [] <==> run.result == Failure(ErrTaskNotFound))
      && (env.taskRows != [] ==>
            && run.result.Success?
            && run.result.value.totalDuration == env.taskRows[0].totalDuration
            && |run.result.value.completedTask| == |env.taskRows|
            && forall i :: 0 <= i < |env.taskRows| ==>
                 run.result.value.completedTask[i].name == env.taskRows[i].taskName &&
                 run.result.value.completedTask[i].duration == env.taskRows[i].duration)
  {
  }

  /** An unknown user is reported before the window is queried. */
  lemma GetTasksResultUnknownUser(s: State, userUUID: Uuid, days: int, env: Env)
    requires userUUID !in s.users && FaultAt(env, 0).None?
    ensures GetTasksResultSpec(s, userUUID, days, env).result == Failure(ErrUserNotFound)
    ensures |GetTasksResultSpec(s, userUUID, days, env).calls| == 1
  {
  }

  // ---------------------------------------------------------------------------
  // The service object

  class TaskService {
    const repository: Querier

    constructor (repository: Querier)
      ensures this.repository == repository
    {
      this.repository := repository;
    }

    method CreateTask(userUUID: Uuid, payload: CreateTaskPayload, env: Env) returns (r: Result<Task, Error>)
      modifies repository
      ensures var run := CreateTaskSpec(old(repository.Rows()), userUUID, payload, env);
        repository.Rows() == run.state && repository.calls == old(repository.calls) + run.calls && r == run.result
    {
      var params := CreateTaskParams(PgUuid(userUUID, true), payload.name);
      var taskRaw := repository.CreateTask(params, env.now, env.freshId, FaultAt(env, 0));
      if taskRaw.Failure? {
        var e := taskRaw.error;
        if e.PgError? {
          if e.code == ForeignKeyViolationCode {
            return Failure(ErrForeignKeyViolation);
          } else if e.code == UniqueViolationCode {
            return Failure(ErrTaskAlreadyExists);
          }
        }
        return Failure(FromStore(e));
      }
      var task := ConvertDBTaskToModelsTask(taskRaw.value);
      if task.Failure? {
        return Failure(Message("error converting user"));
      }
      return Success(task.value);
    }

    method FinishTask(userUUID: Uuid, env: Env) returns (r: Result<CompletedTask, Error>)
      modifies repository
      ensures var run := FinishTaskSpec(old(repository.Rows()), userUUID, env);
        repository.Rows() == run.state && repository.calls == old(repository.calls) + run.calls && r == run.result
    {
      var userPgUUID := PgUuid(userUUID, true);
      var user := repository.GetUserByUUID(userPgUUID, FaultAt(env, 0));
      if user.Failure? {
        if user.error == NoRows {
          return Failure(ErrUserNotFound);
        }
        return Failure(FromStore(user.error));
      }
      var taskRaw := repository.UpdateTaskEndTime(userPgUUID, env.now, FaultAt(env, 1));
      if taskRaw.Failure? {
        if taskRaw.error == NoRows {
          return Failure(ErrTaskNotFound);
        }
        return Failure(FromStore(taskRaw.error));
      }
      var params := CreateTaskHistoryParams(userPgUUID, taskRaw.value.name, taskRaw.value.startTime,
                                            taskRaw.value.endTime);
      var taskHistoryRaw := repository.CreateTaskHistory(params, env.freshId, env.duration, FaultAt(env, 2));
      if taskHistoryRaw.Failure? {
        return Failure(FromStore(taskHistoryRaw.error));
      }
      var deleted := repository.DeleteTask(userPgUUID, FaultAt(env, 3));
      if deleted.Failure? {
        return Failure(FromStore(deleted.error));
      }
      return Success(CompletedTask(taskHistoryRaw.value.name, taskHistoryRaw.value.duration));
    }

    method GetTasksResult(userUUID: Uuid, days: int, env: Env) returns (r: Result<TasksResult, Error>)
      modifies repository
      ensures var run := GetTasksResultSpec(old(repository.Rows()), userUUID, days, env);
        repository.Rows() == run.state && repository.calls == old(repository.calls) + run.calls && r == run.result
    {
      var userPgUUID := PgUuid(userUUID, true);
      var user := repository.GetUserByUUID(userPgUUID, FaultAt(env, 0));
      if user.Failure? {
        if user.error == NoRows {
          return Failure(ErrUserNotFound);
        }
        return Failure(FromStore(user.error));
      }
      var params := GetTasksResultByPeriodParams(userPgUUID, WrapInt32(days));
      var rowsRaw := repository.GetTasksResultByPeriod(params, env.taskRows, FaultAt(env, 1));
      if rowsRaw.Failure? {
        return Failure(FromStore(rowsRaw.error));
      }
      var rows := rowsRaw.value;
      if |rows| == 0 {
        return Failure(ErrTaskNotFound);
      }
      var completedTasks := new CompletedTask[|rows|](_ => CompletedTask("", ""));
      for i := 0 to |rows|
        modifies completedTasks
        invariant completedTasks[..i] == CompletedTasksOf(rows)[..i]
      {
        completedTasks[i] := CompletedTask(rows[i].taskName, rows[i].duration);
      }
      assert completedTasks[..] == CompletedTasksOf(rows);
      return Success(TasksResult(rows[0].totalDuration, completedTasks[..]));
    }
  }
}
