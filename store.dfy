/** The database behind the generated `Querier`, modelled abstractly: the
    rows of `users`, `tasks` and `task_history`, the schema's constraints as
    the contract of each query, and a trace of the queries issued.

    Everything the store decides that the model does not compute comes in
    through an `Env`: the clock (`now()`), freshly generated UUIDs, the interval
    text the store renders for a finished task, the answers of the two queries
    whose SQL is not modelled (the per-period aggregation and the filtered user
    listing), and, per step of a service call, a driver failure that makes that
    step fail without changing anything. */
module Store {
  import opened Wrappers
  import opened Models
  import opened Db
  import opened Errors

  /** The rows. The unique constraint on `tasks.user_uuid` makes the live tasks
      a map from user to that user's single task row. */
  datatype State = State(users: map<Uuid, DbUser>, tasks: map<Uuid, DbTask>, history: seq<DbTaskHistory>)

  /** The schema's invariants: rows are keyed by their own UUID, every live
      task references an existing user, passport numbers are unique. */
  ghost predicate Valid(s: State) {
    && (forall u :: u in s.users ==> s.users[u].uuid == PgUuid(u, true))
    && (forall u :: u in s.tasks ==> u in s.users && s.tasks[u].userUuid == PgUuid(u, true))
    && (forall u, v :: u in s.users && v in s.users && u != v ==>
          s.users[u].passportNumber != s.users[v].passportNumber)
  }

  /** A query issued to the store, with its parameters. */
  datatype Call =
    | GetUserByUUID(id: PgUuid)
    | GetUserByPassportNumber(passportNumber: string)
    | GetUsers(usersParams: GetUsersParams)
    | CreateUser(userParams: CreateUserParams)
    | UpdateUserByUUID(updateParams: UpdateUserByUUIDParams)
    | DeleteUserByUUID(id: PgUuid)
    | CreateTask(taskParams: CreateTaskParams)
    | UpdateTaskEndTime(id: PgUuid)
    | CreateTaskHistory(historyParams: CreateTaskHistoryParams)
    | DeleteTask(id: PgUuid)
    | GetTasksResultByPeriod(periodParams: GetTasksResultByPeriodParams)

  /** What the store and the clock decide during one service call. */
  datatype Env = Env(
    now: Time,
    freshId: Uuid,
    duration: Duration,
    taskRows: seq<TaskResultRow>,
    userRows: seq<DbUser>,
    faults: seq<Option<StoreError>>)

  /** The driver failure injected at step `step` of a call, if any. */
  function FaultAt(env: Env, step: nat): Option<StoreError> {
    if step < |env.faults| then env.faults[step] else None
  }

  /** No step of the call fails for reasons outside the schema. */
  predicate Reliable(env: Env) {
    forall k :: 0 <= k < |env.faults| ==> env.faults[k].None?
  }

  /** The outcome of one service call: the new rows, the queries it issued in
      order, and what it returned. */
  datatype Run<+X> = Run(state: State, calls: seq<Call>, result: Result<X, Error>)

  // ---------------------------------------------------------------------------
  // The queries, one function each

  function GetUserByUUIDOp(s: State, id: PgUuid, fault: Option<StoreError>): Result<DbUser, StoreError> {
    if fault.Some? then Failure(fault.value)
    else if id.valid && id.bytes in s.users then Success(s.users[id.bytes])
    else Failure(NoRows)
  }

  /** The users holding a passport number. */
  function PassportOwners(s: State, passportNumber: string): set<Uuid> {
    set u | u in s.users && s.users[u].passportNumber == passportNumber
  }

  ghost function GetUserByPassportNumberOp(s: State, passportNumber: string, fault: Option<StoreError>)
    : Result<DbUser, StoreError>
  {
    if fault.Some? then Failure(fault.value)
    else if PassportOwners(s, passportNumber) == {} then Failure(NoRows)
    else
      var u :| u in PassportOwners(s, passportNumber);
      Success(s.users[u])
  }

  /** The filtering and paging of `GetUsers` is done by SQL that is not part of
      this model; the rows are the store's answer. */
  function GetUsersOp(rows: seq<DbUser>, fault: Option<StoreError>): Result<seq<DbUser>, StoreError> {
    if fault.Some? then Failure(fault.value) else Success(rows)
  }

  /** A new user; the passport number and the UUID are unique. */
  function CreateUserOp(s: State, p: CreateUserParams, now: Time, id: Uuid, fault: Option<StoreError>)
    : (State, Result<DbUser, StoreError>)
  {
    if fault.Some? then (s, Failure(fault.value))
    else if id in s.users || PassportOwners(s, p.passportNumber) != {} then
      (s, Failure(PgError(UniqueViolationCode)))
    else
      var row := DbUser(PgUuid(id, true), p.passportNumber, p.surname, p.name, p.patronymic, p.address,
                        PgTimestamp(now, true), PgTimestamp(now, true));
      (s.(users := s.users[id := row]), Success(row))
  }

  /** The column value after `COALESCE(param, column)`. */
  function Coalesce(param: PgText, current: string): string {
    if param.valid then param.str else current
  }

  /** A partial update: the columns whose parameter is NULL keep their value,
      the passport number stays unique, and `updated_at` becomes `now`. */
  function UpdateUserByUUIDOp(s: State, p: UpdateUserByUUIDParams, now: Time, fault: Option<StoreError>)
    : (State, Result<DbUser, StoreError>)
  {
    if fault.Some? then (s, Failure(fault.value))
    else if !p.userUuid.valid || p.userUuid.bytes !in s.users then (s, Failure(NoRows))
    else
      var u := p.userUuid.bytes;
      var cur := s.users[u];
      var row := cur.(
        passportNumber := Coalesce(p.passportNumber, cur.passportNumber),
        surname := Coalesce(p.surname, cur.surname),
        name := Coalesce(p.name, cur.name),
        patronymic := if p.patronymic.valid then p.patronymic else cur.patronymic,
        address := Coalesce(p.address, cur.address),
        updatedAt := PgTimestamp(now, true));
      if PassportOwners(s, row.passportNumber) - {u} != {} then (s, Failure(PgError(UniqueViolationCode)))
      else (s.(users := s.users[u := row]), Success(row))
  }

  /** Deleting a user who still has a live task violates the foreign key of
      `tasks.user_uuid`; deleting a missing user deletes nothing. */
  function DeleteUserByUUIDOp(s: State, id: PgUuid, fault: Option<StoreError>): (State, Result<(), StoreError>) {
    if fault.Some? then (s, Failure(fault.value))
    else if !id.valid then (s, Success(()))
    else if id.bytes in s.tasks then (s, Failure(PgError(ForeignKeyViolationCode)))
    else (s.(users := s.users - {id.bytes}), Success(()))
  }

  predicate TaskIdTaken(s: State, id: Uuid) {
    exists u :: u in s.tasks && s.tasks[u].uuid.bytes == id
  }

  /** A new running task: at most one per user, for an existing user. */
  function CreateTaskOp(s: State, p: CreateTaskParams, now: Time, id: Uuid, fault: Option<StoreError>)
    : (State, Result<DbTask, StoreError>)
    requires p.userUuid.valid
  {
    var u := p.userUuid.bytes;
    if fault.Some? then (s, Failure(fault.value))
    else if u in s.tasks || TaskIdTaken(s, id) then (s, Failure(PgError(UniqueViolationCode)))
    else if u !in s.users then (s, Failure(PgError(ForeignKeyViolationCode)))
    else
      var row := DbTask(PgUuid(id, true), p.userUuid, p.name, PgTimestamp(now, true), PgTimestamp(ZeroTime, false));
      (s.(tasks := s.tasks[u := row]), Success(row))
  }

  /** Sets `end_time = now()` on the user's task row and returns the row. */
  function UpdateTaskEndTimeOp(s: State, id: PgUuid, now: Time, fault: Option<StoreError>)
    : (State, Result<DbTask, StoreError>)
  {
    if fault.Some? then (s, Failure(fault.value))
    else if !id.valid || id.bytes !in s.tasks then (s, Failure(NoRows))
    else
      var row := s.tasks[id.bytes].(endTime := PgTimestamp(now, true));
      (s.(tasks := s.tasks[id.bytes := row]), Success(row))
  }

  predicate HistoryIdTaken(s: State, id: Uuid) {
    exists i :: 0 <= i < |s.history| && s.history[i].uuid.bytes == id
  }

  /** Appends a history row. The parameters carry no task UUID, so that column
      is NULL; the duration is the store's rendering of end minus start. */
  function CreateTaskHistoryOp(s: State, p: CreateTaskHistoryParams, id: Uuid, duration: Duration,
                               fault: Option<StoreError>)
    : (State, Result<DbTaskHistory, StoreError>)
  {
    if fault.Some? then (s, Failure(fault.value))
    else if HistoryIdTaken(s, id) then (s, Failure(PgError(UniqueViolationCode)))
    else
      var row := DbTaskHistory(PgUuid(id, true), PgUuid(ZeroUuid, false), p.userUuid, p.name,
                               p.startTime, p.endTime, duration);
      (s.(history := s.history + [row]), Success(row))
  }

  /** Deletes the user's task row, if there is one. */
  function DeleteTaskOp(s: State, id: PgUuid, fault: Option<StoreError>): (State, Result<(), StoreError>) {
    if fault.Some? then (s, Failure(fault.value))
    else if id.valid then (s.(tasks := s.tasks - {id.bytes}), Success(()))
    else (s, Success(()))
  }

  /** The per-name aggregation over the window is SQL that is not part of this
      model; the rows are the store's answer. */
  function GetTasksResultByPeriodOp(rows: seq<TaskResultRow>, fault: Option<StoreError>)
    : Result<seq<TaskResultRow>, StoreError>
  {
    if fault.Some? then Failure(fault.value) else Success(rows)
  }

  // ---------------------------------------------------------------------------
  // The schema's invariants hold after every query

  lemma CreateUserOpValid(s: State, p: CreateUserParams, now: Time, id: Uuid, fault: Option<StoreError>)
    requires Valid(s)
    ensures Valid(CreateUserOp(s, p, now, id, fault).0)
  {
    var (s', r) := CreateUserOp(s, p, now, id, fault);
    if r.Success? {
      forall u | u in s.users ensures s.users[u].passportNumber != p.passportNumber {
        assert u !in PassportOwners(s, p.passportNumber);
      }
    }
  }

  lemma UpdateUserByUUIDOpValid(s: State, p: UpdateUserByUUIDParams, now: Time, fault: Option<StoreError>)
    requires Valid(s)
    ensures Valid(UpdateUserByUUIDOp(s, p, now, fault).0)
  {
    var (s', r) := UpdateUserByUUIDOp(s, p, now, fault);
    if r.Success? {
      var u := p.userUuid.bytes;
      forall v | v in s.users && v != u ensures s.users[v].passportNumber != r.value.passportNumber {
        assert v !in PassportOwners(s, r.value.passportNumber) - {u};
      }
    }
  }

  lemma DeleteUserByUUIDOpValid(s: State, id: PgUuid, fault: Option<StoreError>)
    requires Valid(s)
    ensures Valid(DeleteUserByUUIDOp(s, id, fault).0)
  {
  }

  lemma CreateTaskOpValid(s: State, p: CreateTaskParams, now: Time, id: Uuid, fault: Option<StoreError>)
    requires Valid(s) && p.userUuid.valid
    ensures Valid(CreateTaskOp(s, p, now, id, fault).0)
  {
  }

  lemma UpdateTaskEndTimeOpValid(s: State, id: PgUuid, now: Time, fault: Option<StoreError>)
    requires Valid(s)
    ensures Valid(UpdateTaskEndTimeOp(s, id, now, fault).0)
  {
  }

  lemma CreateTaskHistoryOpValid(s: State, p: CreateTaskHistoryParams, id: Uuid, duration: Duration,
                                 fault: Option<StoreError>)
    requires Valid(s)
    ensures Valid(CreateTaskHistoryOp(s, p, id, duration, fault).0)
  {
  }

  lemma DeleteTaskOpValid(s: State, id: PgUuid, fault: Option<StoreError>)
    requires Valid(s)
    ensures Valid(DeleteTaskOp(s, id, fault).0)
  {
  }

  // ---------------------------------------------------------------------------
  // The store as an object whose rows the queries change in place

  class Querier {
    var users: map<Uuid, DbUser>
    var tasks: map<Uuid, DbTask>
    var history: seq<DbTaskHistory>
    /** Every query issued so far, in order. */
    ghost var calls: seq<Call>

    function Rows(): State
      reads this
    {
      State(users, tasks, history)
    }

    constructor (init: State)
      ensures Rows() == init && calls == []
    {
      users, tasks, history := init.users, init.tasks, init.history;
      calls := [];
    }

    method GetUserByUUID(id: PgUuid, fault: Option<StoreError>) returns (r: Result<DbUser, StoreError>)
      modifies this`calls
      ensures r == GetUserByUUIDOp(Rows(), id, fault)
      ensures calls == old(calls) + [Call.GetUserByUUID(id)]
    {
      calls := calls + [Call.GetUserByUUID(id)];
      r := GetUserByUUIDOp(Rows(), id, fault);
    }

    method GetUserByPassportNumber(passportNumber: string, fault: Option<StoreError>)
      returns (r: Result<DbUser, StoreError>)
      requires Valid(Rows())
      modifies this`calls
      ensures r == GetUserByPassportNumberOp(Rows(), passportNumber, fault)
      ensures calls == old(calls) + [Call.GetUserByPassportNumber(passportNumber)]
    {
      calls := calls + [Call.GetUserByPassportNumber(passportNumber)];
      var owners := PassportOwners(Rows(), passportNumber);
      if fault.Some? {
        r := Failure(fault.value);
      } else if owners == {} {
        r := Failure(NoRows);
      } else {
        var u :| u in owners;
        r := Success(users[u]);
        ghost var w :| w in owners && GetUserByPassportNumberOp(Rows(), passportNumber, fault) == Success(users[w]);
        assert u == w;
      }
    }

    method GetUsers(p: GetUsersParams, rows: seq<DbUser>, fault: Option<StoreError>)
      returns (r: Result<seq<DbUser>, StoreError>)
      modifies this`calls
      ensures r == GetUsersOp(rows, fault)
      ensures calls == old(calls) + [Call.GetUsers(p)]
    {
      calls := calls + [Call.GetUsers(p)];
      r := GetUsersOp(rows, fault);
    }

    method CreateUser(p: CreateUserParams, now: Time, id: Uuid, fault: Option<StoreError>)
      returns (r: Result<DbUser, StoreError>)
      modifies this
      ensures (Rows(), r) == CreateUserOp(old(Rows()), p, now, id, fault)
      ensures calls == old(calls) + [Call.CreateUser(p)]
    {
      calls := calls + [Call.CreateUser(p)];
      var (s, res) := CreateUserOp(Rows(), p, now, id, fault);
      users, tasks, history, r := s.users, s.tasks, s.history, res;
    }

    method UpdateUserByUUID(p: UpdateUserByUUIDParams, now: Time, fault: Option<StoreError>)
      returns (r: Result<DbUser, StoreError>)
      modifies this
      ensures (Rows(), r) == UpdateUserByUUIDOp(old(Rows()), p, now, fault)
      ensures calls == old(calls) + [Call.UpdateUserByUUID(p)]
    {
      calls := calls + [Call.UpdateUserByUUID(p)];
      var (s, res) := UpdateUserByUUIDOp(Rows(), p, now, fault);
      users, tasks, history, r := s.users, s.tasks, s.history, res;
    }

    method DeleteUserByUUID(id: PgUuid, fault: Option<StoreError>) returns (r: Result<(), StoreError>)
      modifies this
      ensures (Rows(), r) == DeleteUserByUUIDOp(old(Rows()), id, fault)
      ensures calls == old(calls) + [Call.DeleteUserByUUID(id)]
    {
      calls := calls + [Call.DeleteUserByUUID(id)];
      var (s, res) := DeleteUserByUUIDOp(Rows(), id, fault);
      users, tasks, history, r := s.users, s.tasks, s.history, res;
    }

    method CreateTask(p: CreateTaskParams, now: Time, id: Uuid, fault: Option<StoreError>)
      returns (r: Result<DbTask, StoreError>)
      requires p.userUuid.valid
      modifies this
      ensures (Rows(), r) == CreateTaskOp(old(Rows()), p, now, id, fault)
      ensures calls == old(calls) + [Call.CreateTask(p)]
    {
      calls := calls + [Call.CreateTask(p)];
      var (s, res) := CreateTaskOp(Rows(), p, now, id, fault);
      users, tasks, history, r := s.users, s.tasks, s.history, res;
    }

    method UpdateTaskEndTime(id: PgUuid, now: Time, fault: Option<StoreError>) returns (r: Result<DbTask, StoreError>)
      modifies this
      ensures (Rows(), r) == UpdateTaskEndTimeOp(old(Rows()), id, now, fault)
      ensures calls == old(calls) + [Call.UpdateTaskEndTime(id)]
    {
      calls := calls + [Call.UpdateTaskEndTime(id)];
      var (s, res) := UpdateTaskEndTimeOp(Rows(), id, now, fault);
      users, tasks, history, r := s.users, s.tasks, s.history, res;
    }

    method CreateTaskHistory(p: CreateTaskHistoryParams, id: Uuid, duration: Duration, fault: Option<StoreError>)
      returns (r: Result<DbTaskHistory, StoreError>)
      modifies this
      ensures (Rows(), r) == CreateTaskHistoryOp(old(Rows()), p, id, duration, fault)
      ensures calls == old(calls) + [Call.CreateTaskHistory(p)]
    {
      calls := calls + [Call.CreateTaskHistory(p)];
      var (s, res) := CreateTaskHistoryOp(Rows(), p, id, duration, fault);
      users, tasks, history, r := s.users, s.tasks, s.history, res;
    }

    method DeleteTask(id: PgUuid, fault: Option<StoreError>) returns (r: Result<(), StoreError>)
      modifies this
      ensures (Rows(), r) == DeleteTaskOp(old(Rows()), id, fault)
      ensures calls == old(calls) + [Call.DeleteTask(id)]
    {
      calls := calls + [Call.DeleteTask(id)];
      var (s, res) := DeleteTaskOp(Rows(), id, fault);
      users, tasks, history, r := s.users, s.tasks, s.history, res;
    }

    method GetTasksResultByPeriod(p: GetTasksResultByPeriodParams, rows: seq<TaskResultRow>,
                                  fault: Option<StoreError>)
      returns (r: Result<seq<TaskResultRow>, StoreError>)
      modifies this`calls
      ensures r == GetTasksResultByPeriodOp(rows, fault)
      ensures calls == old(calls) + [Call.GetTasksResultByPeriod(p)]
    {
      calls := calls + [Call.GetTasksResultByPeriod(p)];
      r := GetTasksResultByPeriodOp(rows, fault);
    }
  }
}
