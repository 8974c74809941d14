/** The application's own records (internal/models): users, live tasks,
    archived tasks and the request payloads. */
module Models {
  import opened Wrappers

  /** A UUID: Go's `uuid.UUID` is a `[16]byte`. */
  type Uuid = b: seq<bv8> | |b| == 16 witness ZeroUuid

  /** The zero UUID, the value of an unset `uuid.UUID` field. */
  const ZeroUuid: seq<bv8> := [0, 0, 0, 0, 0, 0, 0, 0, 0, 0, 0, 0, 0, 0, 0, 0]

  /** An instant, counted from Go's zero `time.Time`. */
  type Time = int

  /** The zero `time.Time`, the value of an unset time field. */
  const ZeroTime: Time := 0

  /** A Postgres interval as the store renders it; never parsed here. */
  type Duration = string

  datatype CreateTaskPayload = CreateTaskPayload(name: string)

  /** A live task; `endTime` is nil while the task runs. */
  datatype Task = Task(uuid: Uuid, userUuid: Uuid, name: string, startTime: Time, endTime: Option<Time>)

  datatype TaskHistory = TaskHistory(
    uuid: Uuid, taskUuid: Uuid, userUuid: Uuid, name: string, startTime: Time, endTime: Time)

  datatype CompletedTask = CompletedTask(name: string, duration: Duration)

  datatype TasksResult = TasksResult(totalDuration: Duration, completedTask: seq<CompletedTask>)

  datatype CreateUserPayload = CreateUserPayload(
    passportNumber: string, surname: string, name: string, patronymic: Option<string>, address: string)

  /** A partial update: nil fields are left as they are. */
  datatype UpdateUserPayload = UpdateUserPayload(
    passportNumber: Option<string>, surname: Option<string>, name: Option<string>,
    patronymic: Option<string>, address: Option<string>)

  datatype User = User(
    uuid: Uuid, passportNumber: string, surname: string, name: string, patronymic: Option<string>,
    address: string, createdAt: Time, updatedAt: Time)
}

/** The store's side of the records: pgx's nullable column types and the rows
    and query parameters of the generated `Querier`. The generated code is not
    part of this model; the fields are those the services read and write. */
module Db {
  import opened Models

  /** `pgtype.Text`: a string column that may be NULL (`valid == false`). */
  datatype PgText = PgText(str: string, valid: bool)

  /** `pgtype.UUID`. */
  datatype PgUuid = PgUuid(bytes: Uuid, valid: bool)

  /** `pgtype.Timestamp`. */
  datatype PgTimestamp = PgTimestamp(time: Time, valid: bool)

  /** The NULL text value, `pgtype.Text{Valid: false}`. */
  const NullText: PgText := PgText("", false)

  /** A row of `users`. */
  datatype DbUser = DbUser(
    uuid: PgUuid, passportNumber: string, surname: string, name: string, patronymic: PgText,
    address: string, createdAt: PgTimestamp, updatedAt: PgTimestamp)

  /** A row of `tasks`: a task that has not been archived yet. */
  datatype DbTask = DbTask(uuid: PgUuid, userUuid: PgUuid, name: string, startTime: PgTimestamp, endTime: PgTimestamp)

  /** A row of `task_history`; `duration` is computed by the store. */
  datatype DbTaskHistory = DbTaskHistory(
    uuid: PgUuid, taskUuid: PgUuid, userUuid: PgUuid, name: string,
    startTime: PgTimestamp, endTime: PgTimestamp, duration: Duration)

  /** A row of the per-period aggregation: one task name, its summed duration
      and the grand total (the same on every row). */
  datatype TaskResultRow = TaskResultRow(taskName: string, duration: Duration, totalDuration: Duration)

  datatype CreateTaskParams = CreateTaskParams(userUuid: PgUuid, name: string)

  datatype CreateTaskHistoryParams = CreateTaskHistoryParams(
    userUuid: PgUuid, name: string, startTime: PgTimestamp, endTime: PgTimestamp)

  /** `intervalDays` is the `Days` of the `pgtype.Interval` passed as the window. */
  datatype GetTasksResultByPeriodParams = GetTasksResultByPeriodParams(userUuid: PgUuid, intervalDays: int)

  datatype CreateUserParams = CreateUserParams(
    passportNumber: string, name: string, surname: string, patronymic: PgText, address: string)

  /** Filters are NULL when not requested. */
  datatype GetUsersParams = GetUsersParams(
    userLimit: int, userOffset: int, passportNumber: PgText, name: PgText, surname: PgText,
    patronymic: PgText, address: PgText)

  /** NULL columns are left unchanged by the update. */
  datatype UpdateUserByUUIDParams = UpdateUserByUUIDParams(
    userUuid: PgUuid, name: PgText, surname: PgText, patronymic: PgText, address: PgText, passportNumber: PgText)
}
