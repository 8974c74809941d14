/** Conversions between the store's nullable rows and the application's
    records (pkg/utils/utils.go). */
module Utils {
  import opened Wrappers
  import opened Models
  import opened Db
  import opened Errors

  /** `uuid.UUID.UnmarshalBinary`: accepts exactly 16 bytes. */
  function UnmarshalUuid(b: seq<bv8>): (r: Result<Uuid, Error>)
    ensures r.Success? <==> |b| == 16
    ensures r.Success? ==> r.value == b
  {
    if |b| == 16 then Success(b) else Failure(Message("invalid UUID length"))
  }

  /** `uuid.FromBytes` with its error discarded, as the history converter does:
      the zero UUID when the bytes are rejected. */
  function UuidFromBytesOrZero(b: seq<bv8>): Uuid {
    match UnmarshalUuid(b)
    case Success(id) => id
    case Failure(_) => ZeroUuid
  }

  /** How a nullable text column is read back into an optional string: nil
      exactly when the column is NULL. */
  function TextOption(t: PgText): (s: Option<string>)
    ensures s.None? <==> !t.valid
    ensures s.Some? ==> s.value == t.str
  {
    if t.valid then Some(t.str) else None
  }

  /** `ToPgText`: nil becomes NULL, a present string a valid text holding it;
      reading the text back gives the optional string that went in. */
  function ToPgText(s: Option<string>): (t: PgText)
    ensures t.valid <==> s.Some?
    ensures s.Some? ==> t.str == s.value
    ensures TextOption(t) == s
  {
    match s
    case Some(v) => PgText(v, true)
    case None => PgText("", false)
  }

  /** The other round trip: a text column survives being read back and
      written again exactly when it is valid or the canonical NULL. */
  lemma ToPgTextOfTextOption(t: PgText)
    ensures ToPgText(TextOption(t)) == t <==> t.valid || t == NullText
  {
  }

  /** `ConvertDBUserToModelsUser`. The patronymic is nil exactly when its column
      is NULL; every other column is copied as it is. */
  function ConvertDBUserToModelsUser(user: DbUser): (r: Result<User, Error>)
    ensures r.Success?
    ensures r.value.patronymic.None? <==> !user.patronymic.valid
    ensures user.patronymic.valid ==> r.value.patronymic == Some(user.patronymic.str)
    ensures r.value.uuid == user.uuid.bytes && r.value.passportNumber == user.passportNumber
    ensures r.value.surname == user.surname && r.value.name == user.name && r.value.address == user.address
    ensures r.value.createdAt == user.createdAt.time && r.value.updatedAt == user.updatedAt.time
  {
    match UnmarshalUuid(user.uuid.bytes)
    case Failure(e) => Failure(e)
    case Success(id) =>
      Success(User(id, user.passportNumber, user.surname, user.name, TextOption(user.patronymic),
                   user.address, user.createdAt.time, user.updatedAt.time))
  }

  /** The row a user is stored as: every column valid, the patronymic through
      `ToPgText`. */
  function UserRow(u: User): DbUser {
    DbUser(PgUuid(u.uuid, true), u.passportNumber, u.surname, u.name, ToPgText(u.patronymic),
           u.address, PgTimestamp(u.createdAt, true), PgTimestamp(u.updatedAt, true))
  }

  /** Converting a stored user back gives the user. */
  lemma ConvertUserRoundTrip(u: User)
    ensures ConvertDBUserToModelsUser(UserRow(u)) == Success(u)
  {
  }

  /** What the conversion forgets: a row is recovered from its user exactly
      when its UUID and timestamps are valid and its patronymic is valid or the
      canonical NULL. */
  lemma ConvertUserLosesOnlyNulls(row: DbUser)
    ensures UserRow(ConvertDBUserToModelsUser(row).value) == row <==>
      row.uuid.valid && row.createdAt.valid && row.updatedAt.valid &&
      (row.patronymic.valid || row.patronymic == NullText)
  {
  }

  /** `ConvertDBTaskToModelsTask`. The end time is nil exactly when its column
      is NULL; name and start time are copied. */
  function ConvertDBTaskToModelsTask(task: DbTask): (r: Result<Task, Error>)
    ensures r.Success?
    ensures r.value.endTime.None? <==> !task.endTime.valid
    ensures task.endTime.valid ==> r.value.endTime == Some(task.endTime.time)
    ensures r.value.uuid == task.uuid.bytes && r.value.userUuid == task.userUuid.bytes
    ensures r.value.name == task.name && r.value.startTime == task.startTime.time
  {
    match UnmarshalUuid(task.uuid.bytes)
    case Failure(e) => Failure(e)
    case Success(taskId) =>
      match UnmarshalUuid(task.userUuid.bytes)
      case Failure(e) => Failure(e)
      case Success(userId) =>
        var endTime := if task.endTime.valid then Some(task.endTime.time) else None;
        Success(Task(taskId, userId, task.name, task.startTime.time, endTime))
  }

  /** The row a task is stored as; a running task has a NULL end time. */
  function TaskRow(t: Task): DbTask {
    var endTime := match t.endTime
      case Some(e) => PgTimestamp(e, true)
      case None => PgTimestamp(ZeroTime, false);
    DbTask(PgUuid(t.uuid, true), PgUuid(t.userUuid, true), t.name, PgTimestamp(t.startTime, true), endTime)
  }

  /** Converting a stored task back gives the task. */
  lemma ConvertTaskRoundTrip(t: Task)
    ensures ConvertDBTaskToModelsTask(TaskRow(t)) == Success(t)
  {
  }

  /** `ConvertDBTaskHistoryToModelsTaskHistory`: each UUID or time column is
      copied only when it is valid and left zero otherwise; the name is always
      copied, the task UUID is never set, and no error is ever returned. */
  function ConvertDBTaskHistoryToModelsTaskHistory(task: DbTaskHistory): (r: Result<TaskHistory, Error>)
    ensures r.Success?
    ensures r.value.taskUuid == ZeroUuid && r.value.name == task.name
    ensures r.value.uuid == (if task.uuid.valid then task.uuid.bytes else ZeroUuid)
    ensures r.value.userUuid == (if task.userUuid.valid then task.userUuid.bytes else ZeroUuid)
    ensures r.value.startTime == (if task.startTime.valid then task.startTime.time else ZeroTime)
    ensures r.value.endTime == (if task.endTime.valid then task.endTime.time else ZeroTime)
  {
    var id := if task.uuid.valid then UuidFromBytesOrZero(task.uuid.bytes) else ZeroUuid;
    var userId := if task.userUuid.valid then UuidFromBytesOrZero(task.userUuid.bytes) else ZeroUuid;
    var startTime := if task.startTime.valid then task.startTime.time else ZeroTime;
    var endTime := if task.endTime.valid then task.endTime.time else ZeroTime;
    Success(TaskHistory(id, ZeroUuid, userId, task.name, startTime, endTime))
  }

  /** The row an archived task is stored as, every column valid. */
  function TaskHistoryRow(h: TaskHistory, duration: Duration): DbTaskHistory {
    DbTaskHistory(PgUuid(h.uuid, true), PgUuid(h.taskUuid, true), PgUuid(h.userUuid, true), h.name,
                  PgTimestamp(h.startTime, true), PgTimestamp(h.endTime, true), duration)
  }

  /** A stored history entry converts back to itself exactly when its task
      UUID is the zero UUID: the converter never carries the task UUID over. */
  lemma ConvertTaskHistoryRoundTrip(h: TaskHistory, duration: Duration)
    ensures ConvertDBTaskHistoryToModelsTaskHistory(TaskHistoryRow(h, duration)) == Success(h)
        <==> h.taskUuid == ZeroUuid
  {
  }
}
