/** The request side of the task endpoints (internal/handler/task.go): the
    period/amount conversion behind `GET /users/{id}/tasks/result`, its
    defaults and `validPeriods` gate, and the tables that turn a service
    error into an HTTP status. */
module TaskHandler {
  import opened Wrappers
  import opened Models
  import opened Errors
  import opened Http
  import opened GoLib
  import opened Store
  import opened TaskService
  import opened Gin

  /** The periods the handler accepts. */
  const ValidPeriods: set<string> := {"day", "week", "month", "year"}

  /** How many days one unit of a period is. */
  function PeriodFactor(period: string): (f: Option<int>)
    ensures f.Some? <==> period in ValidPeriods
    ensures f.Some? ==> f.value in {1, 7, 30, 365}
  {
    match period
    case "day" => Some(1)
    case "week" => Some(7)
    case "month" => Some(30)
    case "year" => Some(365)
    case _ => None
  }

  /** `convertPeriodToDays`: the amount is parsed first, so an amount that is
      not an integer is reported whatever the period; the product is Go's
      64-bit `int` multiplication, which wraps. */
  function ConvertPeriodToDays(period: string, amount: string): (r: Result<int, string>)
    ensures Atoi(amount).Failure? ==> r == Failure("invalid time amount")
    ensures Atoi(amount).Success? && period !in ValidPeriods ==> r == Failure("invalid period value")
    ensures r.Success? <==> Atoi(amount).Success? && period in ValidPeriods
    ensures r.Success? ==> MinInt64 <= r.value <= MaxInt64
  {
    match Atoi(amount)
    case Failure(_) => Failure("invalid time amount")
    case Success(amountInt) =>
      match period
      case "day" => Success(amountInt)
      case "week" => Success(WrapInt64(amountInt * 7))
      case "month" => Success(WrapInt64(amountInt * 30))
      case "year" => Success(WrapInt64(amountInt * 365))
      case _ => Failure("invalid period value")
  }

  /** For every accepted input the day count is the period's factor times the
      amount, as Go's 64-bit multiplication computes it. */
  lemma ConvertPeriodToDaysWrapped(period: string, amount: string)
    requires ConvertPeriodToDays(period, amount).Success?
    ensures ConvertPeriodToDays(period, amount).value == WrapInt64(PeriodFactor(period).value * Atoi(amount).value)
  {
    var a := Atoi(amount).value;
    match period
    case "day" => assert WrapInt64(1 * a) == a;
    case "week" =>
    case "month" =>
    case "year" =>
  }

  /** Without overflow the day count is the period's factor times the amount. */
  lemma ConvertPeriodToDaysProduct(period: string, amount: string)
    requires ConvertPeriodToDays(period, amount).Success?
    requires MinInt64 <= PeriodFactor(period).value * Atoi(amount).value <= MaxInt64
    ensures ConvertPeriodToDays(period, amount).value == PeriodFactor(period).value * Atoi(amount).value
  {
    ConvertPeriodToDaysWrapped(period, amount);
  }

  /** When the product does not overflow, the result is the period's factor
      times the amount, for every amount spelled in canonical decimal. */
  lemma ConvertPeriodToDaysTable(period: string, n: int)
    requires period in ValidPeriods
    requires MinInt64 <= PeriodFactor(period).value * n <= MaxInt64
    ensures ConvertPeriodToDays(period, Itoa(n)) == Success(PeriodFactor(period).value * n)
  {
    AtoiItoa(n);
    ConvertPeriodToDaysProduct(period, Itoa(n));
  }

  /** Negative amounts are not rejected: without overflow they give a negative
      number of days, zero gives zero, and positive amounts a positive count. */
  lemma ConvertPeriodToDaysSign(period: string, amount: string)
    requires ConvertPeriodToDays(period, amount).Success?
    requires MinInt64 <= PeriodFactor(period).value * Atoi(amount).value <= MaxInt64
    ensures var days := ConvertPeriodToDays(period, amount).value;
      (days < 0 <==> Atoi(amount).value < 0) && (days == 0 <==> Atoi(amount).value == 0)
  {
    ConvertPeriodToDaysProduct(period, amount);
    var a := Atoi(amount).value;
    match period
    case "day" =>
    case "week" => assert ConvertPeriodToDays(period, amount).value == 7 * a;
    case "month" => assert ConvertPeriodToDays(period, amount).value == 30 * a;
    case "year" => assert ConvertPeriodToDays(period, amount).value == 365 * a;
  }

  /** Without overflow no information is lost: the amount is the day count
      divided by the period's factor, with nothing left over. */
  lemma ConvertPeriodToDaysInvertible(period: string, amount: string)
    requires ConvertPeriodToDays(period, amount).Success?
    requires MinInt64 <= PeriodFactor(period).value * Atoi(amount).value <= MaxInt64
    ensures var days := ConvertPeriodToDays(period, amount).value;
      var f := PeriodFactor(period).value;
      days % f == 0 && days / f == Atoi(amount).value
  {
    ConvertPeriodToDaysProduct(period, amount);
    DivideByFactor(PeriodFactor(period).value, Atoi(amount).value);
  }

  /** A multiple of one of the factors divides back exactly. */
  lemma DivideByFactor(f: int, a: int)
    requires f in {1, 7, 30, 365}
    ensures (f * a) % f == 0 && (f * a) / f == a
  {
    if f == 1 {
    } else if f == 7 {
      assert f * a == 7 * a;
    } else if f == 30 {
      assert f * a == 30 * a;
    } else {
      assert f * a == 365 * a;
    }
  }

  /** With overflow the count wraps: a positive number of years just above
      2^63 / 365 gives a negative day count. */
  lemma ConvertPeriodToDaysWraps(amount: string)
    requires Atoi(amount) == Success(25269512429739112)
    ensures ConvertPeriodToDays("year", amount) == Success(-9223372036854775736)
  {
  }

  // ---------------------------------------------------------------------------
  // GET /users/{id}/tasks/result

  function PeriodParam(query: map<string, string>): string {
    DefaultQuery(query, "timePeriod", "day")
  }

  function AmountParam(query: map<string, string>): string {
    DefaultQuery(query, "timeAmount", "1")
  }

  /** The request checks before the service is called: the period is gated on
      `validPeriods`, then converted; either failure answers 400. The gate
      rejects nothing the conversion would accept. */
  function TasksResultDays(query: map<string, string>): (r: Result<int, int>)
    ensures r.Success? <==> ConvertPeriodToDays(PeriodParam(query), AmountParam(query)).Success?
    ensures r.Success? ==> r.value == ConvertPeriodToDays(PeriodParam(query), AmountParam(query)).value
    ensures r.Failure? ==> r.error == StatusBadRequest
  {
    var timePeriod := PeriodParam(query);
    var timeAmount := AmountParam(query);
    if timePeriod !in ValidPeriods then Failure(StatusBadRequest)
    else
      match ConvertPeriodToDays(timePeriod, timeAmount)
      case Failure(_) => Failure(StatusBadRequest)
      case Success(days) => Success(days)
  }

  /** With no query parameters the window is one day. */
  lemma TasksResultDaysDefault()
    ensures TasksResultDays(map[]) == Success(1)
  {
    AtoiDigits("1");
  }

  /** A present but empty amount is not replaced by the default: it is a bad
      request, whatever the period. */
  lemma TasksResultDaysEmptyAmount(query: map<string, string>)
    requires "timeAmount" in query && query["timeAmount"] == ""
    ensures TasksResultDays(query) == Failure(StatusBadRequest)
  {
  }

  /** The status `GetTasksResult` answers with for the service's outcome. */
  function TasksResultStatus(r: Result<TasksResult, Error>): (code: int)
    ensures code in {StatusOK, StatusNoContent, StatusNotFound, StatusInternalServerError}
    ensures code == StatusOK <==> r.Success?
    ensures code == StatusNotFound <==> r.Failure? && Is(r.error, ErrUserNotFound)
    ensures code == StatusNoContent <==> r.Failure? && !Is(r.error, ErrUserNotFound) && Is(r.error, ErrTaskNotFound)
  {
    match r
    case Success(_) => StatusOK
    case Failure(e) =>
      if Is(e, ErrUserNotFound) then StatusNotFound
      else if Is(e, ErrTaskNotFound) then StatusNoContent
      else StatusInternalServerError
  }

  /** The whole endpoint after the path is parsed: the status, and whether the
      service was called at all. */
  function GetTasksResultResponse(s: State, userUUID: Uuid, query: map<string, string>, env: Env)
    : (int, seq<Call>)
  {
    match TasksResultDays(query)
    case Failure(code) => (code, [])
    case Success(days) =>
      var run := GetTasksResultSpec(s, userUUID, days, env);
      (TasksResultStatus(run.result), run.calls)
  }

  /** A bad period or amount is answered 400 before any query. */
  lemma GetTasksResultBadQuery(s: State, userUUID: Uuid, query: map<string, string>, env: Env)
    requires ConvertPeriodToDays(PeriodParam(query), AmountParam(query)).Failure?
    ensures GetTasksResultResponse(s, userUUID, query, env) == (StatusBadRequest, [])
  {
  }

  /** With a good query: an unknown user is 404, a user with nothing in the
      window 204, and one with rows 200. */
  lemma GetTasksResultStatuses(s: State, userUUID: Uuid, query: map<string, string>, env: Env)
    requires TasksResultDays(query).Success? && FaultAt(env, 0).None? && FaultAt(env, 1).None?
    ensures userUUID !in s.users ==> GetTasksResultResponse(s, userUUID, query, env).0 == StatusNotFound
    ensures userUUID in s.users && env.taskRows == [] ==>
      GetTasksResultResponse(s, userUUID, query, env).0 == StatusNoContent
    ensures userUUID in s.users && env.taskRows != [] ==>
      GetTasksResultResponse(s, userUUID, query, env).0 == StatusOK
  {
  }

  // ---------------------------------------------------------------------------
  // POST /users/{id}/tasks/stop

  /** The status `StopTimeTask` answers with for the service's outcome. */
  function StopTimeTaskStatus(r: Result<CompletedTask, Error>): (code: int)
    ensures code in {StatusOK, StatusNotFound, StatusInternalServerError}
    ensures code == StatusOK <==> r.Success?
    ensures code == StatusNotFound <==>
      r.Failure? && (Is(r.error, ErrUserNotFound) || Is(r.error, ErrTaskNotFound))
  {
    match r
    case Success(_) => StatusOK
    case Failure(e) =>
      if Is(e, ErrUserNotFound) then StatusNotFound
      else if Is(e, ErrTaskNotFound) then StatusNotFound
      else StatusInternalServerError
  }

  /** Stopping answers 404 for an unknown user and for a user with no live
      task, 200 when the task is archived, and 500 when a later step fails. */
  lemma StopTimeTaskStatuses(s: State, userUUID: Uuid, env: Env)
    requires FaultAt(env, 0).None? && FaultAt(env, 1).None?
    ensures userUUID !in s.users ==> StopTimeTaskStatus(FinishTaskSpec(s, userUUID, env).result) == StatusNotFound
    ensures userUUID in s.users && userUUID !in s.tasks ==>
      StopTimeTaskStatus(FinishTaskSpec(s, userUUID, env).result) == StatusNotFound
    ensures userUUID in s.users && userUUID in s.tasks && FaultAt(env, 2).Some? ==>
      StopTimeTaskStatus(FinishTaskSpec(s, userUUID, env).result) == StatusInternalServerError
    ensures userUUID in s.users && userUUID in s.tasks && !HistoryIdTaken(s, env.freshId) && Reliable(env) ==>
      StopTimeTaskStatus(FinishTaskSpec(s, userUUID, env).result) == StatusOK
  {
    if userUUID in s.users && userUUID in s.tasks && !HistoryIdTaken(s, env.freshId) && Reliable(env) {
      FinishArchives(s, userUUID, env);
    }
  }

  // ---------------------------------------------------------------------------
  // POST /users/{id}/tasks/start

  /** The error responses `StartTimeTask` writes, in order. The first two
      checks do not return, so every failure ends with a 500 written after
      the 400 or 409 it may have written first. */
  function StartTimeTaskWrites(r: Result<Task, Error>): (codes: seq<int>)
    ensures r.Success? <==> codes == [StatusCreated]
    ensures r.Failure? ==> 1 <= |codes| <= 3 && codes[|codes| - 1] == StatusInternalServerError
    ensures r.Failure? ==>
      codes[0] == (if Is(r.error, ErrForeignKeyViolation) then StatusBadRequest
                   else if Is(r.error, ErrTaskAlreadyExists) then StatusConflict
                   else StatusInternalServerError)
  {
    match r
    case Success(_) => [StatusCreated]
    case Failure(e) =>
      var early := (if Is(e, ErrForeignKeyViolation) then [StatusBadRequest] else []) +
                   (if Is(e, ErrTaskAlreadyExists) then [StatusConflict] else []);
      var codes := early + [StatusInternalServerError];
      assert codes[|codes| - 1] == StatusInternalServerError;
      codes
  }

  /** Starting a second task writes 409 and then 500; starting one for an
      unknown user writes 400 and then 500; a fresh start answers 201. */
  lemma StartTimeTaskStatuses(s: State, userUUID: Uuid, payload: CreateTaskPayload, env: Env)
    requires FaultAt(env, 0).None?
    ensures userUUID in s.tasks ==>
      StartTimeTaskWrites(CreateTaskSpec(s, userUUID, payload, env).result) == [StatusConflict, StatusInternalServerError]
    ensures Valid(s) && userUUID !in s.users && !TaskIdTaken(s, env.freshId) ==>
      StartTimeTaskWrites(CreateTaskSpec(s, userUUID, payload, env).result) == [StatusBadRequest, StatusInternalServerError]
    ensures userUUID in s.users && userUUID !in s.tasks && !TaskIdTaken(s, env.freshId) ==>
      StartTimeTaskWrites(CreateTaskSpec(s, userUUID, payload, env).result) == [StatusCreated]
  {
    if Valid(s) && userUUID !in s.users && !TaskIdTaken(s, env.freshId) {
      CreateTaskUnknownUser(s, userUUID, payload, env);
    }
  }
}
