/** The request side of the user endpoints (internal/handler/user.go): the
    passport format check, the create-payload validation, the query-string
    handling of the listing and of the passport lookup, the "no fields to
    update" guard, and the tables that turn a service error into a status. */
module UserHandler {
  import opened Wrappers
  import opened Models
  import opened Errors
  import opened Http
  import opened GoLib
  import opened Db
  import opened Utils
  import opened Store
  import opened UserService
  import opened Gin

  const PassportSerieLength: nat := 4
  const PassportNumberLength: nat := 6

  /** The filter names the listing reads from the query string, in order. */
  const UserParamsArr: seq<string> := ["passport_number", "name", "surname", "patronymic", "address"]

  // ---------------------------------------------------------------------------
  // Passport format

  /** `^\d{4} \d{6}$` (RE2: `\d` is an ASCII digit and `$` the end of the
      text): four digits, one space, six digits, nothing else. */
  predicate PassportFormat(s: string) {
    && |s| == PassportSerieLength + 1 + PassportNumberLength
    && AllDigits(s[..PassportSerieLength])
    && s[PassportSerieLength] == ' '
    && AllDigits(s[PassportSerieLength + 1..])
  }

  /** `validatePassportNumber`. */
  function ValidatePassportNumber(passportNumber: string): (r: Outcome<string>)
    ensures r.Pass? <==> PassportFormat(passportNumber)
    ensures r.Fail? ==> r.error == "invalid passport number format"
  {
    if PassportFormat(passportNumber) then Pass else Fail("invalid passport number format")
  }

  /** A series and a number joined by a space form a valid passport number
      exactly when the series is four digits and the number six. */
  lemma PassportFormatParts(serie: string, number: string)
    ensures PassportFormat(serie + " " + number) <==>
      |serie| == PassportSerieLength && AllDigits(serie) && |number| == PassportNumberLength && AllDigits(number)
  {
    var s := serie + " " + number;
    assert s[|serie|] == ' ';
    if |serie| == PassportSerieLength && |number| == PassportNumberLength {
      assert s[..PassportSerieLength] == serie;
      assert s[PassportSerieLength + 1..] == number;
    }
  }

  /** The format's own examples. */
  lemma PassportFormatExamples()
    ensures ValidatePassportNumber("1234 567890").Pass?
    ensures ValidatePassportNumber("123 4567890").Fail?
    ensures ValidatePassportNumber("12345678901").Fail?
    ensures ValidatePassportNumber("").Fail?
  {
    assert "123 4567890"[3] == ' ';
    assert "12345678901"[4] == '5';
  }

  // ---------------------------------------------------------------------------
  // POST /api/users

  /** `validateCreateUserPayload`: the required fields in order, then the
      passport format; the patronymic is optional. */
  function ValidateCreateUserPayload(payload: CreateUserPayload): (r: Outcome<string>)
    ensures payload.passportNumber == "" ==> r == Fail("passportNumber is required")
    ensures payload.passportNumber != "" && payload.name == "" ==> r == Fail("name is required")
    ensures payload.passportNumber != "" && payload.name != "" && payload.surname == "" ==>
      r == Fail("surname is required")
    ensures payload.passportNumber != "" && payload.name != "" && payload.surname != "" && payload.address == "" ==>
      r == Fail("address is required")
    ensures payload.passportNumber != "" && payload.name != "" && payload.surname != "" && payload.address != "" ==>
      r == ValidatePassportNumber(payload.passportNumber)
    ensures r.Pass? <==>
      payload.name != "" && payload.surname != "" && payload.address != "" && PassportFormat(payload.passportNumber)
  {
    if payload.passportNumber == "" then Fail("passportNumber is required")
    else if payload.name == "" then Fail("name is required")
    else if payload.surname == "" then Fail("surname is required")
    else if payload.address == "" then Fail("address is required")
    else ValidatePassportNumber(payload.passportNumber)
  }

  /** The status `CreateUser` answers with for the service's outcome. */
  function CreateUserStatus(r: Result<User, Error>): (code: int)
    ensures code == StatusCreated <==> r.Success?
    ensures code == StatusConflict <==> r.Failure? && Is(r.error, ErrUserAlreadyExists)
    ensures code in {StatusCreated, StatusConflict, StatusInternalServerError}
  {
    match r
    case Success(_) => StatusCreated
    case Failure(e) => if Is(e, ErrUserAlreadyExists) then StatusConflict else StatusInternalServerError
  }

  /** The endpoint after the body is bound: an invalid payload is 400 with no
      query; otherwise the service's outcome decides. */
  function CreateUserResponse(s: State, payload: CreateUserPayload, env: Env): (int, seq<Call>) {
    if ValidateCreateUserPayload(payload).Fail? then (StatusBadRequest, [])
    else
      var run := CreateUserSpec(s, payload, env);
      (CreateUserStatus(run.result), run.calls)
  }

  /** The service reports a taken passport number as ErrDuplicateEntry, which
      is not the ErrUserAlreadyExists the handler tests for: the answer is 500,
      not 409. */
  lemma CreateUserDuplicateAnswers500(s: State, payload: CreateUserPayload, env: Env)
    requires ValidateCreateUserPayload(payload).Pass?
    requires exists u :: u in s.users && s.users[u].passportNumber == payload.passportNumber
    requires FaultAt(env, 0).None?
    ensures CreateUserResponse(s, payload, env).0 == StatusInternalServerError
  {
    CreateUserDuplicatePassport(s, payload, env);
  }

  // ---------------------------------------------------------------------------
  // GET /api/users

  /** The filter map: each of the five names whose query value is not empty,
      with that value. */
  function FiltersOf(query: map<string, string>): map<string, string> {
    map k | k in UserParamsArr && Query(query, k) != "" :: Query(query, k)
  }

  /** The loop of `GetAllUsers` that builds the filter map. */
  method BuildFilters(query: map<string, string>) returns (filters: map<string, string>)
    ensures filters == FiltersOf(query)
    ensures forall k :: k in filters <==> k in UserParamsArr && Query(query, k) != ""
    ensures forall k :: k in filters ==> filters[k] == Query(query, k)
  {
    filters := map[];
    for i := 0 to |UserParamsArr|
      invariant filters == map k | k in UserParamsArr[..i] && Query(query, k) != "" :: Query(query, k)
    {
      var field := UserParamsArr[i];
      var value := Query(query, field);
      if value != "" {
        filters := filters[field := value];
      }
      assert UserParamsArr[..i + 1] == UserParamsArr[..i] + [field];
    }
    assert UserParamsArr[..|UserParamsArr|] == UserParamsArr;
  }

  /** The handler's five names are the five filters the service understands. */
  lemma UserParamsAreFilterKeys()
    ensures (set k | k in UserParamsArr) == FilterKeys
  {
    assert forall k :: k in FilterKeys ==> k in UserParamsArr;
  }

  /** From query string to store parameters: a filter reaches the store exactly
      when its query value is not empty, and carries that value. */
  lemma ListingFiltersFromQuery(query: map<string, string>, limit: int, offset: int, key: string)
    requires key in UserParamsArr
    ensures var p := GetUsersParamsOf(limit, offset, FiltersOf(query));
      (ParamOf(p, key).valid <==> Query(query, key) != "") &&
      (ParamOf(p, key).valid ==> ParamOf(p, key).str == Query(query, key))
  {
    UserParamsAreFilterKeys();
    assert key in FilterKeys;
    var filters := FiltersOf(query);
    GetUsersFiltersRoundTrip(limit, offset, filters);
    var p := GetUsersParamsOf(limit, offset, filters);
    assert key in ParamsFilters(p) <==> ParamOf(p, key).valid;
  }

  /** `limit` and `offset`: present values must be integers (even an empty one
      is not replaced by the default); absent ones default to 10 and 0. */
  function LimitOffset(query: map<string, string>): (r: Result<(int, int), int>)
    ensures r.Failure? ==> r.error == StatusBadRequest
    ensures r.Success? <==>
      Atoi(DefaultQuery(query, "limit", "10")).Success? && Atoi(DefaultQuery(query, "offset", "0")).Success?
    ensures r.Success? ==>
      r.value == (Atoi(DefaultQuery(query, "limit", "10")).value, Atoi(DefaultQuery(query, "offset", "0")).value)
  {
    match Atoi(DefaultQuery(query, "limit", "10"))
    case Failure(_) => Failure(StatusBadRequest)
    case Success(limit) =>
      match Atoi(DefaultQuery(query, "offset", "0"))
      case Failure(_) => Failure(StatusBadRequest)
      case Success(offset) => Success((limit, offset))
  }

  /** Without `limit` and `offset` the listing asks for 10 users from 0. */
  lemma LimitOffsetDefaults(query: map<string, string>)
    requires "limit" !in query && "offset" !in query
    ensures LimitOffset(query) == Success((10, 0))
  {
    AtoiDigits("10");
    AtoiDigits("0");
  }

  /** The status `GetAllUsers` answers with for the service's outcome. */
  function GetAllUsersStatus(r: Result<seq<User>, Error>): (code: int)
    ensures code == StatusOK <==> r.Success?
    ensures code == StatusNotFound <==> r.Failure? && Is(r.error, ErrUsersNotFound)
    ensures code in {StatusOK, StatusNotFound, StatusInternalServerError}
  {
    match r
    case Success(_) => StatusOK
    case Failure(e) => if Is(e, ErrUsersNotFound) then StatusNotFound else StatusInternalServerError
  }

  function GetAllUsersResponse(s: State, query: map<string, string>, env: Env): (int, seq<Call>) {
    match LimitOffset(query)
    case Failure(code) => (code, [])
    case Success((limit, offset)) =>
      var run := GetUsersSpec(s, limit, offset, FiltersOf(query), env);
      (GetAllUsersStatus(run.result), run.calls)
  }

  /** The listing never answers 404: the service has no outcome the handler
      reads as "no users found" (an empty listing is 200). A bad `limit` or
      `offset` is 400 before any query, a failing query is 500, and any other
      listing is 200. */
  lemma GetAllUsersNever404(s: State, query: map<string, string>, env: Env)
    ensures GetAllUsersResponse(s, query, env).0 != StatusNotFound
    ensures LimitOffset(query).Failure? ==> GetAllUsersResponse(s, query, env) == (StatusBadRequest, [])
    ensures LimitOffset(query).Success? && FaultAt(env, 0).Some? ==>
      GetAllUsersResponse(s, query, env).0 == StatusInternalServerError
    ensures LimitOffset(query).Success? && FaultAt(env, 0).None? ==>
      GetAllUsersResponse(s, query, env).0 == StatusOK
  {
    match LimitOffset(query)
    case Failure(_) =>
    case Success((limit, offset)) =>
      var run := GetUsersSpec(s, limit, offset, FiltersOf(query), env);
      match GetUsersOp(env.userRows, FaultAt(env, 0))
      case Success(_) =>
      case Failure(e) =>
        assert !Is(FromStore(e), ErrUsersNotFound);
  }

  // ---------------------------------------------------------------------------
  // GET /api/users/info, GET /api/users/{uuid}, DELETE /api/users/{uuid}

  /** The passport number the lookup validates: both query parameters are
      required, and joined by one space. */
  function PassportQuery(query: map<string, string>): (r: Result<string, int>)
    ensures r.Failure? ==> r.error == StatusBadRequest
    ensures r.Success? ==> r.value == Query(query, "passportSerie") + " " + Query(query, "passportNumber")
    ensures r.Success? <==> PassportFormat(Query(query, "passportSerie") + " " + Query(query, "passportNumber"))
  {
    var serie := Query(query, "passportSerie");
    var number := Query(query, "passportNumber");
    PassportFormatParts(serie, number);
    if serie == "" || number == "" then Failure(StatusBadRequest)
    else
      var passportNumber := serie + " " + number;
      if ValidatePassportNumber(passportNumber).Fail? then Failure(StatusBadRequest)
      else Success(passportNumber)
  }

  /** The lookup reaches the service exactly when the series is four digits
      and the number six. */
  lemma PassportQueryAccepts(query: map<string, string>)
    ensures PassportQuery(query).Success? <==>
      var serie := Query(query, "passportSerie");
      var number := Query(query, "passportNumber");
      |serie| == PassportSerieLength && AllDigits(serie) && |number| == PassportNumberLength && AllDigits(number)
  {
    PassportFormatParts(Query(query, "passportSerie"), Query(query, "passportNumber"));
  }

  /** The status of the three one-user endpoints (passport lookup, UUID lookup,
      delete) for the service's outcome. */
  function UserNotFoundStatus<X>(r: Result<X, Error>): (code: int)
    ensures code == StatusOK <==> r.Success?
    ensures code == StatusNotFound <==> r.Failure? && Is(r.error, ErrUserNotFound)
    ensures code in {StatusOK, StatusNotFound, StatusInternalServerError}
  {
    match r
    case Success(_) => StatusOK
    case Failure(e) => if Is(e, ErrUserNotFound) then StatusNotFound else StatusInternalServerError
  }

  ghost function GetUserByPassportNumberResponse(s: State, query: map<string, string>, env: Env): (int, seq<Call>) {
    match PassportQuery(query)
    case Failure(code) => (code, [])
    case Success(passportNumber) =>
      var run := GetUserByPassportNumberSpec(s, passportNumber, env);
      (UserNotFoundStatus(run.result), run.calls)
  }

  /** A well-formed passport number nobody holds is reported by the service as
      ErrNoRows, which the handler does not read as "not found": 500. */
  lemma GetUserByPassportNumberMissingAnswers500(s: State, query: map<string, string>, env: Env)
    requires Valid(s) && PassportQuery(query).Success? && FaultAt(env, 0).None?
    requires PassportOwners(s, PassportQuery(query).value) == {}
    ensures GetUserByPassportNumberResponse(s, query, env).0 == StatusInternalServerError
  {
    GetUserByPassportNumberFinds(s, PassportQuery(query).value, env);
  }

  /** Looking up or deleting a missing UUID answers 500 for the same reason. */
  lemma MissingUserAnswers500(s: State, id: Uuid, env: Env)
    requires id !in s.users && FaultAt(env, 0).None?
    ensures UserNotFoundStatus(GetUserByUUIDSpec(s, id, env).result) == StatusInternalServerError
    ensures UserNotFoundStatus(DeleteUserByUUIDSpec(s, id, env).result) == StatusInternalServerError
  {
    GetUserByUUIDFinds(s, id, env);
    DeleteMissingUser(s, id, env);
  }

  // ---------------------------------------------------------------------------
  // PATCH /api/users/{uuid}

  /** The guard of `UpdateUser`: at least one field is given. */
  predicate HasUpdateFields(payload: UpdateUserPayload) {
    payload.passportNumber.Some? || payload.name.Some? || payload.surname.Some? ||
    payload.patronymic.Some? || payload.address.Some?
  }

  /** The guard skips exactly the updates that would set nothing: a payload
      without fields is one whose every parameter is NULL. */
  lemma UpdateGuardMatchesParams(id: Uuid, payload: UpdateUserPayload)
    ensures !HasUpdateFields(payload) <==>
      var p := UpdateUserParamsOf(id, payload);
      !p.passportNumber.valid && !p.name.valid && !p.surname.valid && !p.patronymic.valid && !p.address.valid
  {
  }

  /** The status `UpdateUser` answers with for the service's outcome. */
  function UpdateUserStatus(r: Result<User, Error>): (code: int)
    ensures code == StatusOK <==> r.Success?
    ensures code == StatusNotFound <==> r.Failure? && Is(r.error, ErrUserNotFound)
    ensures code == StatusConflict <==> r.Failure? && !Is(r.error, ErrUserNotFound) && Is(r.error, ErrUserAlreadyExists)
    ensures code in {StatusOK, StatusNotFound, StatusConflict, StatusInternalServerError}
  {
    match r
    case Success(_) => StatusOK
    case Failure(e) =>
      if Is(e, ErrUserNotFound) then StatusNotFound
      else if Is(e, ErrUserAlreadyExists) then StatusConflict
      else StatusInternalServerError
  }

  /** The endpoint after the body and path are parsed: without fields it
      answers 200 "No fields to update" and issues no query. */
  function UpdateUserResponse(s: State, id: Uuid, payload: UpdateUserPayload, env: Env): (int, seq<Call>, State)
  {
    if !HasUpdateFields(payload) then (StatusOK, [], s)
    else
      var run := UpdateUserByUUIDSpec(s, id, payload, env);
      (UpdateUserStatus(run.result), run.calls, run.state)
  }

  /** The update asks for a passport number another user holds. */
  predicate TakenByOther(s: State, id: Uuid, passportNumber: Option<string>) {
    exists other :: other in s.users && other != id && passportNumber == Some(s.users[other].passportNumber)
  }

  /** An empty update touches nothing; a missing user or a taken passport
      number answers 500, since the service reports neither with the
      sentinels the handler tests for. */
  lemma UpdateUserStatuses(s: State, id: Uuid, payload: UpdateUserPayload, env: Env)
    requires FaultAt(env, 0).None?
    ensures !HasUpdateFields(payload) ==> UpdateUserResponse(s, id, payload, env) == (StatusOK, [], s)
    ensures HasUpdateFields(payload) && id !in s.users ==>
      UpdateUserResponse(s, id, payload, env).0 == StatusInternalServerError
    ensures HasUpdateFields(payload) && id in s.users && TakenByOther(s, id, payload.passportNumber) ==>
      UpdateUserResponse(s, id, payload, env).0 == StatusInternalServerError
  {
    if HasUpdateFields(payload) && id !in s.users {
      UpdateMissingUser(s, id, payload, env);
    }
    if HasUpdateFields(payload) && id in s.users && TakenByOther(s, id, payload.passportNumber) {
      var other :| other in s.users && other != id && payload.passportNumber == Some(s.users[other].passportNumber);
      UpdateUserDuplicatePassport(s, id, other, payload, env);
    }
  }
}
