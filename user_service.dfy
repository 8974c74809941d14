/** The user service (internal/service/user.go): the mapping of payloads and
    filters to the store's nullable parameters, the classification of store
    errors, the order-preserving conversion of listed rows, and the
    check-then-delete of a user.

    As in the task service, every operation is specified by a function to a
    `Run`, the methods of `UserService` are proved to agree with it, and the
    lemmas state what the source promises. */
module UserService {
  import opened Wrappers
  import opened Models
  import opened Db
  import opened Errors
  import opened Utils
  import opened Store
  import opened GoLib

  // ---------------------------------------------------------------------------
  // Parameter mapping

  /** The parameters of a new user: the required fields as they are, the
      optional patronymic NULL when absent. */
  function CreateUserParamsOf(payload: CreateUserPayload): (p: CreateUserParams)
    ensures p.patronymic.valid <==> payload.patronymic.Some?
    ensures payload.patronymic.Some? ==> p.patronymic.str == payload.patronymic.value
    ensures payload.patronymic.None? ==> p.patronymic == NullText
    ensures p.passportNumber == payload.passportNumber && p.name == payload.name
    ensures p.surname == payload.surname && p.address == payload.address
  {
    var patronymic := if payload.patronymic.Some? then PgText(payload.patronymic.value, true) else NullText;
    CreateUserParams(payload.passportNumber, payload.name, payload.surname, patronymic, payload.address)
  }

  /** The five filter names `GetUsers` understands. */
  const PassportNumberKey: string := "passport_number"
  const NameKey: string := "name"
  const SurnameKey: string := "surname"
  const PatronymicKey: string := "patronymic"
  const AddressKey: string := "address"
  const FilterKeys: set<string> := {PassportNumberKey, NameKey, SurnameKey, PatronymicKey, AddressKey}

  /** A filter parameter is set exactly when its key is in the map, and then
      holds that key's value; otherwise it is NULL. */
  predicate FilterParam(filters: map<string, string>, key: string, t: PgText) {
    && (t.valid <==> key in filters)
    && (key in filters ==> t.str == filters[key])
    && (key !in filters ==> t == NullText)
  }

  /** The listing parameters: limit and offset narrowed with `int32(…)`, and
      one nullable parameter per filter name. */
  function GetUsersParamsOf(limit: int, offset: int, filters: map<string, string>): (p: GetUsersParams)
    ensures MinInt32 <= p.userLimit <= MaxInt32 && MinInt32 <= p.userOffset <= MaxInt32
    ensures MinInt32 <= limit <= MaxInt32 ==> p.userLimit == limit
    ensures MinInt32 <= offset <= MaxInt32 ==> p.userOffset == offset
    ensures FilterParam(filters, PassportNumberKey, p.passportNumber)
    ensures FilterParam(filters, NameKey, p.name)
    ensures FilterParam(filters, SurnameKey, p.surname)
    ensures FilterParam(filters, PatronymicKey, p.patronymic)
    ensures FilterParam(filters, AddressKey, p.address)
  {
    GetUsersParams(WrapInt32(limit), WrapInt32(offset),
                   FilterText(filters, PassportNumberKey), FilterText(filters, NameKey),
                   FilterText(filters, SurnameKey), FilterText(filters, PatronymicKey),
                   FilterText(filters, AddressKey))
  }

  function FilterText(filters: map<string, string>, key: string): PgText {
    if key in filters then ToPgText(Some(filters[key])) else NullText
  }

  /** The filter parameter a key selects. */
  function ParamOf(p: GetUsersParams, key: string): PgText {
    if key == PassportNumberKey then p.passportNumber
    else if key == NameKey then p.name
    else if key == SurnameKey then p.surname
    else if key == PatronymicKey then p.patronymic
    else p.address
  }

  /** The filters the parameters apply, read back as a map. */
  function ParamsFilters(p: GetUsersParams): map<string, string> {
    map k | k in FilterKeys && ParamOf(p, k).valid :: ParamOf(p, k).str
  }

  /** No filter is lost or invented: the parameters apply exactly the filters
      of the map whose names are understood, with their values. */
  lemma GetUsersFiltersRoundTrip(limit: int, offset: int, filters: map<string, string>)
    ensures ParamsFilters(GetUsersParamsOf(limit, offset, filters)) ==
      map k | k in filters && k in FilterKeys :: filters[k]
  {
    var p := GetUsersParamsOf(limit, offset, filters);
    var want := map k | k in filters && k in FilterKeys :: filters[k];
    forall k | k in FilterKeys
      ensures ParamOf(p, k).valid <==> k in filters
      ensures k in filters ==> ParamOf(p, k).str == filters[k]
    {
      assert k == PassportNumberKey || k == NameKey || k == SurnameKey || k == PatronymicKey || k == AddressKey;
    }
    assert ParamsFilters(p).Keys == want.Keys;
  }

  /** The parameters of a partial update: each field NULL exactly when it is
      absent from the payload, and holding the payload's string otherwise. */
  function UpdateUserParamsOf(id: Uuid, payload: UpdateUserPayload): (p: UpdateUserByUUIDParams)
    ensures p.userUuid == PgUuid(id, true)
    ensures TextOption(p.passportNumber) == payload.passportNumber && TextOption(p.name) == payload.name
    ensures TextOption(p.surname) == payload.surname && TextOption(p.patronymic) == payload.patronymic
    ensures TextOption(p.address) == payload.address
  {
    UpdateUserByUUIDParams(PgUuid(id, true), ToPgText(payload.name), ToPgText(payload.surname),
                           ToPgText(payload.patronymic), ToPgText(payload.address),
                           ToPgText(payload.passportNumber))
  }

  // ---------------------------------------------------------------------------
  // Error classification

  /** A failed insert or update: the unique-constraint SQLSTATE becomes
      ErrDuplicateEntry; anything else is wrapped with the operation's words. */
  function ClassifyWriteError(e: StoreError, context: string): (r: Error)
    ensures r == ErrDuplicateEntry <==> e == PgError(UniqueViolationCode)
    ensures r != ErrDuplicateEntry ==> r == Wrapped(context, FromStore(e)) && Is(r, FromStore(e))
  {
    if e.PgError? && e.code == UniqueViolationCode then ErrDuplicateEntry
    else Wrapped(context, FromStore(e))
  }

  /** A failed read: "no rows" becomes ErrNoRows; anything else is wrapped. */
  function ClassifyReadError(e: StoreError, context: string): (r: Error)
    ensures r == ErrNoRows <==> e == NoRows
    ensures r != ErrNoRows ==> r == Wrapped(context, FromStore(e)) && Is(r, FromStore(e))
  {
    if e == NoRows then ErrNoRows else Wrapped(context, FromStore(e))
  }

  // ---------------------------------------------------------------------------
  // Listing

  /** The users of the listed rows, in the rows' order; the first row that
      fails to convert aborts the listing (none does). */
  function ConvertUsers(rows: seq<DbUser>): (r: Result<seq<User>, Error>)
    ensures r.Success? && |r.value| == |rows|
    ensures forall i :: 0 <= i < |rows| ==> r.value[i] == ConvertDBUserToModelsUser(rows[i]).value
  {
    if rows == [] then Success([])
    else
      match ConvertDBUserToModelsUser(rows[0])
      case Failure(_) => Failure(Message("error converting user"))
      case Success(u) =>
        match ConvertUsers(rows[1..])
        case Failure(e) => Failure(e)
        case Success(us) => Success([u] + us)
  }

  /** Listing the rows users are stored as gives back those users. */
  lemma ConvertUsersOfRows(us: seq<User>)
    ensures ConvertUsers(seq(|us|, i requires 0 <= i < |us| => UserRow(us[i]))) == Success(us)
  {
    var rows := seq(|us|, i requires 0 <= i < |us| => UserRow(us[i]));
    forall i | 0 <= i < |us| ensures ConvertDBUserToModelsUser(rows[i]).value == us[i] {
      ConvertUserRoundTrip(us[i]);
    }
    assert ConvertUsers(rows).value == us;
  }

  /** The zero `models.User` a fresh slice is filled with. */
  const ZeroUser: User := User(ZeroUuid, "", "", "", None, "", ZeroTime, ZeroTime)

  // ---------------------------------------------------------------------------
  // The operations

  function CreateUserSpec(s: State, payload: CreateUserPayload, env: Env): Run<User> {
    var params := CreateUserParamsOf(payload);
    var (s1, userRaw) := CreateUserOp(s, params, env.now, env.freshId, FaultAt(env, 0));
    var calls := [Call.CreateUser(params)];
    match userRaw
    case Failure(e) => Run(s1, calls, Failure(ClassifyWriteError(e, "failed to create user")))
    case Success(row) =>
      match ConvertDBUserToModelsUser(row)
      case Failure(_) => Run(s1, calls, Failure(Message("Error converting user")))
      case Success(user) => Run(s1, calls, Success(user))
  }

  function GetUsersSpec(s: State, limit: int, offset: int, filters: map<string, string>, env: Env)
    : Run<seq<User>>
  {
    var params := GetUsersParamsOf(limit, offset, filters);
    var calls := [Call.GetUsers(params)];
    match GetUsersOp(env.userRows, FaultAt(env, 0))
    case Failure(e) => Run(s, calls, Failure(ClassifyReadError(e, "failed to get users")))
    case Success(rows) => Run(s, calls, ConvertUsers(rows))
  }

  function GetUserByUUIDSpec(s: State, id: Uuid, env: Env): Run<User> {
    var pgId := PgUuid(id, true);
    var calls := [Call.GetUserByUUID(pgId)];
    match GetUserByUUIDOp(s, pgId, FaultAt(env, 0))
    case Failure(e) => Run(s, calls, Failure(ClassifyReadError(e, "failed to get user")))
    case Success(row) =>
      match ConvertDBUserToModelsUser(row)
      case Failure(e) => Run(s, calls, Failure(Wrapped("failed to convert user", e)))
      case Success(user) => Run(s, calls, Success(user))
  }

  ghost function GetUserByPassportNumberSpec(s: State, passportNumber: string, env: Env): Run<User> {
    var calls := [Call.GetUserByPassportNumber(passportNumber)];
    match GetUserByPassportNumberOp(s, passportNumber, FaultAt(env, 0))
    case Failure(e) => Run(s, calls, Failure(ClassifyReadError(e, "failed to get user")))
    case Success(row) =>
      match ConvertDBUserToModelsUser(row)
      case Failure(_) => Run(s, calls, Failure(Message("Error converting user")))
      case Success(user) => Run(s, calls, Success(user))
  }

  function UpdateUserByUUIDSpec(s: State, id: Uuid, payload: UpdateUserPayload, env: Env): Run<User> {
    var params := UpdateUserParamsOf(id, payload);
    var (s1, userRaw) := UpdateUserByUUIDOp(s, params, env.now, FaultAt(env, 0));
    var calls := [Call.UpdateUserByUUID(params)];
    match userRaw
    case Failure(e) => Run(s1, calls, Failure(ClassifyWriteError(e, "failed to update user")))
    case Success(row) =>
      match ConvertDBUserToModelsUser(row)
      case Failure(_) => Run(s1, calls, Failure(Message("Error converting user")))
      case Success(user) => Run(s1, calls, Success(user))
  }

  function DeleteUserByUUIDSpec(s: State, id: Uuid, env: Env): Run<()> {
    var pgId := PgUuid(id, true);
    var c0 := [Call.GetUserByUUID(pgId)];
    match GetUserByUUIDOp(s, pgId, FaultAt(env, 0))
    case Failure(e) => Run(s, c0, Failure(ClassifyReadError(e, "failed to get user")))
    case Success(_) =>
      var (s1, deleted) := DeleteUserByUUIDOp(s, pgId, FaultAt(env, 1));
      var c1 := c0 + [Call.DeleteUserByUUID(pgId)];
      match deleted
      case Failure(e) => Run(s1, c1, Failure(Wrapped("failed to delete user", FromStore(e))))
      case Success(_) => Run(s1, c1, Success(()))
  }

  // ---------------------------------------------------------------------------
  // What the operations promise

  /** A passport number that is already taken is reported as ErrDuplicateEntry
      and nothing is stored. */
  lemma CreateUserDuplicatePassport(s: State, payload: CreateUserPayload, env: Env)
    requires exists u :: u in s.users && s.users[u].passportNumber == payload.passportNumber
    requires FaultAt(env, 0).None?
    ensures CreateUserSpec(s, payload, env).result == Failure(ErrDuplicateEntry)
    ensures CreateUserSpec(s, payload, env).state == s
  {
    var u :| u in s.users && s.users[u].passportNumber == payload.passportNumber;
    assert u in PassportOwners(s, payload.passportNumber);
  }

  /** A new user is stored as given and returned: the required fields, the
      patronymic back as it came in, both timestamps now. */
  lemma CreateUserStores(s: State, payload: CreateUserPayload, env: Env)
    requires env.freshId !in s.users && PassportOwners(s, payload.passportNumber) == {}
    requires FaultAt(env, 0).None?
    ensures var run := CreateUserSpec(s, payload, env);
      && run.result == Success(User(env.freshId, payload.passportNumber, payload.surname, payload.name,
                                    payload.patronymic, payload.address, env.now, env.now))
      && run.state == s.(users := s.users[env.freshId := UserRow(run.result.value)])
  {
  }

  /** A failed create stores nothing, and its error is ErrDuplicateEntry
      exactly for a unique violation (a driver's 23505 or a taken UUID or
      passport number) and wraps the driver's error otherwise. */
  lemma CreateUserFailure(s: State, payload: CreateUserPayload, env: Env)
    ensures var run := CreateUserSpec(s, payload, env);
      && (run.result.Failure? ==> run.state == s)
      && (run.result == Failure(ErrDuplicateEntry) <==>
            FaultAt(env, 0) == Some(PgError(UniqueViolationCode)) ||
            (FaultAt(env, 0).None? &&
             (env.freshId in s.users || PassportOwners(s, payload.passportNumber) != {})))
      && (run.result.Failure? && run.result.error != ErrDuplicateEntry ==>
            FaultAt(env, 0).Some? &&
            run.result.error == Wrapped("failed to create user", FromStore(FaultAt(env, 0).value)))
  {
    var params := CreateUserParamsOf(payload);
    assert params.passportNumber == payload.passportNumber;
    match FaultAt(env, 0)
    case Some(e) =>
      assert CreateUserSpec(s, payload, env).result == Failure(ClassifyWriteError(e, "failed to create user"));
    case None =>
  }

  lemma CreateUserValid(s: State, payload: CreateUserPayload, env: Env)
    requires Valid(s)
    ensures Valid(CreateUserSpec(s, payload, env).state)
  {
    CreateUserOpValid(s, CreateUserParamsOf(payload), env.now, env.freshId, FaultAt(env, 0));
  }

  /** Listing changes nothing, issues one query with the mapped parameters, and
      returns the store's rows converted in their order. */
  lemma GetUsersListsRows(s: State, limit: int, offset: int, filters: map<string, string>, env: Env)
    requires FaultAt(env, 0).None?
    ensures var run := GetUsersSpec(s, limit, offset, filters, env);
      && run.state == s
      && run.calls == [Call.GetUsers(GetUsersParamsOf(limit, offset, filters))]
      && run.result == ConvertUsers(env.userRows)
      && run.result.Success? && |run.result.value| == |env.userRows|
      && forall i :: 0 <= i < |env.userRows| ==>
           run.result.value[i].uuid == env.userRows[i].uuid.bytes &&
           run.result.value[i].passportNumber == env.userRows[i].passportNumber
  {
  }

  /** A user that exists is returned; a missing one is ErrNoRows; nothing changes. */
  lemma GetUserByUUIDFinds(s: State, id: Uuid, env: Env)
    requires FaultAt(env, 0).None?
    ensures var run := GetUserByUUIDSpec(s, id, env);
      && run.state == s
      && (id in s.users ==> run.result == Success(ConvertDBUserToModelsUser(s.users[id]).value))
      && (id !in s.users <==> run.result == Failure(ErrNoRows))
  {
  }

  /** The user holding a passport number is returned, converted as it is
      stored; with none it is ErrNoRows. */
  lemma GetUserByPassportNumberFinds(s: State, passportNumber: string, env: Env)
    requires Valid(s) && FaultAt(env, 0).None?
    ensures var run := GetUserByPassportNumberSpec(s, passportNumber, env);
      && run.state == s
      && (PassportOwners(s, passportNumber) == {} <==> run.result == Failure(ErrNoRows))
      && (run.result.Success? ==> run.result.value.passportNumber == passportNumber &&
                                  run.result.value.uuid in s.users)
      && forall u :: u in PassportOwners(s, passportNumber) ==>
           run.result == Success(ConvertDBUserToModelsUser(s.users[u]).value)
  {
    if PassportOwners(s, passportNumber) != {} {
      var u :| u in PassportOwners(s, passportNumber) && GetUserByPassportNumberOp(s, passportNumber, None) == Success(s.users[u]);
      assert s.users[u].uuid.bytes == u;
    }
  }

  /** An update of a user that exists, with no passport clash, changes exactly
      the fields the payload gives, keeps the others and the creation time,
      stamps the update time, stores what it returns and touches no other row. */
  lemma UpdateUserChangesGivenFields(s: State, id: Uuid, payload: UpdateUserPayload, env: Env)
    requires id in s.users && FaultAt(env, 0).None?
    requires var p := Coalesce(UpdateUserParamsOf(id, payload).passportNumber, s.users[id].passportNumber);
      PassportOwners(s, p) <= {id}
    ensures var run := UpdateUserByUUIDSpec(s, id, payload, env);
      var old_ := ConvertDBUserToModelsUser(s.users[id]).value;
      && run.result.Success?
      && var u := run.result.value;
         && u.passportNumber == (if payload.passportNumber.Some? then payload.passportNumber.value else old_.passportNumber)
         && u.name == (if payload.name.Some? then payload.name.value else old_.name)
         && u.surname == (if payload.surname.Some? then payload.surname.value else old_.surname)
         && u.address == (if payload.address.Some? then payload.address.value else old_.address)
         && u.patronymic == (if payload.patronymic.Some? then payload.patronymic else old_.patronymic)
         && u.uuid == old_.uuid && u.createdAt == old_.createdAt && u.updatedAt == env.now
    ensures var run := UpdateUserByUUIDSpec(s, id, payload, env);
      && run.state.tasks == s.tasks && run.state.history == s.history
      && run.state.users.Keys == s.users.Keys
      && (forall v :: v in s.users && v != id ==> run.state.users[v] == s.users[v])
      && ConvertDBUserToModelsUser(run.state.users[id]) == run.result
  {
    var p := UpdateUserParamsOf(id, payload);
    assert PassportOwners(s, Coalesce(p.passportNumber, s.users[id].passportNumber)) - {id} == {};
  }

  /** The patronymic can be set but never cleared: a user with a patronymic
      still has one after any update. */
  lemma UpdateUserKeepsPatronymic(s: State, id: Uuid, payload: UpdateUserPayload, env: Env)
    requires id in s.users && s.users[id].patronymic.valid
    ensures var run := UpdateUserByUUIDSpec(s, id, payload, env);
      id in run.state.users && run.state.users[id].patronymic.valid
  {
  }

  /** A passport number that another user holds is reported as
      ErrDuplicateEntry and nothing changes. */
  lemma UpdateUserDuplicatePassport(s: State, id: Uuid, other: Uuid, payload: UpdateUserPayload, env: Env)
    requires id in s.users && other in s.users && other != id && FaultAt(env, 0).None?
    requires payload.passportNumber == Some(s.users[other].passportNumber)
    ensures UpdateUserByUUIDSpec(s, id, payload, env).result == Failure(ErrDuplicateEntry)
    ensures UpdateUserByUUIDSpec(s, id, payload, env).state == s
  {
    var p := UpdateUserParamsOf(id, payload);
    assert other in PassportOwners(s, Coalesce(p.passportNumber, s.users[id].passportNumber)) - {id};
  }

  /** Updating a missing user does not report ErrNoRows: the store's "no rows"
      comes back wrapped as an update failure, and nothing changes. */
  lemma UpdateMissingUser(s: State, id: Uuid, payload: UpdateUserPayload, env: Env)
    requires id !in s.users && FaultAt(env, 0).None?
    ensures var run := UpdateUserByUUIDSpec(s, id, payload, env);
      && run.result == Failure(Wrapped("failed to update user", FromStore(NoRows)))
      && !Is(run.result.error, ErrNoRows)
      && run.state == s
  {
  }

  lemma UpdateUserValid(s: State, id: Uuid, payload: UpdateUserPayload, env: Env)
    requires Valid(s)
    ensures Valid(UpdateUserByUUIDSpec(s, id, payload, env).state)
  {
    UpdateUserByUUIDOpValid(s, UpdateUserParamsOf(id, payload), env.now, FaultAt(env, 0));
  }

  /** The number of deletes a call issued. */
  function DeleteCount(calls: seq<Call>): (n: nat)
    ensures n <= |calls|
  {
    if calls == [] then 0
    else (if calls[|calls| - 1].DeleteUserByUUID? then 1 else 0) + DeleteCount(calls[..|calls| - 1])
  }

  /** Check before delete: the lookup comes first, and exactly one delete is
      issued when it finds the user and none otherwise. */
  lemma DeleteChecksFirst(s: State, id: Uuid, env: Env)
    ensures var run := DeleteUserByUUIDSpec(s, id, env);
      && run.calls[0] == Call.GetUserByUUID(PgUuid(id, true))
      && (DeleteCount(run.calls) == 1 <==> GetUserByUUIDOp(s, PgUuid(id, true), FaultAt(env, 0)).Success?)
      && DeleteCount(run.calls) <= 1
  {
    var run := DeleteUserByUUIDSpec(s, id, env);
    assert DeleteCount([Call.GetUserByUUID(PgUuid(id, true))]) == 0;
    if |run.calls| == 2 {
      assert run.calls[..1] == [Call.GetUserByUUID(PgUuid(id, true))];
    }
  }

  /** Deleting a missing user is ErrNoRows, with no delete issued. */
  lemma DeleteMissingUser(s: State, id: Uuid, env: Env)
    requires id !in s.users && FaultAt(env, 0).None?
    ensures var run := DeleteUserByUUIDSpec(s, id, env);
      && run.result == Failure(ErrNoRows)
      && run.state == s
      && run.calls == [Call.GetUserByUUID(PgUuid(id, true))]
  {
  }

  /** A user without a live task is removed, and nothing else changes. */
  lemma DeleteRemovesUser(s: State, id: Uuid, env: Env)
    requires id in s.users && id !in s.tasks && FaultAt(env, 0).None? && FaultAt(env, 1).None?
    ensures var run := DeleteUserByUUIDSpec(s, id, env);
      && run.result == Success(())
      && run.state == s.(users := s.users - {id})
  {
  }

  /** A user with a live task is not removed: the foreign-key violation comes
      back wrapped and nothing changes. */
  lemma DeleteUserWithLiveTask(s: State, id: Uuid, env: Env)
    requires id in s.users && id in s.tasks && FaultAt(env, 0).None? && FaultAt(env, 1).None?
    ensures var run := DeleteUserByUUIDSpec(s, id, env);
      && run.result == Failure(Wrapped("failed to delete user", FromStore(PgError(ForeignKeyViolationCode))))
      && run.state == s
  {
  }

  lemma DeleteUserValid(s: State, id: Uuid, env: Env)
    requires Valid(s)
    ensures Valid(DeleteUserByUUIDSpec(s, id, env).state)
  {
    DeleteUserByUUIDOpValid(s, PgUuid(id, true), FaultAt(env, 1));
  }

  // ---------------------------------------------------------------------------
  // The service object

  class UserService {
    const repository: Querier

    constructor (repository: Querier)
      ensures this.repository == repository
    {
      this.repository := repository;
    }

    method CreateUser(payload: CreateUserPayload, env: Env) returns (r: Result<User, Error>)
      modifies repository
      ensures var run := CreateUserSpec(old(repository.Rows()), payload, env);
        repository.Rows() == run.state && repository.calls == old(repository.calls) + run.calls && r == run.result
    {
      var patronymic := NullText;
      if payload.patronymic.Some? {
        patronymic := PgText(payload.patronymic.value, true);
      }
      var params := CreateUserParams(payload.passportNumber, payload.name, payload.surname, patronymic,
                                     payload.address);
      var userRaw := repository.CreateUser(params, env.now, env.freshId, FaultAt(env, 0));
      if userRaw.Failure? {
        if userRaw.error.PgError? && userRaw.error.code == UniqueViolationCode {
          return Failure(ErrDuplicateEntry);
        }
        return Failure(Wrapped("failed to create user", FromStore(userRaw.error)));
      }
      var user := ConvertDBUserToModelsUser(userRaw.value);
      if user.Failure? {
        return Failure(Message("Error converting user"));
      }
      return Success(user.value);
    }

    method GetUsers(limit: int, offset: int, filters: map<string, string>, env: Env)
      returns (r: Result<seq<User>, Error>)
      modifies repository
      ensures var run := GetUsersSpec(old(repository.Rows()), limit, offset, filters, env);
        repository.Rows() == run.state && repository.calls == old(repository.calls) + run.calls && r == run.result
    {
      var params := GetUsersParams(WrapInt32(limit), WrapInt32(offset), NullText, NullText, NullText, NullText,
                                   NullText);
      if PassportNumberKey in filters {
        params := params.(passportNumber := ToPgText(Some(filters[PassportNumberKey])));
      }
      if NameKey in filters {
        params := params.(name := ToPgText(Some(filters[NameKey])));
      }
      if SurnameKey in filters {
        params := params.(surname := ToPgText(Some(filters[SurnameKey])));
      }
      if PatronymicKey in filters {
        params := params.(patronymic := ToPgText(Some(filters[PatronymicKey])));
      }
      if AddressKey in filters {
        params := params.(address := ToPgText(Some(filters[AddressKey])));
      }
      var usersRaw := repository.GetUsers(params, env.userRows, FaultAt(env, 0));
      if usersRaw.Failure? {
        if usersRaw.error == NoRows {
          return Failure(ErrNoRows);
        }
        return Failure(Wrapped("failed to get users", FromStore(usersRaw.error)));
      }
      var rows := usersRaw.value;
      var users := new User[|rows|](_ => ZeroUser);
      for i := 0 to |rows|
        modifies users
        invariant users[..i] == ConvertUsers(rows[..i]).value
      {
        var user := ConvertDBUserToModelsUser(rows[i]);
        if user.Failure? {
          return Failure(Message("error converting user"));
        }
        users[i] := user.value;
        assert rows[..i + 1] == rows[..i] + [rows[i]];
        ConvertUsersAppend(rows[..i], rows[i]);
      }
      assert rows[..|rows|] == rows;
      assert users[..] == ConvertUsers(rows).value;
      return Success(users[..]);
    }

    method GetUserByUUID(id: Uuid, env: Env) returns (r: Result<User, Error>)
      modifies repository
      ensures var run := GetUserByUUIDSpec(old(repository.Rows()), id, env);
        repository.Rows() == run.state && repository.calls == old(repository.calls) + run.calls && r == run.result
    {
      var pgId := PgUuid(id, true);
      var userRaw := repository.GetUserByUUID(pgId, FaultAt(env, 0));
      if userRaw.Failure? {
        if userRaw.error == NoRows {
          return Failure(ErrNoRows);
        }
        return Failure(Wrapped("failed to get user", FromStore(userRaw.error)));
      }
      match ConvertDBUserToModelsUser(userRaw.value)
      case Failure(e) =>
        return Failure(Wrapped("failed to convert user", e));
      case Success(user) =>
        return Success(user);
    }

    method GetUserByPassportNumber(passportNumber: string, env: Env) returns (r: Result<User, Error>)
      requires Valid(repository.Rows())
      modifies repository
      ensures var run := GetUserByPassportNumberSpec(old(repository.Rows()), passportNumber, env);
        repository.Rows() == run.state && repository.calls == old(repository.calls) + run.calls && r == run.result
    {
      var userRaw := repository.GetUserByPassportNumber(passportNumber, FaultAt(env, 0));
      if userRaw.Failure? {
        if userRaw.error == NoRows {
          return Failure(ErrNoRows);
        }
        return Failure(Wrapped("failed to get user", FromStore(userRaw.error)));
      }
      var user := ConvertDBUserToModelsUser(userRaw.value);
      if user.Failure? {
        return Failure(Message("Error converting user"));
      }
      return Success(user.value);
    }

    method UpdateUserByUUID(id: Uuid, payload: UpdateUserPayload, env: Env) returns (r: Result<User, Error>)
      modifies repository
      ensures var run := UpdateUserByUUIDSpec(old(repository.Rows()), id, payload, env);
        repository.Rows() == run.state && repository.calls == old(repository.calls) + run.calls && r == run.result
    {
      var params := UpdateUserByUUIDParams(PgUuid(id, true), ToPgText(payload.name), ToPgText(payload.surname),
                                           ToPgText(payload.patronymic), ToPgText(payload.address),
                                           ToPgText(payload.passportNumber));
      var userRaw := repository.UpdateUserByUUID(params, env.now, FaultAt(env, 0));
      if userRaw.Failure? {
        if userRaw.error.PgError? && userRaw.error.code == UniqueViolationCode {
          return Failure(ErrDuplicateEntry);
        }
        return Failure(Wrapped("failed to update user", FromStore(userRaw.error)));
      }
      var user := ConvertDBUserToModelsUser(userRaw.value);
      if user.Failure? {
        return Failure(Message("Error converting user"));
      }
      return Success(user.value);
    }

    method DeleteUserByUUID(id: Uuid, env: Env) returns (r: Result<(), Error>)
      modifies repository
      ensures var run := DeleteUserByUUIDSpec(old(repository.Rows()), id, env);
        repository.Rows() == run.state && repository.calls == old(repository.calls) + run.calls && r == run.result
    {
      var pgId := PgUuid(id, true);
      var found := repository.GetUserByUUID(pgId, FaultAt(env, 0));
      if found.Failure? {
        if found.error == NoRows {
          return Failure(ErrNoRows);
        }
        return Failure(Wrapped("failed to get user", FromStore(found.error)));
      }
      var deleted := repository.DeleteUserByUUID(pgId, FaultAt(env, 1));
      if deleted.Failure? {
        return Failure(Wrapped("failed to delete user", FromStore(deleted.error)));
      }
      return Success(());
    }
  }

  /** Converting one more row appends its user. */
  lemma {:induction false} ConvertUsersAppend(rows: seq<DbUser>, row: DbUser)
    ensures ConvertUsers(rows + [row]).value == ConvertUsers(rows).value + [ConvertDBUserToModelsUser(row).value]
  {
    var a := ConvertUsers(rows + [row]).value;
    var b := ConvertUsers(rows).value + [ConvertDBUserToModelsUser(row).value];
    assert |a| == |b|;
    forall i | 0 <= i < |a| ensures a[i] == b[i] {
      if i < |rows| {
        assert (rows + [row])[i] == rows[i];
      }
    }
  }
}
