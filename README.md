# time-tracker, modelled in Dafny

time-tracker is a Go HTTP service. It keeps a register of users, each with a passport number. A user can start one task at a time and stop it; stopping archives the task, with its duration, in a history table. A report lists the archived durations of a trailing window of days. A second, standalone "people" endpoint parses a passport string on its own.

This project models the core of that service:

- the HTTP handlers for users, tasks and people (`internal/handler/*.go`);
- the user and task services (`internal/service/user.go`, `internal/service/task.go`);
- the row converters (`pkg/utils/utils.go`).

It is laid out as follows:

- `wrappers.dfy` has `Option`, `Result` and `Outcome`.
- `go_lib.dfy` (`GoLib`) models the Go standard library behaviour the core relies on:
  - `strconv.Atoi`, with its optional sign and 64-bit range;
  - `strings.Split` on a one-character separator;
  - `len` of a string, counted in UTF-8 bytes;
  - 64-bit wrap-around of `int` multiplication and the `int32(…)` conversion.
- `gin.dfy` (`Gin`) has gin's `Query` and `DefaultQuery`.
- `errors.dfy` (`Errors`, `Http`) has the service's error values, `errors.Is` over wrapped errors, and the status codes.
- `models.dfy` (`Models`, `Db`) has the API records and the pgx/sqlc row records.
- `utils.dfy` (`Utils`) has the row converters and `ToPgText`.
- `store.dfy` (`Store`) is an abstract model of the sqlc query layer:
  - the rows as maps (`users`, live `tasks` keyed by user, `history`);
  - one function per query, giving the new rows and the result. Each query can be made to fail through an environment value.
  - `Querier`, a class that runs those queries in place and records the queries issued.
- `task_service.dfy` and `user_service.dfy` specify each service operation as a function from the rows and an environment to a `Run`. A `Run` holds the new rows, the queries issued in order, and the result. The environment carries the clock, the fresh UUID, the durations and rows the aggregating SQL computes, and per-query faults. Each service class (`TaskService`, `UserService`) has one method per operation. These methods run the queries through the `Querier` and are proved to agree with the function. The lemmas beside them state what the operation does.
- `task_handler.dfy`, `user_handler.dfy` and `people_handler.dfy` model the request checks and the error-to-status tables. They also connect the two: given the rows, the status a request gets.

Where the code's behaviour differs from what its own swagger annotations announce, the model follows the code and proves the difference:

- **Stopping a task is not atomic.** `FinishTask` (internal/service/task.go:59-99) runs three writes with no transaction: it sets the end time, inserts the history row, and deletes the live row. A failure after the first write is returned, but the earlier writes stay. `FinishInsertFailureKeepsEndTime` shows that a failed insert leaves the live row with its new end time and no history. `FinishDeleteFailureKeepsBoth` shows that a failed delete leaves both the history row and the ended live row.
- **Starting a task writes two responses on failure.** The annotations of `StartTimeTask` (internal/handler/task.go:31-32) announce 400 and 409. The code writes 400 for an unknown user or 409 for a second live task. It does not return after that write, so it also writes a 500 (`StartTimeTaskWrites`).
- **Several user responses are 500, not 404 or 409.** The annotations announce:
  - 409 for a duplicate user (internal/handler/user.go:31 and 210);
  - 404 for no user (internal/handler/user.go:74, 125, 170, 209 and 270).

  The user service reports these cases as `ErrDuplicateEntry`, `ErrNoRows` or a wrapped store error. The handlers test for `ErrUserAlreadyExists`, `ErrUserNotFound` and `ErrUsersNotFound` instead. Those three are not defined in the files modelled here. Taken as sentinels distinct from the service's own errors, none of them ever matches, so those answers are 500. The lemmas that show this are `CreateUserDuplicateAnswers500`, `GetUserByPassportNumberMissingAnswers500`, `MissingUserAnswers500`, `UpdateUserStatuses` and `GetAllUsersNever404`.

## Model

| member | source | states |
|---|---|---|
| GoLib.Atoi | internal/handler/task.go:171-174 | `strconv.Atoi`: succeeds exactly on an optional sign followed by at least one ASCII digit whose value fits in 64 bits, and yields that signed value |
| GoLib.AtoiItoa | internal/handler/task.go:171-174 | every 64-bit integer written in canonical decimal parses back to itself |
| GoLib.WrapInt64 | internal/handler/task.go:176-184 | Go's 64-bit `int` product: the result is in the int64 range, congruent to the mathematical value modulo 2^64, and equal to it when it fits |
| GoLib.WrapInt32 | internal/service/task.go:113 | `int32(…)`: the result is in the int32 range, congruent modulo 2^32, and unchanged when it fits |
| GoLib.Split | internal/handler/people.go:30 | `strings.Split` on one character: one more piece than separators, no piece contains the separator, and joining the pieces with it gives back the input |
| GoLib.SplitJoin | internal/handler/people.go:30-37 | splitting the join of separator-free pieces gives back exactly those pieces |
| GoLib.Utf8Len | internal/handler/people.go:39 | `len` of a string: at least its character count, and equal to it exactly when every character is ASCII |
| Utils.TextOption | pkg/utils/utils.go:19-22 | a nullable text column read back: absent exactly when NULL, otherwise its string |
| Utils.ToPgText | pkg/utils/utils.go:64-69 | `ToPgText`: a nil pointer becomes NULL and a value becomes valid text holding it; reading it back gives the option it came from |
| Utils.ToPgTextOfTextOption | pkg/utils/utils.go:64-69 | a text column survives being read back and written again exactly when it is valid or the canonical NULL |
| Utils.ConvertDBUserToModelsUser | pkg/utils/utils.go:12-34 | the conversion succeeds (a stored UUID is 16 bytes); every column is carried over, and the patronymic is present exactly when its column is not NULL |
| Utils.ConvertUserRoundTrip | pkg/utils/utils.go:12-34 | converting the row a user is stored as gives back that user |
| Utils.ConvertUserLosesOnlyNulls | pkg/utils/utils.go:19-33 | a row is recovered from its converted user exactly when its UUID and timestamps are valid and its patronymic is valid or the canonical NULL |
| Utils.ConvertDBTaskToModelsTask | pkg/utils/utils.go:36-62 | the conversion succeeds; both UUIDs, the name and the start time are carried over; the end time is present exactly when its column is valid |
| Utils.ConvertTaskRoundTrip | pkg/utils/utils.go:49-61 | converting the row a task is stored as gives back that task |
| Utils.ConvertDBTaskHistoryToModelsTaskHistory | pkg/utils/utils.go:71-90 | a history row never fails to convert; each UUID or time column is copied when valid and left zero otherwise; the name is copied and the task UUID is never set |
| Utils.ConvertTaskHistoryRoundTrip | pkg/utils/utils.go:71-90 | a stored history entry converts back to itself exactly when its task UUID is the zero UUID |
| TaskService.ClassifyCreateTaskError | internal/service/task.go:38-48 | SQLSTATE 23503 becomes ErrForeignKeyViolation and 23505 ErrTaskAlreadyExists, each exactly then; any other store error is returned as it is |
| TaskService.ClassifyLookupError | internal/service/task.go:62-76 | "no rows" becomes the given sentinel, exactly then; any other failure is returned unchanged |
| TaskService.CreateTaskSpec | internal/service/task.go:32-57 | the start as one step: insert the live task, classify a failure, convert the row. Its properties are stated by CreateTaskWhileActive, CreateTaskUnknownUser, CreateTaskStarts and CreateTaskFailureChangesNothing. |
| TaskService.CreateTaskWhileActive | internal/service/task.go:38-46 | a user with a live task cannot start another: ErrTaskAlreadyExists, and no row changes |
| TaskService.CreateTaskUnknownUser | internal/service/task.go:38-43 | starting a task for an unknown user is ErrForeignKeyViolation, and no row changes |
| TaskService.CreateTaskStarts | internal/service/task.go:32-57 | a user without a live task gets one running, with the given name, started now; only that row is added |
| TaskService.CreateTaskFailureChangesNothing | internal/service/task.go:38-49 | a failed start changes no row |
| TaskService.FinishTaskSpec | internal/service/task.go:59-99 | the stop as four queries: look up the user, set the end time, insert the history row, delete the live row. The first failure is returned, after the writes made before it. Its properties are stated by the Finish lemmas below. |
| TaskService.FinishUnknownUser | internal/service/task.go:62-68 | an unknown user is ErrUserNotFound, after one lookup and with no row touched |
| TaskService.FinishWithoutLiveTask | internal/service/task.go:70-76 | a known user with no live task is ErrTaskNotFound: no history is written, no delete is issued, no row changes |
| TaskService.FinishArchives | internal/service/task.go:78-98 | a successful stop appends exactly one history row: the user's UUID, the task's name and start time, and an end time of now. The live row is removed and the users are untouched. |
| TaskService.FinishStepOrder | internal/service/task.go:59-99 | the queries are always a prefix of lookup, update, insert, delete; the call fails whenever it stops before the delete, and a success issued all four |
| TaskService.FinishInsertFailureKeepsEndTime | internal/service/task.go:78-83 | no rollback: when the history insert fails, the live row keeps its new end time and no history is written |
| TaskService.FinishDeleteFailureKeepsBoth | internal/service/task.go:85-88 | no rollback: when the delete fails, the history row is written and the ended task row remains |
| TaskService.FinishTaskValid | internal/service/task.go:59-99 | stopping a task, however far it gets, keeps the store's invariants |
| TaskService.StartThenFinish | internal/service/task.go:32-99 | starting and then stopping a task without failures leaves one new history row with the task's name, the user's UUID and the start time, and no live task |
| TaskService.CompletedTasksOf | internal/service/task.go:125-131 | one result entry per aggregated row |
| TaskService.GetTasksResultSpec | internal/service/task.go:101-137 | the report: look up the user, query the window of `int32(days)` days, then report no rows as ErrTaskNotFound or build the entries. Its properties are stated by the GetTasksResult lemmas below. |
| TaskService.GetTasksResultChecksUserFirst | internal/service/task.go:103-116 | the report changes no row; the user lookup comes first, and the window is queried exactly when it succeeds |
| TaskService.GetTasksResultWindow | internal/service/task.go:111-114 | the interval handed to the store is exactly the requested number of days whenever it fits in 32 bits |
| TaskService.GetTasksResultRows | internal/service/task.go:116-136 | no rows is ErrTaskNotFound, exactly then. Otherwise there is one entry per row, in order, with the row's name and duration, and the total is taken from row 0. |
| TaskService.GetTasksResultUnknownUser | internal/service/task.go:103-109 | an unknown user is ErrUserNotFound, after the lookup alone |
| TaskService.TaskService.constructor | internal/service/task.go:26-30 | the service holds the given repository |
| TaskService.TaskService.CreateTask | internal/service/task.go:32-57 | the queries issued, the new rows and the result are those of the start specification |
| TaskService.TaskService.FinishTask | internal/service/task.go:59-99 | the queries issued, the new rows and the result are those of the stop specification |
| TaskService.TaskService.GetTasksResult | internal/service/task.go:101-137 | the report, with its entry-building loop, matches the report specification; the store is read, not changed |
| UserService.CreateUserParamsOf | internal/service/user.go:33-44 | the insert carries the required fields as given; the patronymic is NULL exactly when absent, and otherwise holds its value |
| UserService.GetUsersParamsOf | internal/service/user.go:63-82 | limit and offset are narrowed with `int32(…)`, and are unchanged when they fit. Each filter parameter is set exactly when its name is in the map, and then holds that value. |
| UserService.GetUsersFiltersRoundTrip | internal/service/user.go:68-82 | no filter is lost or invented: the parameters apply exactly the understood filters of the map, with their values |
| UserService.UpdateUserParamsOf | internal/service/user.go:140-147 | each update parameter is NULL exactly when its field is absent, and otherwise holds the payload's string |
| UserService.ClassifyWriteError | internal/service/user.go:47-51 | a unique violation becomes ErrDuplicateEntry, exactly then; any other failure is wrapped and still matches the store's error under `errors.Is` |
| UserService.ClassifyReadError | internal/service/user.go:85-90 | "no rows" becomes ErrNoRows, exactly then; any other failure is wrapped |
| UserService.ConvertUsers | internal/service/user.go:92-101 | the listing converts every row, one user per row, in the rows' order |
| UserService.ConvertUsersOfRows | internal/service/user.go:92-101 | converting the rows that users are stored as gives back those users |
| UserService.CreateUserSpec | internal/service/user.go:32-60 | the create as one insert, with its failure classified and the row converted. Its properties are stated by CreateUserDuplicatePassport, CreateUserStores, CreateUserFailure and CreateUserValid. |
| UserService.CreateUserDuplicatePassport | internal/service/user.go:46-50 | a passport number already taken is ErrDuplicateEntry, and nothing is stored |
| UserService.CreateUserStores | internal/service/user.go:32-60 | a new user is stored and returned as given, patronymic included, with both timestamps set to now |
| UserService.CreateUserFailure | internal/service/user.go:46-52 | a failed create stores nothing. Its error is ErrDuplicateEntry exactly when the driver reports SQLSTATE 23505, or when the UUID or the passport number is already taken. Any other error is the driver's error wrapped as "failed to create user". |
| UserService.CreateUserValid | internal/service/user.go:32-60 | creating a user keeps the store's invariants |
| UserService.GetUsersSpec | internal/service/user.go:62-102 | the listing: one query with the narrowed limit and offset and the filters, then the rows converted. Its properties are stated by GetUsersListsRows. |
| UserService.GetUsersListsRows | internal/service/user.go:62-102 | listing changes nothing and issues one query with the mapped parameters. Its result is exactly the conversion of the store's rows: one user per row, in order. |
| UserService.GetUserByUUIDSpec | internal/service/user.go:104-121 | the lookup by UUID: one query and the conversion. Its properties are stated by GetUserByUUIDFinds. |
| UserService.GetUserByUUIDFinds | internal/service/user.go:104-121 | an existing user is returned, a missing one is ErrNoRows, and nothing changes |
| UserService.GetUserByPassportNumberSpec | internal/service/user.go:123-137 | the lookup by passport number: one query and the conversion. Its properties are stated by GetUserByPassportNumberFinds. |
| UserService.GetUserByPassportNumberFinds | internal/service/user.go:123-137 | nothing changes; with no holder the result is ErrNoRows, exactly then; otherwise it is the stored row of the holder, converted |
| UserService.UpdateUserByUUIDSpec | internal/service/user.go:139-163 | the partial update: one query with the NULL-or-value parameters, its failure classified, the row converted. Its properties are stated by the UpdateUser lemmas below. |
| UserService.UpdateUserChangesGivenFields | internal/service/user.go:139-163 | an update of an existing user with no passport clash changes exactly the given fields, keeps the UUID and the creation time, and stamps the update time. The stored row converts to the user returned. No other user, task or history row changes, and no key is added or removed. |
| UserService.UpdateUserKeepsPatronymic | internal/service/user.go:140-147 | a patronymic can be set but never cleared |
| UserService.UpdateUserDuplicatePassport | internal/service/user.go:149-153 | taking another user's passport number is ErrDuplicateEntry, and nothing changes |
| UserService.UpdateMissingUser | internal/service/user.go:149-155 | updating a missing user is not ErrNoRows: "no rows" comes back wrapped as an update failure, and nothing changes |
| UserService.UpdateUserValid | internal/service/user.go:139-163 | updating a user keeps the store's invariants |
| UserService.DeleteUserByUUIDSpec | internal/service/user.go:165-181 | the delete: a lookup, then the delete when the user is found. Its properties are stated by the Delete lemmas below. |
| UserService.DeleteChecksFirst | internal/service/user.go:165-181 | the lookup comes first, and exactly one delete is issued when it finds the user, none otherwise |
| UserService.DeleteMissingUser | internal/service/user.go:168-174 | deleting a missing user is ErrNoRows, with no delete issued |
| UserService.DeleteRemovesUser | internal/service/user.go:176-180 | a user without a live task is removed, and nothing else changes |
| UserService.DeleteUserWithLiveTask | internal/service/user.go:176-178 | a user with a live task is kept: the foreign-key failure comes back wrapped, and nothing changes |
| UserService.DeleteUserValid | internal/service/user.go:165-181 | deleting a user keeps the store's invariants |
| UserService.UserService.constructor | internal/service/user.go:26-30 | the service holds the given repository |
| UserService.UserService.CreateUser | internal/service/user.go:32-60 | the query, the new rows and the result are those of the create specification |
| UserService.UserService.GetUsers | internal/service/user.go:62-102 | the listing, with its conversion loop, matches the listing specification; the store is read, not changed |
| UserService.UserService.GetUserByUUID | internal/service/user.go:104-121 | matches the lookup specification; nothing changes |
| UserService.UserService.GetUserByPassportNumber | internal/service/user.go:123-137 | matches the passport lookup specification; nothing changes |
| UserService.UserService.UpdateUserByUUID | internal/service/user.go:139-163 | the query, the new rows and the result are those of the update specification |
| UserService.UserService.DeleteUserByUUID | internal/service/user.go:165-181 | the lookup, the delete, the new rows and the result are those of the delete specification |
| TaskHandler.PeriodFactor | internal/handler/task.go:176-186 | a period has a factor exactly when it is day, week, month or year; the factor is 1, 7, 30 or 365 |
| TaskHandler.ConvertPeriodToDays | internal/handler/task.go:170-188 | a non-integer amount is "invalid time amount" whatever the period; a valid amount with an unknown period is "invalid period value"; success happens exactly when both are valid, and the result is a 64-bit value |
| TaskHandler.ConvertPeriodToDaysWrapped | internal/handler/task.go:176-184 | for every accepted period and amount, the day count is the 64-bit wrap-around of the factor times the amount |
| TaskHandler.ConvertPeriodToDaysProduct | internal/handler/task.go:176-184 | when the factor times the amount fits in 64 bits, the day count is exactly that product |
| TaskHandler.ConvertPeriodToDaysTable | internal/handler/task.go:176-184 | for a valid period, every integer written in canonical decimal whose product with that period's factor fits in 64 bits converts to that product |
| TaskHandler.ConvertPeriodToDaysSign | internal/handler/task.go:171-184 | negative amounts are accepted: when the product fits in 64 bits, the day count has the amount's sign and is zero exactly when the amount is |
| TaskHandler.ConvertPeriodToDaysInvertible | internal/handler/task.go:176-184 | when the product fits in 64 bits, dividing the day count by the factor gives back the amount, with no remainder |
| TaskHandler.ConvertPeriodToDaysWraps | internal/handler/task.go:183-184 | with overflow the count wraps: 25269512429739112 years gives a negative day count |
| TaskHandler.PeriodParam | internal/handler/task.go:135 | the period is the `timePeriod` query value when present, "day" otherwise; TasksResultDaysDefault and GetTasksResultBadQuery use it |
| TaskHandler.AmountParam | internal/handler/task.go:136 | the amount is the query value when present, "1" otherwise |
| TaskHandler.TasksResultDays | internal/handler/task.go:135-147 | the request passes exactly when the conversion succeeds, with its value; the `validPeriods` gate rejects nothing more; any failure is 400 |
| TaskHandler.TasksResultDaysDefault | internal/handler/task.go:135-136 | with no query parameters the window is one day |
| TaskHandler.TasksResultDaysEmptyAmount | internal/handler/task.go:136-147 | an amount that is present but empty is 400, not the default |
| TaskHandler.TasksResultStatus | internal/handler/task.go:150-167 | 200 exactly on success; 404 exactly for ErrUserNotFound; 204 exactly for ErrTaskNotFound otherwise; anything else 500 |
| TaskHandler.GetTasksResultResponse | internal/handler/task.go:127-168 | the report endpoint after the path is parsed: the status and the queries issued. Its properties are stated by GetTasksResultBadQuery and GetTasksResultStatuses. |
| TaskHandler.GetTasksResultBadQuery | internal/handler/task.go:138-147 | a bad period or amount is 400, and no query is issued |
| TaskHandler.GetTasksResultStatuses | internal/handler/task.go:149-167 | with a good query: an unknown user is 404, a user with no rows in the window 204, and one with rows 200 |
| TaskHandler.StopTimeTaskStatus | internal/handler/task.go:92-107 | 200 exactly on success; 404 exactly when the user or the task is not found; anything else 500 |
| TaskHandler.StopTimeTaskStatuses | internal/handler/task.go:92-110 | stopping is 404 for an unknown user and for a user with no live task, 500 when the archive fails, and 200 when it succeeds |
| TaskHandler.StartTimeTaskWrites | internal/handler/task.go:53-68 | 201 alone exactly on success; every failure ends with a written 500, after the 400 (foreign-key violation) or 409 (task already exists) written first |
| TaskHandler.StartTimeTaskStatuses | internal/handler/task.go:52-65 | a second start writes 409 then 500; a start for an unknown user writes 400 then 500; a fresh start writes 201 |
| UserHandler.PassportFormat | internal/handler/user.go:314-320 | the regular expression `^\d{4} \d{6}$`; ValidatePassportNumber, PassportFormatParts and PassportFormatExamples state what it accepts |
| UserHandler.ValidatePassportNumber | internal/handler/user.go:314-320 | passes exactly on `^\d{4} \d{6}$`: four ASCII digits, a space, six ASCII digits, nothing else |
| UserHandler.PassportFormatParts | internal/handler/user.go:138-139 | a series and a number joined by a space pass exactly when the series is four digits and the number six |
| UserHandler.PassportFormatExamples | internal/handler/user.go:314-319 | "1234 567890" passes; a misplaced space, a missing space or an empty string fails |
| UserHandler.ValidateCreateUserPayload | internal/handler/user.go:298-312 | the required fields are checked in order, each with its message, then the passport format; the payload passes exactly when all are present and the format holds |
| UserHandler.CreateUserStatus | internal/handler/user.go:48-61 | 201 exactly on success; 409 exactly for ErrUserAlreadyExists; anything else 500 |
| UserHandler.CreateUserResponse | internal/handler/user.go:42-61 | the create endpoint after the body is bound: an invalid payload is 400 with no query; otherwise the service's outcome decides the status. CreateUserDuplicateAnswers500 states its property. |
| UserHandler.CreateUserDuplicateAnswers500 | internal/handler/user.go:48-57 | a valid payload with a taken passport number is answered 500, not 409 |
| UserHandler.FiltersOf | internal/handler/user.go:92-97 | the filter map the loop builds; BuildFilters is proved to compute it, and ListingFiltersFromQuery states what reaches the store |
| UserHandler.BuildFilters | internal/handler/user.go:92-97 | the filter loop keeps each of the five names whose query value is not empty, with that value, and no other key |
| UserHandler.UserParamsAreFilterKeys | internal/handler/user.go:21 | the handler's five names are the five filters the service understands |
| UserHandler.ListingFiltersFromQuery | internal/handler/user.go:92-100 | a filter reaches the store exactly when its query value is not empty, and carries that value |
| UserHandler.LimitOffset | internal/handler/user.go:78-90 | limit and offset must parse as integers (a present empty value is not defaulted); each failure is 400 |
| UserHandler.LimitOffsetDefaults | internal/handler/user.go:78-90 | with neither present, the listing asks for 10 users from offset 0 |
| UserHandler.GetAllUsersStatus | internal/handler/user.go:100-113 | 200 exactly on success; 404 exactly for ErrUsersNotFound; anything else 500 |
| UserHandler.GetAllUsersResponse | internal/handler/user.go:78-113 | the listing endpoint: the status and the queries issued. GetAllUsersNever404 states its properties. |
| UserHandler.GetAllUsersNever404 | internal/handler/user.go:100-110 | the listing never answers 404. A bad limit or offset is 400 with no query, a failing query is 500, and any other listing is 200, an empty one included |
| UserHandler.PassportQuery | internal/handler/user.go:129-143 | the lookup passes exactly when the series and the number, joined by a space, have the passport format; the joined string is what is looked up |
| UserHandler.PassportQueryAccepts | internal/handler/user.go:129-143 | the lookup reaches the service exactly when the series is four digits and the number six |
| UserHandler.UserNotFoundStatus | internal/handler/user.go:146-156 | 200 exactly on success; 404 exactly for ErrUserNotFound; anything else 500 |
| UserHandler.GetUserByPassportNumberResponse | internal/handler/user.go:128-159 | the passport lookup endpoint: the status and the queries issued. GetUserByPassportNumberMissingAnswers500 states its property. |
| UserHandler.GetUserByPassportNumberMissingAnswers500 | internal/handler/user.go:146-156 | a well-formed passport number that nobody holds is answered 500, not 404 |
| UserHandler.MissingUserAnswers500 | internal/handler/user.go:183-192 | looking up or deleting a missing UUID is answered 500, not 404 |
| UserHandler.HasUpdateFields | internal/handler/user.go:229-233 | the "at least one field" guard of `UpdateUser`; UpdateGuardMatchesParams and UpdateUserStatuses state its effect |
| UserHandler.UpdateGuardMatchesParams | internal/handler/user.go:229-233 | the "no fields" guard skips exactly the updates whose every parameter would be NULL |
| UserHandler.UpdateUserStatus | internal/handler/user.go:237-254 | 200 exactly on success; 404 exactly for ErrUserNotFound; 409 exactly for ErrUserAlreadyExists otherwise; anything else 500 |
| UserHandler.UpdateUserResponse | internal/handler/user.go:229-259 | the update endpoint after the body and path are parsed: the status, the queries issued and the new rows. UpdateUserStatuses states its properties. |
| UserHandler.UpdateUserStatuses | internal/handler/user.go:229-259 | an empty update is 200 with no query and no change; a missing user or a taken passport number is 500 |
| PeopleHandler.ParsePassport | internal/handler/people.go:25-54 | an empty passport is "Passport number is required"; anything but exactly one space is "Invalid passport number format"; success needs exactly one space |
| PeopleHandler.ParsePassportAccepts | internal/handler/people.go:30-54 | a series and a number joined by one space are accepted exactly when they are 4 and 6 bytes long and both parse as integers; their values reach the service |
| PeopleHandler.ParsePassportOfFormat | internal/handler/people.go:39-54 | every passport number the user endpoints accept parses here, to the values of its two digit groups |
| PeopleHandler.ParsePassportAcceptsSigns | internal/handler/people.go:44-54 | the converse fails: a signed 3-digit series and a signed 5-digit number pass here but not the user endpoints' format |
| PeopleHandler.GetPeopleQuery | internal/handler/people.go:70-88 | passes exactly when both values parse as integers, and yields them; an empty value is "Passport series and number are required" |
| PeopleHandler.GetPeopleQueryOfInts | internal/handler/people.go:78-88 | any two 64-bit integers in decimal reach the service unchanged, negative ones included; there is no length check |
| PeopleHandler.CreatePeopleStatus | internal/handler/people.go:56-66 | 200 exactly on success; 409 exactly for the repository's ErrDuplicateEntry; anything else 500 |
| PeopleHandler.GetPeopleStatus | internal/handler/people.go:90-100 | 200 exactly on success; 404 exactly for the repository's ErrNoRows; anything else 500 |

## Left out

- The SQL itself is not modelled. The database, the sqlc-generated queries and the schema are not part of this model. `Store` assumes the following, each stated in its functions:
  - one live task per user, enforced by a unique constraint;
  - foreign keys from tasks to users, with no cascade on delete;
  - a unique passport number per user;
  - `UpdateTaskEndTime` sets the end time of the user's task row whatever its current end time;
  - `updated_at` is the clock's now;
  - history rows carry a NULL `task_uuid`.
- The aggregating query behind the report (durations per task and their total) and the durations the archive insert computes are SQL and not modelled. They are taken from the environment (`Env.taskRows`, `Env.duration`). A duration is opaque text.
- The clock, UUID generation and database failures are not computed. They are parameters: `Env.now`, `Env.freshId`, and `Env.faults` for per-query failures.
- HTTP plumbing is not modelled: routing, JSON binding and encoding, UUID path parsing (`uuid.Parse`), and logrus logging. The models start after the body and path have been parsed, except that a failed bind or parse is always 400.
- The people repository and service (`internal/repository/people.go`, `internal/service/people.go`) are context, not core. Only the people handler's own parsing and status tables are modelled.
- Request contexts, cancellation and concurrency are left out: each request is modelled as running alone against the store.
- A query string is modelled as one value per key, the first one; repeated keys are not modelled.
- TaskHandler.StartTimeTaskWrites: gives the sequence of writes attempted, not what reaches the client. net/http keeps the first status, and gin appends the later bodies.
- UserService.UserService.GetUserByPassportNumber: requires the store invariant `Valid`, since the lookup by passport number is specified on a unique holder. The other operations are proved to keep that invariant.
- The type assertions `Duration.(string)` and `TotalDuration.(string)` (internal/service/task.go:97, 129, 135) panic when the store's value is not text. The model types durations as text, so that panic is not modelled.
- The sentinels `ErrUserAlreadyExists`, `ErrUserNotFound`, `ErrUsersNotFound` and `ErrForeignKeyViolation` are used by the handlers and the task service, but their definitions are not part of this model. They are taken to be distinct `errors.New` values, unequal to every other error and wrapping nothing. `CreateUserDuplicateAnswers500`, `GetUserByPassportNumberMissingAnswers500`, `MissingUserAnswers500`, `UpdateUserStatuses` and `GetAllUsersNever404` depend on that assumption. If any of them were an alias of a service sentinel (for example `ErrUserNotFound = ErrNoRows`), the corresponding answer would be 404 or 409 instead of 500.
