/** The errors the services and handlers pass around, as one closed kind
    instead of Go's package-level sentinel values, and `errors.Is` over it. */
module Errors {

  /** What a call to the store can fail with. */
  datatype StoreError =
    | PgError(code: string)   // a *pgconn.PgError carrying a SQLSTATE code
    | NoRows                  // pgx.ErrNoRows: a one-row query found nothing
    | Driver(detail: string)  // any other failure of the driver or the connection

  /** SQLSTATE of a foreign-key violation. */
  const ForeignKeyViolationCode: string := "23503"
  /** SQLSTATE of a unique-constraint violation. */
  const UniqueViolationCode: string := "23505"

  /** Every error a service or a handler can see. Sentinels of different Go
      variables are different constructors: nothing here says that, for
      instance, the handlers' ErrUserAlreadyExists is the user service's
      ErrDuplicateEntry. */
  datatype Error =
    // internal/service/task.go
    | ErrTaskAlreadyExists
    | ErrTaskNotFound
    // service sentinels that internal/service/task.go and the handlers use but
    // whose definitions are not part of this model
    | ErrForeignKeyViolation
    | ErrUserNotFound
    | ErrUserAlreadyExists
    | ErrUsersNotFound
    // internal/service/user.go
    | ErrDuplicateEntry
    | ErrNoRows
    // internal/repository (tested by internal/handler/people.go)
    | ErrRepositoryDuplicateEntry
    | ErrRepositoryNoRows
    // a store error returned as it is
    | FromStore(cause: StoreError)
    // fmt.Errorf("<context>: %w", inner): keeps the chain errors.Is follows
    | Wrapped(context: string, inner: Error)
    // errors.New or fmt.Errorf without %w: the chain ends here
    | Message(text: string)

  /** `errors.Is(e, target)`: `e` is `target` or wraps it. */
  predicate Is(e: Error, target: Error) {
    e == target || (e.Wrapped? && Is(e.inner, target))
  }
}

/** The HTTP status codes the handlers answer with. */
module Http {
  const StatusOK: int := 200
  const StatusCreated: int := 201
  const StatusNoContent: int := 204
  const StatusBadRequest: int := 400
  const StatusNotFound: int := 404
  const StatusConflict: int := 409
  const StatusInternalServerError: int := 500
}
