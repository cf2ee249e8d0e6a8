/**
 * What the route handlers see of the database client and of Express: a query
 * either yields its rows or fails with the client's error message, and a
 * handler answers with `res.json({ data })` or `res.status(code).json({ error })`.
 */
module Db {
  import opened Wrappers

  /** The outcome of a query: its rows, or the message of the error the client reported. */
  datatype Fetch<T> = Rows(rows: seq<T>) | Failed(message: string)

  /** A query ending in `.single()`: it yields a row only when exactly one row matches. */
  function Single<T>(f: Fetch<T>): (r: Option<T>)
    ensures r.Some? <==> f.Rows? && |f.rows| == 1
    ensures r.Some? ==> r.value == f.rows[0]
  {
    if f.Rows? && |f.rows| == 1 then Some(f.rows[0]) else None
  }

  /** A JSON response: a `data` payload, or an HTTP status with an `error` message. */
  datatype Response<T> = Ok(data: T) | Error(status: nat, error: string)

  /** `error.message || 'Erro interno do servidor'`, the answer of every handler's outer `catch`. */
  function InternalError<T>(message: string): (r: Response<T>)
    ensures r.Error? && r.status == 500 && r.error != ""
  {
    Error(500, if message != "" then message else "Erro interno do servidor")
  }
}
