/** Shared result shapes: Rust's `Option` and the sea-orm `Result<T, DbErr>`
    a database helper returns, with `DbErr::RecordNotFound` kept apart from
    every other database error. */
module Common {

  datatype Option<+T> = None | Some(value: T)

  /** The answer of one database call. */
  datatype DbResult<+T> = Ok(value: T) | RecordNotFound | DbError

  /** `result.unwrap_or_default()` for a list-valued query. */
  function OrEmpty<T>(r: DbResult<seq<T>>): seq<T>
  {
    if r.Ok? then r.value else []
  }
}
