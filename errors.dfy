/** Error and result types of the metadata layer (MetadataError and Result of spi::catalog). */
module Errors {

  datatype Option<T> = None | Some(value: T)

  /** Every failure the catalog layer reports to its callers. */
  datatype MetadataError =
    | DatabaseNotExists(databaseName: string)
    | TableNotExists(tableName: string)
    | ColumnNotExists(tableName: string, columnName: string)
    | DatabaseAlreadyExists(databaseName: string)
    | ColumnAlreadyExists(tableName: string, columnName: string)
    | InvalidColumnDrop(tableName: string, columnName: string)
    | External(message: string)

  datatype Result<T> = Ok(value: T) | Err(error: MetadataError)

  /** `after` is what an operation whose effect on `before` is `step` leaves behind
      when it reports `r`: the new state on success, the untouched old one on failure. */
  predicate Applied<S(==)>(step: Result<S>, r: Result<()>, before: S, after: S)
  {
    match step
    case Ok(s) => r == Ok(()) && after == s
    case Err(e) => r == Err(e) && after == before
  }
}
