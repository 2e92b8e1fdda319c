/** Failure-compatible wrappers and the error conditions the ingestion run can stop with. */
module Outcomes {

  datatype Option<+T> = None | Some(value: T)

  datatype Result<+T> = Success(value: T) | Failure(error: Error) {
    predicate IsFailure() { Failure? }

    function PropagateFailure<U>(): Result<U>
      requires Failure?
    {
      Failure(error)
    }

    function Extract(): T
      requires Success?
    {
      value
    }
  }

  /** The three roles a file extracted from one archive can play. */
  datatype Role = ItemsRole | EventsRole | InvoicesRole

  /** Every way the run can abort; each corresponds to an exception the source does not catch. */
  datatype Error =
    | NoFileFor(role: Role)              // `[...][0]` on an empty list comprehension (IndexError)
    | ColumnNotFound(column: string)     // `df[coluna]` on a column the frame lacks (KeyError)
    | MissingCodeColumn(column: string)  // the explicit ValueError of the sign deriver
    | UnparseableValue(column: string, row: nat)     // pd.to_numeric / pd.to_datetime refusing the value in this row
    | NoObjectsToConcatenate             // pd.concat of an empty list (ValueError)
}
