/** The failures the schema model raises, as values. */
module Errors {
  import opened Options

  /** Each kind of `ArgumentError` (or other failure) the core can raise. */
  datatype Error =
    | DuplicateColumn(column: Value, table: string) // add_column: "column ... is already defined"
    | DuplicateTable(table: string)     // add_table: "table ... is already defined"
    | InvalidDefaults(statement: string) // set_defaults: arguments left over
    | WrongArguments(statement: string)  // a statement called with the wrong number or kind of arguments
    | PairingMismatch(index: nat)        // each_pair: "invalid ... pair"
    | MissingBlock                       // define: "missing schema block"

  datatype Option<T> = None | Some(value: T)

  datatype Result<T> = Ok(value: T) | Err(error: Error)

  /** The outcome of an operation that returns nothing but may fail. */
  datatype Outcome = Pass | Fail(error: Error)
}
