/** The values the round ledger works on: CSV cells, round-table rows, observation tables. */
module Tables {

  datatype Option<T> = None | Some(value: T)

  /** Why an operation of the ledger stops: each case is an exception the source lets escape. */
  datatype Error =
    | RoundNotFound   // the round file to read does not exist
    | NotInitialized  // the component map or the objective list is read before initialize_scope set it
    | EmptyQuery      // the component map is empty, so the match query is the empty string
    | MissingColumn   // a column the operation indexes is absent from its table

  datatype Result<T> = Ok(value: T) | Err(error: Error)

  datatype Outcome = Pass | Fail(error: Error)

  /** A CSV cell: blank (read back as NaN) or its text. */
  datatype Cell = Blank | Val(text: string)

  /** One table row, from column name to cell. */
  type Record = map<string, Cell>

  /** A row of a round table: its component, objective and other cells, and its priority. */
  datatype Row = Row(cells: Record, priority: int)

  /** A round file: the column names other than `priority`, in file order, and the rows in file order. */
  datatype RoundTable = RoundTable(columns: seq<string>, rows: seq<Row>)

  /** An observation (training) table supplied by the caller. */
  datatype ObsTable = ObsTable(columns: seq<string>, records: seq<Record>)

  /** No element occurs twice. */
  predicate NoDuplicates<T(==)>(s: seq<T>) {
    forall i, j :: 0 <= i < j < |s| ==> s[i] != s[j]
  }

  /** The cell of `rec` in column `c`; an absent cell reads as blank. */
  function Get(rec: Record, c: string): Cell {
    if c in rec then rec[c] else Blank
  }
}
