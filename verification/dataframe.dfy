/**
 The data the dashboard works on: a table of named columns (a pandas
 DataFrame reduced to its column labels and cell values), the validation
 errors that halt a render pass, and the chart granularity selector.
 */
module DataFrame {

  /** One column: its header label and its cells, top to bottom. Device
      columns hold power readings in watts. The `Timestamp` column's cells are
      kept as reals too: parsing date-time text is outside the model. */
  datatype Column = Column(name: string, values: seq<real>)

  /** The loaded table, columns in header order. */
  datatype Table = Table(columns: seq<Column>)

  /** The label the timestamp column must carry. */
  const TimestampLabel: string := "Timestamp"

  /** The device-type choice that disables filtering. */
  const AllDevices: string := "All"

  /** The conditions under which the dashboard stops rendering. */
  datatype Error =
    | MissingTimestamp                   // no column labelled `Timestamp`
    | NoDeviceColumns                    // nothing but the timestamp column
    | NoMatchingDevices(choice: string)  // the device-type filter kept nothing

  /** The outcome of one render pass: a value, or the error that stopped it. */
  datatype Result<+T> = Ok(value: T) | Err(error: Error) {
    predicate IsFailure() {
      Err?
    }

    function PropagateFailure<U>(): Result<U>
      requires Err?
    {
      Err(error)
    }

    function Extract(): T
      requires Ok?
    {
      value
    }
  }

  /** The time-view selector; it chooses the bucket width of the chart series only. */
  datatype Granularity = Hourly | Daily | Weekly | Monthly
}
