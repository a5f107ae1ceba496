/**
 * Values shared by the connector's controller service and its processors:
 * the exceptions that the Java code throws or catches, the records a record
 * reader yields, the rows handed to an ingest channel, and the channel's
 * validation responses.
 */
module Types {

  datatype Option<+T> = None | Some(value: T)

  datatype Result<+T, +E> = Ok(value: T) | Err(error: E)

  /** The exceptions that can arise while one FlowFile is processed. */
  datatype Fault =
    | SchemaNotFound(message: string)   // NiFi's SchemaNotFoundException
    | MalformedRecord(message: string)  // NiFi's MalformedRecordException
    | IOError(message: string)          // java.io.IOException
    | JsonProcessing                    // Jackson's JsonProcessingException, a subclass of IOException
    | SF(message: string)               // the ingest SDK's SFException, an unchecked exception
    | NullPointer                       // java.lang.NullPointerException
    | Unchecked(message: string)        // any other unchecked exception

  /** `catch (IOException e)` also catches its subclasses. */
  predicate IsIOException(f: Fault) {
    f.IOError? || f.JsonProcessing?
  }

  /** A dynamically typed field value; `Stamp` stands for a `LocalDateTime`. */
  datatype Value = Null | Text(text: string) | Number(n: int) | Flag(b: bool) | Stamp(utc: int)

  /**
   * A decoded record. `values` is what `getValue` returns and `strings` what
   * `getAsString` returns; a name absent from either yields Java's null.
   */
  datatype Record = Record(values: map<string, Value>, strings: map<string, string>) {
    function GetValue(name: string): Value {
      if name in values then values[name] else Null
    }
    function GetAsString(name: string): Option<string> {
      if name in strings then Some(strings[name]) else None
    }
  }

  predicate Distinct(names: seq<string>) {
    forall i, j :: 0 <= i < j < |names| ==> names[i] != names[j]
  }

  /** A record schema: its field names, in order; a record schema never repeats a name. */
  type Schema = names: seq<string> | Distinct(names) witness []

  /**
   * What the configured record reader makes of a FlowFile: `getSchema` (which
   * may throw), the records `nextRecord` yields in order, and how the reader
   * ends: `None` when `nextRecord` returns null, `Some(f)` when it throws `f`
   * after the last record.
   */
  datatype Reader = Reader(schema: Result<Schema, Fault>, records: seq<Record>, end: Option<Fault>)

  /**
   * The body as the raw processor reads it: `session.read` either fails to
   * open the content (`ReadFailed`), or opens a stream whose text, read line
   * by line, is the body or the fault reading it raises (`Streamed`).
   */
  datatype Body = ReadFailed(fault: Fault) | Streamed(text: Result<string, Fault>)

  /**
   * A FlowFile as the processors see it: its body, and the outcome of
   * `session.read` followed by `createRecordReader` on it.
   */
  datatype FlowFile = FlowFile(body: Body, parsed: Result<Reader, Fault>)

  /** A row handed to `insertRow`: a `HashMap<String, Object>`. */
  type Row = map<string, Value>

  datatype InsertError = InsertError(rowIndex: nat, message: string) {
    /** `getException()` yields the SFException describing the failed row. */
    function GetException(): Fault {
      SF(message)
    }
  }

  /** An `InsertValidationResponse`: the per-row errors, in the order reported. */
  datatype Response = Response(errors: seq<InsertError>) {
    predicate HasErrors() {
      |errors| > 0
    }
    /** `getInsertErrors().get(0).getException()` */
    function FirstException(): Fault
      requires HasErrors()
    {
      errors[0].GetException()
    }
  }

  /** One call on a channel: `insertRow(row, null)` or `insertRows(rows, null)`. */
  datatype Submission = InsertRow(row: Row) | InsertRows(rows: seq<Row>)

  /** How the `try` block of an `onTrigger` ends: normally, or by throwing. */
  datatype Exit = Normal | Threw(fault: Fault)

  /**
   * What one `onTrigger` does with its FlowFile: nothing (no FlowFile was
   * queued), a transfer to `success`, a transfer to `failure`, or an
   * exception escaping `onTrigger` with no transfer at all.
   */
  datatype Outcome = Idle | Success | Failure(cause: Fault) | Escaped(exception: Fault)
}
