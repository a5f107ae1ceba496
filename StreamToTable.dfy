/**
 * The StreamToSnowflakeTable processor: opens its own channel when
 * scheduled, and per FlowFile builds one field-wise row per record and
 * submits them row by row or as one batch, as scheduled.
 */
module StreamToTable {
  import opened Types
  import opened ChannelRegistry
  import opened RowBuilders
  import opened Submitting

  /**
   * The catch clause of `onTrigger`: only SchemaNotFoundException,
   * IOException and MalformedRecordException route to failure; an insert
   * error's SFException, like any other unchecked exception, escapes.
   */
  function Route(exit: Exit): (o: Outcome)
    ensures o == Success <==> exit == Normal
    ensures exit.Threw? && (exit.fault.SchemaNotFound? || IsIOException(exit.fault) || exit.fault.MalformedRecord?)
            ==> o == Failure(exit.fault)
    ensures exit.Threw? && (exit.fault.SF? || exit.fault.NullPointer? || exit.fault.Unchecked?)
            ==> o == Escaped(exit.fault)
  {
    match exit
    case Normal => Success
    case Threw(f) =>
      if f.SchemaNotFound? || IsIOException(f) || f.MalformedRecord? then Failure(f) else Escaped(f)
  }

  class StreamToSnowflakeTable {
    var rowByRowInsertStrategy: bool
    var channel: Option<Channel>
    /** Every streaming-ingest client `onScheduled` built, in order; the processor keeps none of them. */
    ghost var builtClients: seq<Client>

    constructor ()
      ensures channel == None
    {
      rowByRowInsertStrategy := false;
      channel := None;
      builtClients := [];
    }

    /**
     * `onScheduled`: the strategy flag is true exactly for "row-by-row"
     * ("per FlowFile", or anything else, selects one batch per FlowFile);
     * then a client is built (and not kept) and a channel opened with a fresh
     * request name.
     * A failed open throws out of `onScheduled` and leaves the old channel.
     */
    method OnScheduled(insertStrategy: string, url: string, user: string, privateKey: string, role: Option<string>,
                       database: string, schema: string, table: string,
                       freshName: string, openFault: Option<Fault>) returns (thrown: Option<Fault>)
      modifies this
      ensures rowByRowInsertStrategy <==> insertStrategy == "row-by-row"
      ensures builtClients == old(builtClients) + [Client("NIFI", ClientProperties(url, user, privateKey, role))]
      ensures thrown == openFault
      ensures openFault.None? ==> channel == Some(Channel(OpenRequest(freshName, database, schema, table, Continue)))
      ensures openFault.Some? ==> channel == old(channel)
    {
      rowByRowInsertStrategy := insertStrategy == "row-by-row";
      builtClients := builtClients + [Client("NIFI", ClientProperties(url, user, privateKey, role))];
      var request := OpenRequest(freshName, database, schema, table, Continue);
      if openFault.None? {
        channel := Some(Channel(request));
      }
      thrown := openFault;
    }

    /**
     * `onTrigger`. With no FlowFile nothing happens. A reader that cannot be
     * built, or whose schema cannot be read, routes by the catch clause with
     * nothing submitted. Otherwise each record gives its field-wise row;
     * row by row, each is inserted before the next record is read and the
     * first errored response throws; per FlowFile, the rows are collected
     * and submitted once, after the reader is exhausted.
     */
    method OnTrigger(flowFile: Option<FlowFile>, answers: nat -> Response) returns (outcome: Outcome, submitted: seq<Submission>)
      requires channel.Some?
      ensures flowFile.None? ==> outcome == Idle && submitted == []
      ensures flowFile.Some? && flowFile.value.parsed.Err? ==>
                outcome == Route(Threw(flowFile.value.parsed.error)) && submitted == []
      ensures flowFile.Some? && flowFile.value.parsed.Ok? && flowFile.value.parsed.value.schema.Err? ==>
                outcome == Route(Threw(flowFile.value.parsed.value.schema.error)) && submitted == []
      ensures flowFile.Some? && flowFile.value.parsed.Ok? && flowFile.value.parsed.value.schema.Ok? ==>
                var reader := flowFile.value.parsed.value;
                var run := if rowByRowInsertStrategy
                           then RowByRow(FieldAttempts(reader.schema.value, reader.records), reader.end, true, answers, 0)
                           else Batch(FieldRows(reader.schema.value, reader.records), reader.end, answers);
                outcome == Route(run.exit) && submitted == run.submitted
    {
      if flowFile.None? {
        return Idle, [];
      }
      var parsed := flowFile.value.parsed;
      if parsed.Err? {
        return Route(Threw(parsed.error)), [];
      }
      var reader := parsed.value;
      if reader.schema.Err? {
        return Route(Threw(reader.schema.error)), [];
      }
      var exit;
      exit, submitted := InsertRecords(reader.schema.value, reader.records, reader.end, answers);
      outcome := Route(exit);
    }

    /**
     * The `try` block after `getSchema`: each record gives its field-wise
     * row; row by row, it is inserted before the next record is read and the
     * first errored response throws; per FlowFile, the rows are collected and
     * submitted once the reader is exhausted.
     */
    method InsertRecords(schema: Schema, records: seq<Record>, end: Option<Fault>, answers: nat -> Response)
      returns (exit: Exit, submitted: seq<Submission>)
      ensures Run(exit, submitted) == if rowByRowInsertStrategy
                                      then RowByRow(FieldAttempts(schema, records), end, true, answers, 0)
                                      else Batch(FieldRows(schema, records), end, answers)
    {
      var rowByRow := rowByRowInsertStrategy;
      ghost var attempts := FieldAttempts(schema, records);
      ghost var whole := RowByRow(attempts, end, true, answers, 0);
      var rows: seq<Row> := [];
      submitted := [];
      var i := 0;
      while i < |records|
        invariant 0 <= i <= |records|
        invariant rowByRow ==> whole == After(submitted, RowByRow(attempts, end, true, answers, i))
        invariant !rowByRow ==> submitted == [] && |rows| == i
        invariant !rowByRow ==> forall j :: 0 <= j < i ==> rows[j] == FieldRow(schema, records[j])
      {
        var row := BuildFieldRow(schema, records[i]);
        if rowByRow {
          var response := answers(i);
          if response.HasErrors() {
            RowByRowHalt(attempts, end, true, answers, i, submitted);
            submitted := submitted + [InsertRow(row)];
            return Threw(response.FirstException()), submitted;
          }
          RowByRowAdvance(attempts, end, true, answers, i, submitted);
          submitted := submitted + [InsertRow(row)];
        } else {
          rows := rows + [row];
        }
        i := i + 1;
      }
      assert !rowByRow ==> rows == FieldRows(schema, records);
      if rowByRow {
        RowByRowEnd(attempts, end, true, answers, submitted);
      }
      if end.Some? {
        return Threw(end.value), submitted;
      }
      if !rowByRow {
        submitted := [InsertRows(rows)];
        var response := answers(0);
        if response.HasErrors() {
          return Threw(response.FirstException()), submitted;
        }
      }
      exit := Normal;
    }
  }

  /**
   * Per FlowFile, an errored `insertRows` response throws its first error's
   * exception, which no catch clause handles: it escapes `onTrigger` and the
   * FlowFile goes nowhere, although the batch was submitted.
   */
  lemma InsertErrorEscapes(schema: Schema, records: seq<Record>, end: Option<Fault>, answers: nat -> Response)
    requires end.None? && answers(0).HasErrors()
    ensures var run := Batch(FieldRows(schema, records), end, answers);
            && run.submitted == [InsertRows(FieldRows(schema, records))]
            && Route(run.exit) == Escaped(answers(0).FirstException())
  {
  }

  /**
   * Row by row, when record `k`'s response is the first with errors, exactly
   * `k + 1` rows, the first `k + 1` in reader order, were inserted and the
   * first error's exception escapes.
   */
  lemma {:induction false} RowByRowFailFast(schema: Schema, records: seq<Record>, end: Option<Fault>,
                                            answers: nat -> Response, k: nat)
    requires k < |records| && answers(k).HasErrors()
    requires forall j :: 0 <= j < k ==> !answers(j).HasErrors()
    ensures var run := RowByRow(FieldAttempts(schema, records), end, true, answers, 0);
            && |run.submitted| == k + 1
            && (forall j :: 0 <= j <= k ==> run.submitted[j] == InsertRow(FieldRow(schema, records[j])))
            && Route(run.exit) == Escaped(answers(k).FirstException())
  {
    var attempts := FieldAttempts(schema, records);
    forall j | 0 <= j < k
      ensures !StopsAt(attempts, true, answers, j)
    {
    }
    RowByRowStopsAtFirst(attempts, end, true, answers, 0, k);
    var run := RowByRow(attempts, end, true, answers, 0);
    RowByRowInsertsInOrder(attempts, end, true, answers, 0);
    forall j | 0 <= j <= k
      ensures run.submitted[j] == InsertRow(FieldRow(schema, records[j]))
    {
      assert attempts[j] == Built(FieldRow(schema, records[j]));
    }
  }

  /**
   * Per FlowFile, `insertRow` is never called, and a reader failure partway
   * through the records means no row of the FlowFile is submitted.
   */
  lemma BatchSubmitsAtMostOnce(schema: Schema, records: seq<Record>, end: Option<Fault>, answers: nat -> Response)
    ensures var run := Batch(FieldRows(schema, records), end, answers);
            && (forall s :: s in run.submitted ==> s == InsertRows(FieldRows(schema, records)))
            && (end.Some? ==> run.submitted == [] && Route(run.exit) == Route(Threw(end.value)))
  {
  }
}
