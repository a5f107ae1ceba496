/**
 * The PutSnowflakeStreamIngest processor: per FlowFile, asks the controller
 * service for the configured channel, then inserts one field-wise row per
 * record, row by row, failing fast on the first errored response.
 */
module PutIngest {
  import opened Types
  import opened ChannelRegistry
  import opened RowBuilders
  import opened Submitting

  /**
   * The catch clauses of `onTrigger`: SchemaNotFoundException, SFException,
   * IOException and MalformedRecordException each route to failure; anything
   * else, such as `insertRow` on a null channel, escapes.
   */
  function Route(exit: Exit): (o: Outcome)
    ensures o == Success <==> exit == Normal
    ensures exit.Threw? && (exit.fault.SchemaNotFound? || exit.fault.SF? || IsIOException(exit.fault)
                            || exit.fault.MalformedRecord?)
            ==> o == Failure(exit.fault)
    ensures exit.Threw? && (exit.fault.NullPointer? || exit.fault.Unchecked?) ==> o == Escaped(exit.fault)
  {
    match exit
    case Normal => Success
    case Threw(f) =>
      if f.SchemaNotFound? || f.SF? || IsIOException(f) || f.MalformedRecord? then Failure(f) else Escaped(f)
  }

  /**
   * The record loop: for each record, its field-wise row is built and
   * inserted, and an errored response throws its first error's exception
   * before the next record is read. On a null channel the first insert
   * throws NullPointerException.
   */
  method InsertRecords(schema: Schema, records: seq<Record>, end: Option<Fault>, channel: Option<Channel>,
                       answers: nat -> Response) returns (exit: Exit, submitted: seq<Submission>)
    ensures Run(exit, submitted) == RowByRow(FieldAttempts(schema, records), end, channel.Some?, answers, 0)
  {
    ghost var attempts := FieldAttempts(schema, records);
    ghost var whole := RowByRow(attempts, end, channel.Some?, answers, 0);
    submitted := [];
    var i := 0;
    while i < |records|
      invariant 0 <= i <= |records|
      invariant whole == After(submitted, RowByRow(attempts, end, channel.Some?, answers, i))
    {
      var row := BuildFieldRow(schema, records[i]);
      if channel.None? {
        RowByRowHalt(attempts, end, false, answers, i, submitted);
        return Threw(NullPointer), submitted;
      }
      var response := answers(i);
      if response.HasErrors() {
        RowByRowHalt(attempts, end, true, answers, i, submitted);
        submitted := submitted + [InsertRow(row)];
        return Threw(response.FirstException()), submitted;
      }
      RowByRowAdvance(attempts, end, true, answers, i, submitted);
      submitted := submitted + [InsertRow(row)];
      i := i + 1;
    }
    RowByRowEnd(attempts, end, channel.Some?, answers, submitted);
    exit := EndExit(end);
  }

  /**
   * `onTrigger`. The database, schema, table and channel name are read on
   * each trigger and passed unchanged to `getChannel`, which happens only
   * once the reader has been built.
   */
  method OnTrigger(controller: IngestControllerService, d: Destination, flowFile: Option<FlowFile>,
                   freshName: string, openFault: Option<Fault>, answers: nat -> Response)
    returns (outcome: Outcome, submitted: seq<Submission>)
    modifies controller
    ensures flowFile.None? || flowFile.value.parsed.Err? ==>
              controller.channelMap == old(controller.channelMap) &&
              controller.openRequests == old(controller.openRequests)
    ensures flowFile.None? ==> outcome == Idle && submitted == []
    ensures flowFile.Some? && flowFile.value.parsed.Err? ==>
              outcome == Route(Threw(flowFile.value.parsed.error)) && submitted == []
    ensures flowFile.Some? && flowFile.value.parsed.Ok? ==>
              var lookup := LookupChannel(old(controller.channelMap), old(controller.client).Some?, d, freshName, openFault);
              var reader := flowFile.value.parsed.value;
              && controller.channelMap == lookup.cache
              && controller.openRequests == old(controller.openRequests) + lookup.sent
              && (reader.schema.Err? ==> outcome == Route(Threw(reader.schema.error)) && submitted == [])
              && (reader.schema.Ok? ==>
                    var run := RowByRow(FieldAttempts(reader.schema.value, reader.records), reader.end,
                                        lookup.channel.Some?, answers, 0);
                    outcome == Route(run.exit) && submitted == run.submitted)
    ensures controller.client == old(controller.client) && controller.closedChannels == old(controller.closedChannels)
  {
    if flowFile.None? {
      return Idle, [];
    }
    var parsed := flowFile.value.parsed;
    if parsed.Err? {
      return Route(Threw(parsed.error)), [];
    }
    var channel := controller.GetChannel(d, freshName, openFault);
    var reader := parsed.value;
    if reader.schema.Err? {
      return Route(Threw(reader.schema.error)), [];
    }
    var exit;
    exit, submitted := InsertRecords(reader.schema.value, reader.records, reader.end, channel, answers);
    outcome := Route(exit);
  }

  /**
   * Success is transferred exactly when the reader is exhausted without
   * throwing and every response is free of errors (and, with records, a
   * channel was returned).
   */
  lemma {:induction false} SuccessOnlyWhenClean(schema: Schema, records: seq<Record>, end: Option<Fault>,
                                                channel: bool, answers: nat -> Response)
    ensures Route(RowByRow(FieldAttempts(schema, records), end, channel, answers, 0).exit) == Success
            <==> end.None? && (records != [] ==> channel) &&
                 forall j :: 0 <= j < |records| ==> !answers(j).HasErrors()
  {
    var attempts := FieldAttempts(schema, records);
    RowByRowCompletes(attempts, end, channel, answers, 0);
    if records != [] && !channel {
      assert StopsAt(attempts, channel, answers, 0);
    } else {
      forall j | 0 <= j < |records|
        ensures StopsAt(attempts, channel, answers, j) <==> answers(j).HasErrors()
      {
      }
    }
  }

  /**
   * A null channel: with no records the FlowFile still succeeds; with at
   * least one, the first `insertRow` throws NullPointerException, which no
   * catch clause handles, and nothing is submitted.
   */
  lemma NullChannel(schema: Schema, records: seq<Record>, end: Option<Fault>, answers: nat -> Response)
    ensures records == [] && end.None? ==> Route(RowByRow(FieldAttempts(schema, records), end, false, answers, 0).exit) == Success
    ensures records != [] ==>
              && RowByRow(FieldAttempts(schema, records), end, false, answers, 0) == Run(Threw(NullPointer), [])
              && Route(Threw(NullPointer)) == Escaped(NullPointer)
  {
  }

  /** An insert error routes the FlowFile to failure, carrying the first error's exception. */
  lemma {:induction false} InsertErrorRoutesToFailure(schema: Schema, records: seq<Record>, end: Option<Fault>,
                                                      answers: nat -> Response, k: nat)
    requires k < |records| && answers(k).HasErrors()
    requires forall j :: 0 <= j < k ==> !answers(j).HasErrors()
    ensures var run := RowByRow(FieldAttempts(schema, records), end, true, answers, 0);
            && |run.submitted| == k + 1
            && Route(run.exit) == Failure(answers(k).FirstException())
  {
    var attempts := FieldAttempts(schema, records);
    forall j | 0 <= j < k
      ensures !StopsAt(attempts, true, answers, j)
    {
    }
    RowByRowStopsAtFirst(attempts, end, true, answers, 0, k);
  }
}
