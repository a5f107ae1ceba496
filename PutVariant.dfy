/**
 * The PutSnowflakeStreamIngestAsVariant processor: per FlowFile, each record
 * becomes a JSON object of its fields' string values, inserted row by row as
 * the text of a single target column.
 */
module PutVariant {
  import opened Types
  import opened ChannelRegistry
  import opened RowBuilders
  import opened Submitting
  // The catch clauses are those of PutSnowflakeStreamIngest, so its `Route` is used:
  // a JsonProcessingException, being an IOException, routes to failure.
  import PutIngest

  /**
   * One record's variant row: `writeValueAsString` of its variant object under
   * the target column; `writer` is Jackson's serialiser, `None` standing for a
   * JsonProcessingException.
   */
  function VariantAttempt(schema: Schema, record: Record, targetColumn: string,
                          writer: VariantObject -> Option<string>): (a: Attempt)
    ensures a.Built? <==> writer(VariantObjectOf(schema, record)).Some?
    ensures a.Built? ==> a.row == VariantRow(targetColumn, writer(VariantObjectOf(schema, record)).value)
    ensures a.BuildFailed? ==> a.fault == JsonProcessing
  {
    match writer(VariantObjectOf(schema, record))
    case Some(json) => Built(VariantRow(targetColumn, json))
    case None => BuildFailed(JsonProcessing)
  }

  function VariantAttempts(schema: Schema, records: seq<Record>, targetColumn: string,
                           writer: VariantObject -> Option<string>): (attempts: seq<Attempt>)
    ensures |attempts| == |records|
    ensures forall j :: 0 <= j < |records| ==> attempts[j] == VariantAttempt(schema, records[j], targetColumn, writer)
  {
    seq(|records|, j requires 0 <= j < |records| => VariantAttempt(schema, records[j], targetColumn, writer))
  }

  /**
   * The record loop: the variant object is filled, serialised (which may
   * throw before anything is inserted) and inserted under the target column;
   * an errored response throws its first error's exception.
   */
  method InsertVariantRecords(schema: Schema, records: seq<Record>, end: Option<Fault>, channel: Option<Channel>,
                              targetColumn: string, writer: VariantObject -> Option<string>,
                              answers: nat -> Response) returns (exit: Exit, submitted: seq<Submission>)
    ensures Run(exit, submitted) == RowByRow(VariantAttempts(schema, records, targetColumn, writer), end,
                                             channel.Some?, answers, 0)
  {
    ghost var attempts := VariantAttempts(schema, records, targetColumn, writer);
    ghost var whole := RowByRow(attempts, end, channel.Some?, answers, 0);
    submitted := [];
    var i := 0;
    while i < |records|
      invariant 0 <= i <= |records|
      invariant whole == After(submitted, RowByRow(attempts, end, channel.Some?, answers, i))
    {
      var variantObject := BuildVariantObject(schema, records[i]);
      var res := writer(variantObject);
      if res.None? {
        RowByRowHalt(attempts, end, channel.Some?, answers, i, submitted);
        return Threw(JsonProcessing), submitted;
      }
      var row := VariantRow(targetColumn, res.value);
      if channel.None? {
        RowByRowHalt(attempts, end, false, answers, i, submitted);
        return Threw(NullPointer), submitted;
      }
      var response := answers(i);
      if response.HasErrors() {
        RowByRowHalt(attempts, end, true, answers, i, submitted);
        submitted := submitted + [InsertRow(row)];
        return Threw(response.FirstException()), submitted;
      }
      RowByRowAdvance(attempts, end, true, answers, i, submitted);
      submitted := submitted + [InsertRow(row)];
      i := i + 1;
    }
    RowByRowEnd(attempts, end, channel.Some?, answers, submitted);
    exit := EndExit(end);
  }

  class PutSnowflakeStreamIngestAsVariant {
    var controller: IngestControllerService?
    var database: string
    var schema: string
    var table: string
    var channelName: string
    var targetColumn: string

    constructor ()
      ensures controller == null
    {
      controller := null;
      // Java leaves these fields null until `onScheduled`; the empty strings
      // are placeholders, and no contract depends on them.
      database, schema, table, channelName := "", "", "", "";
      targetColumn := "";
    }

    /** The destination this processor's channel is looked up and closed under. */
    function Target(): (d: Destination)
      reads this
      ensures d.database == database && d.schema == schema && d.table == table && d.channelName == channelName
    {
      Destination(database, schema, table, channelName)
    }

    /** `onScheduled`: the controller service and the properties, read once and kept verbatim. */
    method OnScheduled(service: IngestControllerService, database: string, schema: string, table: string,
                       channelName: string, targetColumn: string)
      modifies this
      ensures controller == service
      ensures Target() == Destination(database, schema, table, channelName)
      ensures this.targetColumn == targetColumn
    {
      controller := service;
      this.database := database;
      this.schema := schema;
      this.table := table;
      this.channelName := channelName;
      this.targetColumn := targetColumn;
    }

    /**
     * `onTrigger`: as PutSnowflakeStreamIngest, with the variant rows.
     * NiFi runs `onScheduled` before any trigger, so the controller is set.
     */
    method OnTrigger(flowFile: Option<FlowFile>, freshName: string, openFault: Option<Fault>,
                     writer: VariantObject -> Option<string>, answers: nat -> Response)
      returns (outcome: Outcome, submitted: seq<Submission>)
      requires controller != null
      modifies controller
      ensures flowFile.None? || flowFile.value.parsed.Err? ==>
                controller.channelMap == old(controller.channelMap) &&
                controller.openRequests == old(controller.openRequests)
      ensures flowFile.None? ==> outcome == Idle && submitted == []
      ensures flowFile.Some? && flowFile.value.parsed.Err? ==>
                outcome == PutIngest.Route(Threw(flowFile.value.parsed.error)) && submitted == []
      ensures flowFile.Some? && flowFile.value.parsed.Ok? ==>
                var lookup := LookupChannel(old(controller.channelMap), old(controller.client).Some?, Target(),
                                            freshName, openFault);
                var reader := flowFile.value.parsed.value;
                && controller.channelMap == lookup.cache
                && controller.openRequests == old(controller.openRequests) + lookup.sent
                && (reader.schema.Err? ==> outcome == PutIngest.Route(Threw(reader.schema.error)) && submitted == [])
                && (reader.schema.Ok? ==>
                      var run := RowByRow(VariantAttempts(reader.schema.value, reader.records, targetColumn, writer),
                                          reader.end, lookup.channel.Some?, answers, 0);
                      outcome == PutIngest.Route(run.exit) && submitted == run.submitted)
      ensures controller.client == old(controller.client) && controller.closedChannels == old(controller.closedChannels)
    {
      if flowFile.None? {
        return Idle, [];
      }
      var parsed := flowFile.value.parsed;
      if parsed.Err? {
        return PutIngest.Route(Threw(parsed.error)), [];
      }
      var channel := controller.GetChannel(Target(), freshName, openFault);
      var reader := parsed.value;
      if reader.schema.Err? {
        return PutIngest.Route(Threw(reader.schema.error)), [];
      }
      var exit;
      exit, submitted := InsertVariantRecords(reader.schema.value, reader.records, reader.end, channel,
                                              targetColumn, writer, answers);
      outcome := PutIngest.Route(exit);
    }

    /**
     * `cleanup`, on shutdown or disable: closes this processor's channel
     * through the service. A processor that was never scheduled has no
     * service, and the call throws NullPointerException.
     */
    method Cleanup() returns (thrown: Option<Fault>)
      modifies controller
      ensures controller == null ==> thrown == Some(NullPointer)
      ensures controller != null ==>
                && controller.channelMap == old(controller.channelMap) - {CacheKey(Target())}
                && (CacheKey(Target()) in old(controller.channelMap) ==>
                      thrown == None &&
                      controller.closedChannels == old(controller.closedChannels) + [old(controller.channelMap)[CacheKey(Target())]])
                && (CacheKey(Target()) !in old(controller.channelMap) ==>
                      thrown == Some(NullPointer) && controller.closedChannels == old(controller.closedChannels))
                && controller.client == old(controller.client) && controller.openRequests == old(controller.openRequests)
    {
      if controller == null {
        return Some(NullPointer);
      }
      thrown := controller.CloseChannel(Target());
    }
  }

  /**
   * With a channel, the rows inserted are, in reader order, the records'
   * serialised variant objects under the target column, and nothing else.
   */
  lemma VariantRowsInOrder(schema: Schema, records: seq<Record>, end: Option<Fault>, targetColumn: string,
                           writer: VariantObject -> Option<string>, answers: nat -> Response)
    ensures var run := RowByRow(VariantAttempts(schema, records, targetColumn, writer), end, true, answers, 0);
            && |run.submitted| <= |records|
            && forall k :: 0 <= k < |run.submitted| ==>
                 && writer(VariantObjectOf(schema, records[k])).Some?
                 && run.submitted[k] == InsertRow(VariantRow(targetColumn, writer(VariantObjectOf(schema, records[k])).value))
  {
    var attempts := VariantAttempts(schema, records, targetColumn, writer);
    var run := RowByRow(attempts, end, true, answers, 0);
    RowByRowInsertsInOrder(attempts, end, true, answers, 0);
    forall k | 0 <= k < |run.submitted|
      ensures && writer(VariantObjectOf(schema, records[k])).Some?
              && run.submitted[k] == InsertRow(VariantRow(targetColumn, writer(VariantObjectOf(schema, records[k])).value))
    {
      assert attempts[k] == VariantAttempt(schema, records[k], targetColumn, writer);
    }
  }

  /**
   * A record that cannot be serialised, reached with every earlier insert
   * clean, sends the FlowFile to failure; the earlier records stay inserted
   * and it is not.
   */
  lemma {:induction false} JsonFailureRoutesToFailure(schema: Schema, records: seq<Record>, end: Option<Fault>,
                                                      channel: bool, targetColumn: string,
                                                      writer: VariantObject -> Option<string>,
                                                      answers: nat -> Response, k: nat)
    requires k < |records| && writer(VariantObjectOf(schema, records[k])).None?
    requires forall j :: 0 <= j < k ==> writer(VariantObjectOf(schema, records[j])).Some? && !answers(j).HasErrors()
    requires k > 0 ==> channel
    ensures var run := RowByRow(VariantAttempts(schema, records, targetColumn, writer), end, channel, answers, 0);
            |run.submitted| == k && PutIngest.Route(run.exit) == Failure(JsonProcessing)
  {
    var attempts := VariantAttempts(schema, records, targetColumn, writer);
    forall j | 0 <= j < k
      ensures !StopsAt(attempts, channel, answers, j)
    {
    }
    RowByRowStopsAtFirst(attempts, end, channel, answers, 0, k);
  }

  /** An empty FlowFile's reader yields no record: success, with nothing inserted. */
  lemma NoRecordsSucceed(schema: Schema, channel: bool, targetColumn: string,
                         writer: VariantObject -> Option<string>, answers: nat -> Response)
    ensures RowByRow(VariantAttempts(schema, [], targetColumn, writer), None, channel, answers, 0) == Run(Normal, [])
  {
  }
}
