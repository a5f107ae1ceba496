/**
 * The PutSnowflakeStreamIngestAsRaw processor: per FlowFile, the whole body's
 * lines, joined with "\n", are inserted as one row under a target column,
 * optionally with the ingestion time under a timestamp column.
 */
module PutRaw {
  import opened Types
  import opened ChannelRegistry
  import opened RowBuilders

  // ---------------------------------------------------------------- column names

  /** `Character.toUpperCase`, on ASCII letters. */
  function UpperChar(c: char): char {
    if 'a' <= c <= 'z' then (c as int - 32) as char else c
  }

  /** `String.toUpperCase`, on ASCII letters. */
  function Upper(s: string): (u: string)
    ensures |u| == |s| && forall i :: 0 <= i < |s| ==> u[i] == UpperChar(s[i])
  {
    seq(|s|, i requires 0 <= i < |s| => UpperChar(s[i]))
  }

  /**
   * `optionallyQuoteColumnName`: a name equal to its own upper-case form is
   * kept as it is; any other is wrapped in double quotes, so that Snowflake
   * keeps its case.
   */
  function OptionallyQuote(name: string): (r: string)
    ensures r == name <==> name == Upper(name)
    ensures r != name ==> |r| == |name| + 2 && r[0] == '"' && r[|r| - 1] == '"' && r[1..|r| - 1] == name
  {
    if name == Upper(name) then name else "\"" + name + "\""
  }

  lemma QuotedTwice(name: string)
    ensures "\"" + ("\"" + name + "\"") + "\"" == "\"\"" + name + "\"\""
  {
    var q := "\"";
    assert "\"\"" == q + q;
  }

  /** Quoting is a no-op on upper-case names, so applying it again changes nothing there. */
  lemma QuoteUpperIdempotent(name: string)
    requires name == Upper(name)
    ensures OptionallyQuote(OptionallyQuote(name)) == OptionallyQuote(name) == name
  {
  }

  /**
   * Quoting is not idempotent: a name with a lower-case letter is still not
   * upper-case once quoted, so quoting it again adds a second pair of quotes.
   */
  lemma QuoteNotIdempotent(name: string)
    requires name != Upper(name)
    ensures OptionallyQuote(OptionallyQuote(name)) == "\"\"" + name + "\"\""
  {
    var quoted := "\"" + name + "\"";
    assert exists i :: 0 <= i < |name| && name[i] != Upper(name)[i];
    var i :| 0 <= i < |name| && name[i] != Upper(name)[i];
    assert quoted[i + 1] == name[i];
    assert Upper(quoted)[i + 1] != quoted[i + 1];
    assert OptionallyQuote(name) == quoted;
    assert OptionallyQuote(quoted) == "\"" + quoted + "\"";
    QuotedTwice(name);
  }

  /** The default timestamp column, upper-case already, is used unquoted. */
  lemma DefaultTimestampColumnUnquoted()
    ensures OptionallyQuote("INGESTED_AT") == "INGESTED_AT"
  {
    assert Upper("INGESTED_AT") == "INGESTED_AT";
  }

  /** A mixed-case timestamp column is quoted. */
  lemma MixedCaseTimestampColumnQuoted()
    ensures OptionallyQuote("ingested_at") == "\"ingested_at\""
  {
    assert Upper("ingested_at")[0] == 'I';
  }

  // ---------------------------------------------------------------- boolean property

  /** `String.equalsIgnoreCase`, on ASCII letters: same length, and pairwise equal up to case. */
  predicate EqualsIgnoreCase(a: string, b: string): (r: bool)
    ensures r <==> Upper(a) == Upper(b)
  {
    |a| == |b| && forall i :: 0 <= i < |a| ==> UpperChar(a[i]) == UpperChar(b[i])
  }

  /** `Boolean.parseBoolean`: true exactly for "true" in any case. */
  function ParseBoolean(s: string): (b: bool)
    ensures b <==> |s| == 4 && s[0] in "tT" && s[1] in "rR" && s[2] in "uU" && s[3] in "eE"
  {
    EqualsIgnoreCase(s, "true")
  }

  /** The property's two allowed values, and its default "false". */
  lemma ParseBooleanAllowedValues()
    ensures ParseBoolean("true") && !ParseBoolean("false") && ParseBoolean("TRUE")
  {
  }

  // ---------------------------------------------------------------- processor

  /**
   * The catch clauses of this processor's `onTrigger`: SFException and
   * IOException route to failure; anything else, such as the
   * UncheckedIOException that `lines()` throws, escapes.
   */
  function Route(exit: Exit): (o: Outcome)
    ensures o == Success <==> exit == Normal
    ensures exit.Threw? && (exit.fault.SF? || IsIOException(exit.fault)) ==> o == Failure(exit.fault)
    ensures exit.Threw? && !(exit.fault.SF? || IsIOException(exit.fault)) ==> o == Escaped(exit.fault)
  {
    match exit
    case Normal => Success
    case Threw(f) => if f.SF? || IsIOException(f) then Failure(f) else Escaped(f)
  }

  /**
   * The text stored for a body: its lines joined with "\n", that is, the body
   * with every line terminator made "\n" and a final one dropped.
   */
  function RawText(body: string): (text: string)
    ensures text == DropFinalNewline(NormalizeNewlines(body))
    ensures '\r' !in text
    ensures '\r' !in body ==> text == DropFinalNewline(body)
  {
    JoinedLinesHaveNoCarriageReturn(Lines(body));
    JoinLinesNormalizes(body);
    JoinLines(Lines(body))
  }

  class PutSnowflakeStreamIngestAsRaw {
    var controller: IngestControllerService?
    var database: string
    var schema: string
    var table: string
    var channelName: string
    var targetColumn: string
    var writeTimestamp: bool
    var timestampTargetColumn: string

    constructor ()
      ensures controller == null
    {
      controller := null;
      // Java leaves these fields null and false until `onScheduled`; the
      // empty strings are placeholders, and no contract depends on them.
      database, schema, table, channelName := "", "", "", "";
      targetColumn, timestampTargetColumn := "", "";
      writeTimestamp := false;
    }

    /** The destination this processor's channel is looked up and closed under. */
    function Target(): (d: Destination)
      reads this
      ensures d.database == database && d.schema == schema && d.table == table && d.channelName == channelName
    {
      Destination(database, schema, table, channelName)
    }

    /**
     * `onScheduled`: the destination and target column verbatim, the
     * timestamp flag by `parseBoolean`, and only the timestamp column quoted.
     */
    method OnScheduled(service: IngestControllerService, database: string, schema: string, table: string,
                       channelName: string, targetColumn: string, addTimestamp: string, timestampColumn: string)
      modifies this
      ensures controller == service
      ensures Target() == Destination(database, schema, table, channelName)
      ensures this.targetColumn == targetColumn
      ensures writeTimestamp <==> EqualsIgnoreCase(addTimestamp, "true")
      ensures timestampTargetColumn == OptionallyQuote(timestampColumn)
    {
      controller := service;
      this.database := database;
      this.schema := schema;
      this.table := table;
      this.channelName := channelName;
      this.targetColumn := targetColumn;
      writeTimestamp := ParseBoolean(addTimestamp);
      timestampTargetColumn := OptionallyQuote(timestampColumn);
    }

    /**
     * `onTrigger`: the content is opened (which may throw before any lookup),
     * the channel looked up, the body's lines read (which may throw), the row
     * built, and exactly one `insertRow` made. `now` is the UTC time the row
     * is stamped with and `answer` the channel's response.
     */
    method OnTrigger(flowFile: Option<FlowFile>, now: int, freshName: string, openFault: Option<Fault>,
                     answer: Response) returns (outcome: Outcome, submitted: seq<Submission>)
      requires controller != null
      modifies controller
      ensures flowFile.None? || flowFile.value.body.ReadFailed? ==>
                controller.channelMap == old(controller.channelMap) &&
                controller.openRequests == old(controller.openRequests)
      ensures flowFile.None? ==> outcome == Idle && submitted == []
      ensures flowFile.Some? && flowFile.value.body.ReadFailed? ==>
                outcome == Route(Threw(flowFile.value.body.fault)) && submitted == []
      ensures flowFile.Some? && flowFile.value.body.Streamed? ==>
                var lookup := LookupChannel(old(controller.channelMap), old(controller.client).Some?, Target(),
                                            freshName, openFault);
                var text := flowFile.value.body.text;
                && controller.channelMap == lookup.cache
                && controller.openRequests == old(controller.openRequests) + lookup.sent
                && (text.Err? ==> outcome == Route(Threw(text.error)) && submitted == [])
                && (text.Ok? && lookup.channel.None? ==> outcome == Escaped(NullPointer) && submitted == [])
                && (text.Ok? && lookup.channel.Some? ==>
                      && |submitted| == 1 && submitted[0].InsertRow?
                      && IsRawRow(submitted[0].row, targetColumn, RawText(text.value), writeTimestamp,
                                  timestampTargetColumn, now)
                      && (answer.HasErrors() ==> outcome == Failure(answer.FirstException()))
                      && (!answer.HasErrors() ==> outcome == Success))
      ensures controller.client == old(controller.client) && controller.closedChannels == old(controller.closedChannels)
    {
      if flowFile.None? {
        return Idle, [];
      }
      var body := flowFile.value.body;
      if body.ReadFailed? {
        return Route(Threw(body.fault)), [];
      }
      var channel := controller.GetChannel(Target(), freshName, openFault);
      if body.text.Err? {
        return Route(Threw(body.text.error)), [];
      }
      var text := RawText(body.text.value);
      var row := BuildRawRow(targetColumn, text, writeTimestamp, timestampTargetColumn, now);
      if channel.None? {
        return Escaped(NullPointer), [];
      }
      submitted := [InsertRow(row)];
      if answer.HasErrors() {
        return Route(Threw(answer.FirstException())), submitted;
      }
      outcome := Success;
    }

    /**
     * `cleanup`, on shutdown: closes this processor's channel through the
     * service. A processor that was never scheduled has no service, and the
     * call throws NullPointerException.
     */
    method Cleanup() returns (thrown: Option<Fault>)
      modifies controller
      ensures controller == null ==> thrown == Some(NullPointer)
      ensures controller != null ==>
                && controller.channelMap == old(controller.channelMap) - {CacheKey(Target())}
                && (CacheKey(Target()) in old(controller.channelMap) ==>
                      thrown == None &&
                      controller.closedChannels == old(controller.closedChannels) + [old(controller.channelMap)[CacheKey(Target())]])
                && (CacheKey(Target()) !in old(controller.channelMap) ==>
                      thrown == Some(NullPointer) && controller.closedChannels == old(controller.closedChannels))
                && controller.client == old(controller.client) && controller.openRequests == old(controller.openRequests)
    {
      if controller == null {
        return Some(NullPointer);
      }
      thrown := controller.CloseChannel(Target());
    }
  }

  /**
   * With the timestamp on and a timestamp column equal to the target column,
   * the row holds only the time: the body's text is overwritten.
   */
  lemma TimestampOverridesTarget(row: Row, column: string, text: string, now: int)
    requires IsRawRow(row, column, text, true, column, now)
    ensures row == map[column := Stamp(now)]
  {
  }

  /** With the timestamp off, the row is the text alone under the target column. */
  lemma TextOnlyRow(row: Row, targetColumn: string, text: string, timestampColumn: string, now: int)
    requires IsRawRow(row, targetColumn, text, false, timestampColumn, now)
    ensures row == map[targetColumn := Text(text)]
  {
  }
}
