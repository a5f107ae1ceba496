# A Dafny model of the NiFi Snowflake streaming-ingest bundle

The bundle moves NiFi FlowFiles into Snowflake tables through the Snowflake
Streaming Ingest SDK. This project models its core in Dafny:

- **The controller service** (`SnowflakeIngestControllerService`). It owns one
  streaming-ingest client, built when the service is enabled. It also keeps a
  cache of open channels keyed by `database.schema.table:channelName`.
  `getChannel` opens a missing channel on demand; `closeChannel` removes and
  closes one. This is module `ChannelRegistry`: a class with the client and the
  `channelMap` as fields, and one pure transition function, `LookupChannel`,
  that specifies `getChannel`.
- **The row shapes** the processors build (module `RowBuilders`):
  - field-wise, with each schema field's `getValue` under its own name;
  - variant, a JSON object of the fields' `getAsString` values under one
    target column;
  - raw, the body's lines joined with `"\n"` under one target column, with an
    optional ingestion-time column.
- **The two submission strategies** (module `Submitting`), as reference
  functions:
  - row by row, where each record's row is inserted before the next record is
    read, and the first response with errors throws;
  - one batch per FlowFile.
- **The four processors.** The record loops of the three record-based
  processors are proved to follow the reference; the raw processor, which
  has no record loop, is specified directly:
  - `StreamToSnowflakeTable` (module `StreamToTable`) opens its own channel
    when scheduled, and submits row by row or per FlowFile as configured;
  - `PutSnowflakeStreamIngest` (module `PutIngest`) looks up the service's
    channel on every trigger and inserts field-wise rows one at a time;
  - `PutSnowflakeStreamIngestAsVariant` (module `PutVariant`) inserts variant
    rows one at a time;
  - `PutSnowflakeStreamIngestAsRaw` (module `PutRaw`) inserts one raw row per
    FlowFile, and quotes a mixed-case timestamp column name.

A FlowFile's fate is an `Outcome`:
- `Idle`: no FlowFile was queued;
- `Success` or `Failure(cause)`: the FlowFile was transferred to `success` or
  to `failure`;
- `Escaped(exception)`: an exception left `onTrigger` uncaught, and nothing was
  transferred.

Each processor's catch clauses are a `Route` function from how its `try` block
ended. The processors differ here:
- `StreamToSnowflakeTable` does not catch the SDK's `SFException`, so an insert
  error escapes there;
- the raw processor catches only `SFException` and `IOException`;
- every processor lets a `NullPointerException` escape. In the three
  processors that use the controller service, this happens when the service
  returns a null channel after a failed open. `StreamToSnowflakeTable` opens
  its own channel, which is never null when it is triggered.

Things the code does serve as inputs to the model:
- **The environment** (`session.get`, the record reader, the channel's
  validation responses):
  - the FlowFile as a value, holding its body (a fault opening the content,
    or the text or the fault reading its lines raises) and the reader;
  - the reader's schema, records and end. The end is `None` when
    `nextRecord` returns null, or `Some(fault)` when it throws after the last
    record;
  - `answers(k)`, the response to the k-th insert call during one trigger.
- **Nondeterminism**:
  - the random `UUID` of an open request is the parameter `freshName`;
  - whether `openChannel` throws is the parameter `openFault`;
  - the UTC clock is `now`.
- **Jackson's `writeValueAsString`** is the parameter `writer`, where `None`
  stands for a `JsonProcessingException`.
- **Logging** is dropped.
- **The Snowflake side** is recorded in ghost fields:
  - `openRequests`, the open requests the client received, in order;
  - `closedChannels`, the channels `close()` was called on, in order;
  - `builtClients`, the clients `StreamToSnowflakeTable.onScheduled` built,
    in order. The processor keeps no reference to them.

The model follows the code as written:
- record field names are passed to the channel unquoted;
- values are passed unconverted: a date is not turned into a string;
- the target column is never quoted; only the raw processor's timestamp
  column may be;
- a failed open is logged and `getChannel` returns null. The processor's
  first `insertRow` then throws `NullPointerException`;
- `closeChannel` for a key with no entry throws `NullPointerException`. It is
  not a no-op.

## Model

| member | source | states |
|---|---|---|
| ChannelRegistry.CacheKey | nifi-snowflake-processors/src/main/java/dev/anthu/controllers/snowflake/SnowflakeIngestControllerService.java:68 | the key is the database, then '.', then the schema and the table, then ':', then the channel name: three separators longer than the four names together |
| ChannelRegistry.CacheKeyParses | nifi-snowflake-processors/src/main/java/dev/anthu/controllers/snowflake/SnowflakeIngestControllerService.java:68 | when database and schema contain no '.' and the table no ':', the cache key splits back into exactly the destination it was built from |
| ChannelRegistry.CacheKeyInjective | nifi-snowflake-processors/src/main/java/dev/anthu/controllers/snowflake/SnowflakeIngestControllerService.java:68 | under those conditions two destinations with the same key are the same destination |
| ChannelRegistry.CacheKeyCollides | nifi-snowflake-processors/src/main/java/dev/anthu/controllers/snowflake/SnowflakeIngestControllerService.java:68 | without them the key is not injective: database "a.b" with schema "c" and database "a" with schema "b.c" share one key |
| ChannelRegistry.ClientProperties | nifi-snowflake-processors/src/main/java/dev/anthu/controllers/snowflake/SnowflakeIngestControllerService.java:90-96 | the client properties are exactly url, user and private_key with the configured values, plus role only when it is set |
| ChannelRegistry.LookupChannel | nifi-snowflake-processors/src/main/java/dev/anthu/controllers/snowflake/SnowflakeIngestControllerService.java:67-86 | a hit returns the stored channel and sends nothing; a miss with a client sends exactly one request (fresh name, database, schema, table, CONTINUE); a returned channel is cached under the key; a miss with no client, or whose open fails, returns null and leaves the cache alone; other entries are untouched |
| ChannelRegistry.ChannelNameNotSent | nifi-snowflake-processors/src/main/java/dev/anthu/controllers/snowflake/SnowflakeIngestControllerService.java:72-77 | two destinations differing only in channel name send the same open request: the channel name never reaches Snowflake |
| ChannelRegistry.FailedOpenRetried | nifi-snowflake-processors/src/main/java/dev/anthu/controllers/snowflake/SnowflakeIngestControllerService.java:79-85 | after a failed open the lookup returns null, and the next lookup for the same key sends a new open request |
| ChannelRegistry.RemovedEntryReopened | nifi-snowflake-processors/src/main/java/dev/anthu/controllers/snowflake/SnowflakeIngestControllerService.java:68-80 | once the key's entry is removed, the next lookup misses, sends one request and returns the channel it opened |
| ChannelRegistry.IngestControllerService.constructor | nifi-snowflake-processors/src/main/java/dev/anthu/controllers/snowflake/SnowflakeIngestControllerService.java:64-65 | a new service has no client and an empty channel map |
| ChannelRegistry.IngestControllerService.OnConfigured | nifi-snowflake-processors/src/main/java/dev/anthu/controllers/snowflake/SnowflakeIngestControllerService.java:88-102 | the client becomes the one named "NIFI" with exactly the connection properties above |
| ChannelRegistry.IngestControllerService.GetChannel | nifi-snowflake-processors/src/main/java/dev/anthu/controllers/snowflake/SnowflakeIngestControllerService.java:67-86 | the returned channel, the new channel map and the requests sent are those of `LookupChannel` on the old map; with no client nothing is sent |
| ChannelRegistry.IngestControllerService.CloseChannel | nifi-snowflake-processors/src/main/java/dev/anthu/controllers/snowflake/SnowflakeIngestControllerService.java:104-107 | exactly the key's entry is removed; if present its channel is closed, otherwise NullPointerException is thrown and nothing is closed |
| RowBuilders.BuildFieldRow | nifi-snowflake-processors/src/main/java/dev/anthu/processors/snowflake/PutSnowflakeStreamIngest.java:146-151 | the row the inner loop fills, one `put` per schema field, is the field-wise row of the record |
| RowBuilders.FieldRowShape | nifi-snowflake-processors/src/main/java/dev/anthu/processors/snowflake/PutSnowflakeStreamIngest.java:146-151 | the field-wise row's keys are exactly the schema's field names, unquoted, each holding `getValue` of that name, unconverted |
| RowBuilders.MemberIndex | nifi-snowflake-processors/src/main/java/dev/anthu/processors/snowflake/PutSnowflakeStreamIngestAsVariant.java:147 | the position found holds a member of that name; no position is found only when no member has it |
| RowBuilders.Put | nifi-snowflake-processors/src/main/java/dev/anthu/processors/snowflake/PutSnowflakeStreamIngestAsVariant.java:147 | `ObjectNode.put` overwrites an existing member of that name in place, or appends a new member at the end; members of other names keep their places and values |
| RowBuilders.BuildVariantObject | nifi-snowflake-processors/src/main/java/dev/anthu/processors/snowflake/PutSnowflakeStreamIngestAsVariant.java:144-149 | the variant object has one member per schema field, in schema order, holding `getAsString` of that field |
| RowBuilders.VariantRow | nifi-snowflake-processors/src/main/java/dev/anthu/processors/snowflake/PutSnowflakeStreamIngestAsVariant.java:151-153 | the variant row's only key is the target column, unquoted, holding the JSON text |
| RowBuilders.SplitLine | nifi-snowflake-processors/src/main/java/dev/anthu/processors/snowflake/PutSnowflakeStreamIngestAsRaw.java:135-137 | a line read never contains "\n" or "\r", and reading consumes input |
| RowBuilders.Lines | nifi-snowflake-processors/src/main/java/dev/anthu/processors/snowflake/PutSnowflakeStreamIngestAsRaw.java:135-137 | every line of the body is free of line terminators |
| RowBuilders.JoinLines | nifi-snowflake-processors/src/main/java/dev/anthu/processors/snowflake/PutSnowflakeStreamIngestAsRaw.java:138 | the joined text starts with the first line, followed by "\n" when more lines follow |
| RowBuilders.JoinLinesRoundTrip | nifi-snowflake-processors/src/main/java/dev/anthu/processors/snowflake/PutSnowflakeStreamIngestAsRaw.java:135-138 | for a body without "\r", joining its lines with "\n" gives the body back less at most one final "\n" |
| RowBuilders.JoinedLinesHaveNoCarriageReturn | nifi-snowflake-processors/src/main/java/dev/anthu/processors/snowflake/PutSnowflakeStreamIngestAsRaw.java:135-138 | the joined text of terminator-free lines never contains "\r" |
| RowBuilders.NormalizeNewlines | nifi-snowflake-processors/src/main/java/dev/anthu/processors/snowflake/PutSnowflakeStreamIngestAsRaw.java:135-138 | the reference for line ends: every "\r\n" and lone "\r" becomes "\n"; the result has no "\r", is empty only for the empty body, and is the body itself when it has no "\r" |
| RowBuilders.SplitLineNormalized | nifi-snowflake-processors/src/main/java/dev/anthu/processors/snowflake/PutSnowflakeStreamIngestAsRaw.java:135-137 | reading a line of the normalised body gives the same line, with the normalised rest after it |
| RowBuilders.LinesNormalized | nifi-snowflake-processors/src/main/java/dev/anthu/processors/snowflake/PutSnowflakeStreamIngestAsRaw.java:135-137 | a body and its normalised form are read as the same lines |
| RowBuilders.JoinLinesNormalizes | nifi-snowflake-processors/src/main/java/dev/anthu/processors/snowflake/PutSnowflakeStreamIngestAsRaw.java:135-138 | for any body, the joined lines are the body with every line terminator made "\n", less at most one final "\n" |
| RowBuilders.EmptyBodyGivesEmptyText | nifi-snowflake-processors/src/main/java/dev/anthu/processors/snowflake/PutSnowflakeStreamIngestAsRaw.java:135-138 | an empty body stores the empty text |
| RowBuilders.BuildRawRow | nifi-snowflake-processors/src/main/java/dev/anthu/processors/snowflake/PutSnowflakeStreamIngestAsRaw.java:134-144 | the raw row's keys are the target column plus, when the timestamp is on, the timestamp column; the time overwrites the text when the two names coincide |
| Submitting.FieldAttempts | nifi-snowflake-processors/src/main/java/dev/anthu/processors/snowflake/PutSnowflakeStreamIngest.java:145-150 | one field-wise row per record, in reader order |
| Submitting.RowByRow | nifi-snowflake-processors/src/main/java/dev/anthu/processors/snowflake/PutSnowflakeStreamIngest.java:143-157 | the reference for row-by-row submission: records in reader order, each built row inserted before the next is read, stopping at the first build failure, null channel or errored response; at most one insert per remaining record |
| Submitting.RowByRowInsertsInOrder | nifi-snowflake-processors/src/main/java/dev/anthu/processors/snowflake/PutSnowflakeStreamIngest.java:145-157 | row by row, only single-row inserts are made, at most one per record, and the k-th insert carries the k-th record's row |
| Submitting.RowByRowStopsAtFirst | nifi-snowflake-processors/src/main/java/dev/anthu/processors/snowflake/PutSnowflakeStreamIngest.java:153-156 | fail-fast: when record k is the first to stop, its exception is thrown and exactly the rows up to k (its own only if it was inserted) were submitted |
| Submitting.RowByRowCompletes | nifi-snowflake-processors/src/main/java/dev/anthu/processors/snowflake/PutSnowflakeStreamIngest.java:143-157 | the loop ends normally exactly when no record stops and the reader ends without throwing; then every record's row was inserted |
| Submitting.RowByRowNoRecords | nifi-snowflake-processors/src/main/java/dev/anthu/processors/snowflake/PutSnowflakeStreamIngest.java:145 | with no records nothing is inserted, even on a null channel |
| Submitting.Batch | nifi-snowflake-processors/src/main/java/dev/anthu/processors/snowflake/StreamToSnowflakeTable.java:178-187 | a reader failure throws before anything is submitted; otherwise exactly one `insertRows` of all rows is made; the FlowFile completes exactly when its response has no errors, and an errored response throws its first error's exception |
| StreamToTable.Route | nifi-snowflake-processors/src/main/java/dev/anthu/processors/snowflake/StreamToSnowflakeTable.java:188-194 | success exactly on normal completion; schema, IO and malformed-record exceptions go to failure; SFException and other unchecked exceptions escape |
| StreamToTable.StreamToSnowflakeTable.constructor | nifi-snowflake-processors/src/main/java/dev/anthu/processors/snowflake/StreamToSnowflakeTable.java:91-92 | a new processor has no channel |
| StreamToTable.StreamToSnowflakeTable.OnScheduled | nifi-snowflake-processors/src/main/java/dev/anthu/processors/snowflake/StreamToSnowflakeTable.java:99-125 | the strategy is row by row exactly for "row-by-row"; one client named "NIFI" is built with the connection properties (and not kept); a successful open stores the channel opened with a fresh name, the table and CONTINUE; a failed open throws and keeps the old channel |
| StreamToTable.StreamToSnowflakeTable.OnTrigger | nifi-snowflake-processors/src/main/java/dev/anthu/processors/snowflake/StreamToSnowflakeTable.java:149-195 | a reader or schema failure routes with nothing submitted; otherwise the outcome and the inserts are those of `RowByRow` or `Batch` on the records' field-wise rows, as the strategy says |
| StreamToTable.StreamToSnowflakeTable.InsertRecords | nifi-snowflake-processors/src/main/java/dev/anthu/processors/snowflake/StreamToSnowflakeTable.java:164-187 | the record loop's exit and inserts are exactly `RowByRow` of the field-wise rows, or `Batch` of them, as the strategy flag says |
| StreamToTable.InsertErrorEscapes | nifi-snowflake-processors/src/main/java/dev/anthu/processors/snowflake/StreamToSnowflakeTable.java:180-192 | per FlowFile, an errored `insertRows` response throws its first error's SFException after the batch was submitted, and no catch clause handles it: it escapes and the FlowFile is neither sent to success nor to failure |
| StreamToTable.RowByRowFailFast | nifi-snowflake-processors/src/main/java/dev/anthu/processors/snowflake/StreamToSnowflakeTable.java:173-177 | row by row, when record k's response is the first with errors, exactly the first k+1 rows were inserted, in reader order, and the exception escapes |
| StreamToTable.BatchSubmitsAtMostOnce | nifi-snowflake-processors/src/main/java/dev/anthu/processors/snowflake/StreamToSnowflakeTable.java:178-187 | per FlowFile, every submission is the one batch of all rows; a reader failure submits nothing |
| PutIngest.Route | nifi-snowflake-processors/src/main/java/dev/anthu/processors/snowflake/PutSnowflakeStreamIngest.java:158-172 | success exactly on normal completion; schema, SF, IO and malformed-record exceptions go to failure; a null dereference escapes |
| PutIngest.InsertRecords | nifi-snowflake-processors/src/main/java/dev/anthu/processors/snowflake/PutSnowflakeStreamIngest.java:143-157 | the loop's exit and inserts are exactly `RowByRow` of the records' field-wise rows, stopping with a null dereference when no channel was given |
| PutIngest.OnTrigger | nifi-snowflake-processors/src/main/java/dev/anthu/processors/snowflake/PutSnowflakeStreamIngest.java:123-173 | no FlowFile does nothing; a reader that cannot be built routes without a lookup; otherwise the service's map and requests follow `LookupChannel`, then a schema failure routes and otherwise the outcome follows `RowByRow` |
| PutIngest.SuccessOnlyWhenClean | nifi-snowflake-processors/src/main/java/dev/anthu/processors/snowflake/PutSnowflakeStreamIngest.java:141-172 | success exactly when the reader ends without throwing, every response is free of errors and, with any record, the channel is not null |
| PutIngest.NullChannel | nifi-snowflake-processors/src/main/java/dev/anthu/processors/snowflake/PutSnowflakeStreamIngest.java:141-157 | on a null channel an empty FlowFile still succeeds, and any record makes a null dereference escape with nothing inserted |
| PutIngest.InsertErrorRoutesToFailure | nifi-snowflake-processors/src/main/java/dev/anthu/processors/snowflake/PutSnowflakeStreamIngest.java:153-165 | when record k's response is the first with errors, k+1 rows were inserted and the FlowFile goes to failure with the first error's exception |
| PutVariant.VariantAttempt | nifi-snowflake-processors/src/main/java/dev/anthu/processors/snowflake/PutSnowflakeStreamIngestAsVariant.java:144-153 | a record's row exists exactly when its variant object serialises, and is then the JSON under the target column; otherwise JsonProcessingException is thrown |
| PutVariant.VariantAttempts | nifi-snowflake-processors/src/main/java/dev/anthu/processors/snowflake/PutSnowflakeStreamIngestAsVariant.java:143-153 | one variant attempt per record, in reader order |
| PutVariant.InsertVariantRecords | nifi-snowflake-processors/src/main/java/dev/anthu/processors/snowflake/PutSnowflakeStreamIngestAsVariant.java:143-158 | the loop's exit and inserts are exactly `RowByRow` of the records' variant attempts |
| PutVariant.PutSnowflakeStreamIngestAsVariant.constructor | nifi-snowflake-processors/src/main/java/dev/anthu/processors/snowflake/PutSnowflakeStreamIngestAsVariant.java:84-91 | a new processor has no controller service |
| PutVariant.PutSnowflakeStreamIngestAsVariant.OnScheduled | nifi-snowflake-processors/src/main/java/dev/anthu/processors/snowflake/PutSnowflakeStreamIngestAsVariant.java:93-102 | the service, destination and target column are stored verbatim |
| PutVariant.PutSnowflakeStreamIngestAsVariant.OnTrigger | nifi-snowflake-processors/src/main/java/dev/anthu/processors/snowflake/PutSnowflakeStreamIngestAsVariant.java:125-174 | as PutIngest's `onTrigger`, with the variant attempts, on the stored destination |
| PutVariant.PutSnowflakeStreamIngestAsVariant.Cleanup | nifi-snowflake-processors/src/main/java/dev/anthu/processors/snowflake/PutSnowflakeStreamIngestAsVariant.java:176-180 | with no service (never scheduled) NullPointerException is thrown; otherwise the stored destination's entry is removed and its channel closed, or NullPointerException is thrown when there is none |
| PutVariant.VariantRowsInOrder | nifi-snowflake-processors/src/main/java/dev/anthu/processors/snowflake/PutSnowflakeStreamIngestAsVariant.java:143-158 | the k-th insert is the k-th record's serialised variant object under the target column |
| PutVariant.JsonFailureRoutesToFailure | nifi-snowflake-processors/src/main/java/dev/anthu/processors/snowflake/PutSnowflakeStreamIngestAsVariant.java:152-170 | a record that cannot be serialised sends the FlowFile to failure (the catch clauses are PutSnowflakeStreamIngest's, so `PutIngest.Route` applies); the records before it stay inserted and it is not |
| PutVariant.NoRecordsSucceed | nifi-snowflake-processors/src/main/java/dev/anthu/processors/snowflake/PutSnowflakeStreamIngestAsVariant.java:143-173 | a reader with no records succeeds with nothing inserted |
| PutRaw.Upper | nifi-snowflake-processors/src/main/java/dev/anthu/processors/snowflake/PutSnowflakeStreamIngestAsRaw.java:165 | the upper-case form has the same length and each character upper-cased |
| PutRaw.OptionallyQuote | nifi-snowflake-processors/src/main/java/dev/anthu/processors/snowflake/PutSnowflakeStreamIngestAsRaw.java:164-169 | the name is kept exactly when it equals its upper-case form; otherwise the result is two longer, starts and ends with '"', and holds the name in between |
| PutRaw.QuoteUpperIdempotent | nifi-snowflake-processors/src/main/java/dev/anthu/processors/snowflake/PutSnowflakeStreamIngestAsRaw.java:164-167 | on an upper-case name quoting is the identity, and so idempotent |
| PutRaw.QuoteNotIdempotent | nifi-snowflake-processors/src/main/java/dev/anthu/processors/snowflake/PutSnowflakeStreamIngestAsRaw.java:164-169 | on any other name quoting twice wraps it in two pairs of quotes |
| PutRaw.DefaultTimestampColumnUnquoted | nifi-snowflake-processors/src/main/java/dev/anthu/processors/snowflake/SnowflakeDefaultProperties.java:70 | the default timestamp column INGESTED_AT is used unquoted |
| PutRaw.MixedCaseTimestampColumnQuoted | nifi-snowflake-processors/src/main/java/dev/anthu/processors/snowflake/PutSnowflakeStreamIngestAsRaw.java:168 | a lower-case timestamp column name is quoted |
| PutRaw.EqualsIgnoreCase | nifi-snowflake-processors/src/main/java/dev/anthu/processors/snowflake/PutSnowflakeStreamIngestAsRaw.java:98 | two strings are equal ignoring case exactly when their upper-case forms are equal |
| PutRaw.ParseBoolean | nifi-snowflake-processors/src/main/java/dev/anthu/processors/snowflake/PutSnowflakeStreamIngestAsRaw.java:98 | the flag is true exactly for a four-letter value spelling "true" in any case |
| PutRaw.ParseBooleanAllowedValues | nifi-snowflake-processors/src/main/java/dev/anthu/processors/snowflake/SnowflakeDefaultProperties.java:54-62 | the allowed value "true" turns the timestamp on and the default "false" leaves it off |
| PutRaw.Route | nifi-snowflake-processors/src/main/java/dev/anthu/processors/snowflake/PutSnowflakeStreamIngestAsRaw.java:151-161 | success exactly on normal completion; SF and IO exceptions go to failure; everything else escapes |
| PutRaw.RawText | nifi-snowflake-processors/src/main/java/dev/anthu/processors/snowflake/PutSnowflakeStreamIngestAsRaw.java:135-138 | the stored text is the body with every "\r\n" and lone "\r" made "\n" and at most one final "\n" dropped; so it has no "\r", and for a body without "\r" it is the body less at most one final "\n" |
| PutRaw.PutSnowflakeStreamIngestAsRaw.constructor | nifi-snowflake-processors/src/main/java/dev/anthu/processors/snowflake/PutSnowflakeStreamIngestAsRaw.java:80-88 | a new processor has no controller service |
| PutRaw.PutSnowflakeStreamIngestAsRaw.OnScheduled | nifi-snowflake-processors/src/main/java/dev/anthu/processors/snowflake/PutSnowflakeStreamIngestAsRaw.java:90-100 | destination and target column are stored verbatim; the flag is the property compared to "true" ignoring case; only the timestamp column is optionally quoted |
| PutRaw.PutSnowflakeStreamIngestAsRaw.OnTrigger | nifi-snowflake-processors/src/main/java/dev/anthu/processors/snowflake/PutSnowflakeStreamIngestAsRaw.java:124-162 | a content that cannot be opened routes with no lookup; otherwise the lookup follows `LookupChannel`, a failure reading the lines routes with nothing inserted, a null channel escapes, and otherwise exactly one raw-row insert is made; the FlowFile fails exactly when its response has errors |
| PutRaw.PutSnowflakeStreamIngestAsRaw.Cleanup | nifi-snowflake-processors/src/main/java/dev/anthu/processors/snowflake/PutSnowflakeStreamIngestAsRaw.java:171-174 | with no service (never scheduled) NullPointerException is thrown; otherwise the stored destination's entry is removed and its channel closed, or NullPointerException is thrown when there is none |
| PutRaw.TimestampOverridesTarget | nifi-snowflake-processors/src/main/java/dev/anthu/processors/snowflake/PutSnowflakeStreamIngestAsRaw.java:140-144 | with the timestamp on a column equal to the target column, the row holds the time alone |
| PutRaw.TextOnlyRow | nifi-snowflake-processors/src/main/java/dev/anthu/processors/snowflake/PutSnowflakeStreamIngestAsRaw.java:140-144 | with the timestamp off, the row is the text alone under the target column |

## Left out

- The Snowflake Streaming Ingest SDK is not modelled: client construction, `openChannel`, `insertRow`/`insertRows` and the contents of a validation response. The channel is known by its open request, its responses are inputs, and whether an open fails is an input.
- Jackson serialisation is an uninterpreted `writer`, which may fail.
- UTF-8 decoding, `InputStream`/`BufferedReader` and the try-with-resources closing of the stream and reader are not modelled. An exception thrown while closing them is not modelled either.
- For the record-based processors, a failure of `session.read` or of `createRecordReader` is one fault on the FlowFile, raised before the channel lookup. For the raw processor, a `session.read` failure is raised before the lookup, and a failure reading the lines after it (the UncheckedIOException that `lines()` throws, which escapes).
- The raw processor's `catch (IOException e)` can only be reached by the try-with-resources closing the input stream, after `insertRow` has been made; closing is not modelled, so this path (row inserted, FlowFile sent to failure) is not captured.
- `session.transfer` is the `Outcome`, and logging is dropped.
- `String.toUpperCase` and `equalsIgnoreCase` are modelled on ASCII letters only, without locale or other Unicode case mappings.
- The clock `LocalDateTime.now(ZoneOffset.UTC)` is the input `now`, an integer standing for the time. The random request name is the input `freshName`.
- Concurrent triggers sharing the unsynchronised `channelMap` are not modelled: the model is single-threaded.
- PropertyDescriptor and Relationship constants, `getSupportedPropertyDescriptors` and `getRelationships` are NiFi metadata. Their values enter as plain inputs to `OnScheduled`: the defaults `col1`, `channel1`, `INGESTED_AT` and `false`.
- `SnowflakeIngestController.java` is only the interface the service implements; `IngestControllerService` stands for it.
- A `close()` call on an open channel always succeeds in the model.
- StreamToTable.StreamToSnowflakeTable.OnTrigger: requires a channel, because NiFi triggers a processor only after `onScheduled` has completed, and a failed open throws out of `onScheduled`.
- PutVariant.PutSnowflakeStreamIngestAsVariant.OnTrigger: requires the controller service to be set, which `onScheduled` always does before any trigger. The same holds for the raw processor's `OnTrigger`. The `Cleanup` methods carry no such requirement: NiFi may call them on a processor that was never scheduled.
- The record reader's `getValue`/`getAsString` are given as maps on a record; NiFi's type coercion inside them is not modelled.
