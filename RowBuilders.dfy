/**
 * The three row shapes the processors build: field-wise passthrough, one
 * variant column holding a record's JSON text, and one raw column holding a
 * FlowFile's body text (with an optional timestamp column).
 */
module RowBuilders {
  import opened Types

  // ---------------------------------------------------------------- field-wise

  /** The row a record yields field-wise: each schema name, verbatim, maps to `getValue(name)`. */
  function FieldRow(schema: Schema, record: Record): Row {
    map name | name in schema :: record.GetValue(name)
  }

  /** A field-wise row's keys are the schema's names, each holding `getValue` of that name. */
  lemma FieldRowShape(schema: Schema, record: Record)
    ensures forall name :: name in FieldRow(schema, record) <==> name in schema
    ensures forall name :: name in schema ==> FieldRow(schema, record)[name] == record.GetValue(name)
  {
  }

  /** The field-wise rows of a sequence of records, in reader order. */
  function FieldRows(schema: Schema, records: seq<Record>): (rows: seq<Row>)
    ensures |rows| == |records|
    ensures forall j :: 0 <= j < |records| ==> rows[j] == FieldRow(schema, records[j])
  {
    seq(|records|, j requires 0 <= j < |records| => FieldRow(schema, records[j]))
  }

  /**
   * The inner loop of the field-wise processors: one `row.put` per schema
   * field, the key the field name unquoted, the value `getValue` unconverted.
   */
  method BuildFieldRow(schema: Schema, record: Record) returns (row: Row)
    ensures row == FieldRow(schema, record)
  {
    row := map[];
    for i := 0 to |schema|
      invariant forall name :: name in row <==> name in schema[..i]
      invariant forall name :: name in row ==> row[name] == record.GetValue(name)
    {
      assert schema[..i + 1] == schema[..i] + [schema[i]];
      row := row[schema[i] := record.GetValue(schema[i])];
    }
    assert schema[..|schema|] == schema;
  }

  // ---------------------------------------------------------------- variant

  /** A Jackson `ObjectNode` of string members: names and values in insertion order. */
  type VariantObject = seq<(string, Option<string>)>

  /** The position of the member called `name`, if any. */
  function MemberIndex(obj: VariantObject, name: string): (r: Option<nat>)
    ensures r.Some? ==> r.value < |obj| && obj[r.value].0 == name
    ensures r.None? ==> forall i :: 0 <= i < |obj| ==> obj[i].0 != name
  {
    if obj == [] then None
    else if obj[|obj| - 1].0 == name then Some(|obj| - 1)
    else MemberIndex(obj[..|obj| - 1], name)
  }

  /** `ObjectNode.put`: replaces an existing member's value in place, or appends a new member. */
  function Put(obj: VariantObject, name: string, value: Option<string>): (p: VariantObject)
    ensures MemberIndex(obj, name).Some? ==> |p| == |obj| && p[MemberIndex(obj, name).value] == (name, value)
    ensures MemberIndex(obj, name).None? ==> |p| == |obj| + 1 && p[|obj|] == (name, value)
    ensures forall i :: 0 <= i < |obj| && obj[i].0 != name ==> p[i] == obj[i]
  {
    match MemberIndex(obj, name)
    case Some(i) => obj[i := (name, value)]
    case None => obj + [(name, value)]
  }

  /** The variant object of a record: each schema field, in schema order, with `getAsString`. */
  function VariantObjectOf(schema: Schema, record: Record): (obj: VariantObject)
    ensures |obj| == |schema|
    ensures forall i :: 0 <= i < |schema| ==> obj[i] == (schema[i], record.GetAsString(schema[i]))
  {
    seq(|schema|, i requires 0 <= i < |schema| => (schema[i], record.GetAsString(schema[i])))
  }

  /**
   * The inner loop of the variant processor: one `variantObject.put` per
   * schema field. As schema names are distinct, every put appends.
   */
  method BuildVariantObject(schema: Schema, record: Record) returns (obj: VariantObject)
    ensures |obj| == |schema|
    ensures forall i :: 0 <= i < |schema| ==> obj[i] == (schema[i], record.GetAsString(schema[i]))
    ensures obj == VariantObjectOf(schema, record)
  {
    obj := [];
    for i := 0 to |schema|
      invariant |obj| == i
      invariant forall j :: 0 <= j < i ==> obj[j] == (schema[j], record.GetAsString(schema[j]))
    {
      obj := Put(obj, schema[i], record.GetAsString(schema[i]));
    }
  }

  /** The variant row: the JSON text alone, under the target column, unquoted. */
  function VariantRow(targetColumn: string, json: string): (row: Row)
    ensures row.Keys == {targetColumn} && row[targetColumn] == Text(json)
  {
    map[targetColumn := Text(json)]
  }

  // ---------------------------------------------------------------- raw

  /** A line as `readLine` returns it: no "\n" and no "\r". */
  predicate IsLine(s: string) {
    '\n' !in s && '\r' !in s
  }

  datatype Split = Split(line: string, rest: string)

  /**
   * `BufferedReader.readLine` on a non-exhausted stream: the characters up to
   * the first "\n", "\r" or "\r\n", and what follows that terminator.
   */
  function SplitLine(s: string): (r: Split)
    ensures |r.rest| <= |s| && (s != [] ==> |r.rest| < |s|)
    ensures IsLine(r.line)
  {
    if s == [] then Split([], [])
    else if s[0] == '\n' then Split([], s[1..])
    else if s[0] == '\r' then Split([], if |s| > 1 && s[1] == '\n' then s[2..] else s[1..])
    else
      var r := SplitLine(s[1..]);
      Split([s[0]] + r.line, r.rest)
  }

  /** `BufferedReader.lines()`: the body's lines, without their terminators. */
  function Lines(s: string): (lines: seq<string>)
    ensures forall i :: 0 <= i < |lines| ==> IsLine(lines[i])
    decreases |s|
  {
    if s == [] then [] else
    var r := SplitLine(s);
    [r.line] + Lines(r.rest)
  }

  /** `Collectors.joining("\n")`: the first line, then "\n" and the join of the rest when more follow. */
  function JoinLines(lines: seq<string>): (j: string)
    ensures lines != [] ==> lines[0] <= j
    ensures |lines| > 1 ==> |j| > |lines[0]| && j[|lines[0]|] == '\n'
  {
    if lines == [] then []
    else if |lines| == 1 then lines[0]
    else lines[0] + "\n" + JoinLines(lines[1..])
  }

  /** The body, less one final "\n". */
  function DropFinalNewline(s: string): string {
    if s != [] && s[|s| - 1] == '\n' then s[..|s| - 1] else s
  }

  lemma {:induction false} SplitLineWithoutCarriageReturn(s: string)
    requires s != [] && '\r' !in s
    ensures var r := SplitLine(s);
            && ((s == r.line + "\n" + r.rest) || (s == r.line && r.rest == []))
            && '\r' !in r.rest
  {
    if s[0] != '\n' && |s| > 1 {
      SplitLineWithoutCarriageReturn(s[1..]);
      var r := SplitLine(s[1..]);
      if s[1..] == r.line + "\n" + r.rest {
        assert s == [s[0]] + r.line + "\n" + r.rest;
      } else {
        assert s == [s[0]] + r.line;
      }
    } else if s[0] == '\n' {
      assert s == [] + "\n" + s[1..];
    }
  }

  lemma JoinLinesCons(line: string, lines: seq<string>)
    requires lines != []
    ensures JoinLines([line] + lines) == line + "\n" + JoinLines(lines)
  {
    assert ([line] + lines)[1..] == lines;
  }

  lemma DropFinalNewlineAppend(p: string, q: string)
    requires q != []
    ensures DropFinalNewline(p + q) == p + DropFinalNewline(q)
  {
    if q[|q| - 1] == '\n' {
      assert (p + q)[..|p + q| - 1] == p + q[..|q| - 1];
    }
  }

  /**
   * For a body without "\r", joining its lines with "\n" gives the body back
   * with at most its final "\n" dropped.
   */
  lemma {:induction false} JoinLinesRoundTrip(s: string)
    requires '\r' !in s
    ensures JoinLines(Lines(s)) == DropFinalNewline(s)
    decreases |s|
  {
    if s != [] {
      var r := SplitLine(s);
      SplitLineWithoutCarriageReturn(s);
      assert Lines(s) == [r.line] + Lines(r.rest);
      if r.rest == [] {
        assert JoinLines(Lines(s)) == r.line;
        if s == r.line + "\n" + r.rest {
          assert s[..|s| - 1] == r.line;
        } else {
          assert s == r.line;
        }
      } else {
        JoinLinesRoundTrip(r.rest);
        assert s == r.line + "\n" + r.rest;
        JoinLinesCons(r.line, Lines(r.rest));
        DropFinalNewlineAppend(r.line + "\n", r.rest);
      }
    }
  }

  /** Joined lines of any body carry no "\r": Windows and old-Mac line ends become "\n". */
  lemma {:induction false} JoinedLinesHaveNoCarriageReturn(lines: seq<string>)
    requires forall i :: 0 <= i < |lines| ==> IsLine(lines[i])
    ensures '\r' !in JoinLines(lines)
  {
    if |lines| > 1 {
      JoinedLinesHaveNoCarriageReturn(lines[1..]);
      assert IsLine(lines[0]);
    } else if |lines| == 1 {
      assert IsLine(lines[0]);
    }
  }

  /**
   * The reference for what `lines()` and `joining("\n")` do to line ends:
   * every "\r\n" and every lone "\r" becomes "\n"; all else is kept.
   */
  function NormalizeNewlines(s: string): (n: string)
    ensures '\r' !in n
    ensures s != [] ==> n != []
    ensures '\r' !in s ==> n == s
    decreases |s|
  {
    if s == [] then []
    else if s[0] == '\r' then "\n" + NormalizeNewlines(if |s| > 1 && s[1] == '\n' then s[2..] else s[1..])
    else [s[0]] + NormalizeNewlines(s[1..])
  }

  /** Reading a line of the normalised body gives the same line, and the normalised rest. */
  lemma {:induction false} SplitLineNormalized(s: string)
    requires s != []
    ensures SplitLine(NormalizeNewlines(s)) == Split(SplitLine(s).line, NormalizeNewlines(SplitLine(s).rest))
    decreases |s|
  {
    var n := NormalizeNewlines(s);
    if s[0] != '\n' && s[0] != '\r' {
      assert n == [s[0]] + NormalizeNewlines(s[1..]);
      assert n[1..] == NormalizeNewlines(s[1..]);
      if s[1..] != [] {
        SplitLineNormalized(s[1..]);
      }
    } else if s[0] == '\n' {
      assert n[1..] == NormalizeNewlines(s[1..]);
    } else {
      assert n[1..] == NormalizeNewlines(if |s| > 1 && s[1] == '\n' then s[2..] else s[1..]);
    }
  }

  /** Normalising line ends does not change the lines a body is read as. */
  lemma {:induction false} LinesNormalized(s: string)
    ensures Lines(NormalizeNewlines(s)) == Lines(s)
    decreases |s|
  {
    if s != [] {
      SplitLineNormalized(s);
      LinesNormalized(SplitLine(s).rest);
    }
  }

  /**
   * For any body, joining its lines with "\n" gives the body with each line
   * terminator ("\n", "\r\n" or a lone "\r") turned into "\n", less at most
   * one final "\n".
   */
  lemma JoinLinesNormalizes(s: string)
    ensures JoinLines(Lines(s)) == DropFinalNewline(NormalizeNewlines(s))
  {
    LinesNormalized(s);
    JoinLinesRoundTrip(NormalizeNewlines(s));
  }

  /** The empty body stores the empty text. */
  lemma EmptyBodyGivesEmptyText()
    ensures JoinLines(Lines("")) == ""
  {
  }

  /**
   * The raw row: the text under the target column, and, when the timestamp
   * is on, the time under the timestamp column, overwriting the text if the
   * two names coincide.
   */
  predicate IsRawRow(row: Row, targetColumn: string, text: string, writeTimestamp: bool,
                     timestampColumn: string, now: int)
  {
    && row.Keys == {targetColumn} + (if writeTimestamp then {timestampColumn} else {})
    && (writeTimestamp ==> row[timestampColumn] == Stamp(now))
    && (!writeTimestamp || timestampColumn != targetColumn ==> row[targetColumn] == Text(text))
  }

  /** The raw processor's row, filled by one or two `row.put` calls. */
  method BuildRawRow(targetColumn: string, text: string, writeTimestamp: bool,
                     timestampColumn: string, now: int) returns (row: Row)
    ensures IsRawRow(row, targetColumn, text, writeTimestamp, timestampColumn, now)
  {
    row := map[];
    row := row[targetColumn := Text(text)];
    if writeTimestamp {
      row := row[timestampColumn := Stamp(now)];
    }
  }
}
