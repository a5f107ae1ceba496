/**
 * Reference definitions of the two submission strategies the processors
 * use: row by row with fail-fast on the first errored response, and one
 * batch per FlowFile. The processors' loops are proved to follow them.
 *
 * `answers(k)` is the channel's response to the k-th insert call made while
 * one FlowFile is processed.
 */
module Submitting {
  import opened Types
  import opened RowBuilders

  /** Building one record's row either gives the row or throws. */
  datatype Attempt = Built(row: Row) | BuildFailed(fault: Fault)

  /** How a FlowFile's `try` block ends, and the calls it made on the channel, in order. */
  datatype Run = Run(exit: Exit, submitted: seq<Submission>)

  /** The field-wise rows of a FlowFile's records, as row-by-row attempts. */
  function FieldAttempts(schema: Schema, records: seq<Record>): (attempts: seq<Attempt>)
    ensures |attempts| == |records|
    ensures forall j :: 0 <= j < |records| ==> attempts[j] == Built(FieldRow(schema, records[j]))
  {
    seq(|records|, j requires 0 <= j < |records| => Built(FieldRow(schema, records[j])))
  }

  /** How the `try` block ends once the reader is exhausted. */
  function EndExit(end: Option<Fault>): Exit {
    if end.Some? then Threw(end.value) else Normal
  }

  /**
   * Row-by-row processing stops at record `j`: its row cannot be built, or
   * there is no channel (`insertRow` on null), or the response has errors.
   */
  predicate StopsAt(attempts: seq<Attempt>, channel: bool, answers: nat -> Response, j: nat)
    requires j < |attempts|
  {
    attempts[j].BuildFailed? || !channel || answers(j).HasErrors()
  }

  /** The exception thrown where processing stops. */
  function StopFault(attempts: seq<Attempt>, channel: bool, answers: nat -> Response, j: nat): Fault
    requires j < |attempts| && StopsAt(attempts, channel, answers, j)
  {
    if attempts[j].BuildFailed? then attempts[j].fault
    else if !channel then NullPointer
    else answers(j).FirstException()
  }

  /**
   * Row-by-row submission of records `i..`: each built row is inserted, in
   * reader order, before the next record is read; the first response with
   * errors throws its first error's exception.
   */
  function RowByRow(attempts: seq<Attempt>, end: Option<Fault>, channel: bool, answers: nat -> Response, i: nat): (r: Run)
    requires i <= |attempts|
    ensures |r.submitted| <= |attempts| - i
    decreases |attempts| - i
  {
    if i == |attempts| then Run(EndExit(end), [])
    else if attempts[i].BuildFailed? then Run(Threw(attempts[i].fault), [])
    else if !channel then Run(Threw(NullPointer), [])
    else if answers(i).HasErrors() then Run(Threw(answers(i).FirstException()), [InsertRow(attempts[i].row)])
    else
      var rest := RowByRow(attempts, end, channel, answers, i + 1);
      Run(rest.exit, [InsertRow(attempts[i].row)] + rest.submitted)
  }

  /**
   * Only single-row inserts are made, at most one per record from `i` on,
   * each carrying the built row of the record at its position, in reader order.
   */
  lemma {:induction false} RowByRowInsertsInOrder(attempts: seq<Attempt>, end: Option<Fault>, channel: bool,
                                                  answers: nat -> Response, i: nat)
    requires i <= |attempts|
    ensures var r := RowByRow(attempts, end, channel, answers, i);
            && |r.submitted| <= |attempts| - i
            && forall k :: i <= k < i + |r.submitted| ==>
                 attempts[k].Built? && r.submitted[k - i] == InsertRow(attempts[k].row)
    decreases |attempts| - i
  {
    if i < |attempts| && !StopsAt(attempts, channel, answers, i) {
      RowByRowInsertsInOrder(attempts, end, channel, answers, i + 1);
    }
  }

  /** Run `r` preceded by the inserts `done`: how a loop that already made `done` goes on. */
  function After(done: seq<Submission>, r: Run): Run {
    Run(r.exit, done + r.submitted)
  }

  /** A record that does not stop row-by-row processing adds its insert and moves on. */
  lemma RowByRowAdvance(attempts: seq<Attempt>, end: Option<Fault>, channel: bool, answers: nat -> Response,
                        i: nat, done: seq<Submission>)
    requires i < |attempts| && !StopsAt(attempts, channel, answers, i)
    ensures After(done, RowByRow(attempts, end, channel, answers, i))
         == After(done + [InsertRow(attempts[i].row)], RowByRow(attempts, end, channel, answers, i + 1))
  {
    var next := RowByRow(attempts, end, channel, answers, i + 1);
    assert done + ([InsertRow(attempts[i].row)] + next.submitted) == done + [InsertRow(attempts[i].row)] + next.submitted;
  }

  /** A record that stops row-by-row processing throws, after its own insert if one was made. */
  lemma RowByRowHalt(attempts: seq<Attempt>, end: Option<Fault>, channel: bool, answers: nat -> Response,
                     i: nat, done: seq<Submission>)
    requires i < |attempts| && StopsAt(attempts, channel, answers, i)
    ensures After(done, RowByRow(attempts, end, channel, answers, i))
         == Run(Threw(StopFault(attempts, channel, answers, i)),
                done + if attempts[i].Built? && channel then [InsertRow(attempts[i].row)] else [])
  {
  }

  /** Past the last record, the reader's end decides the exit. */
  lemma RowByRowEnd(attempts: seq<Attempt>, end: Option<Fault>, channel: bool, answers: nat -> Response,
                    done: seq<Submission>)
    ensures After(done, RowByRow(attempts, end, channel, answers, |attempts|)) == Run(EndExit(end), done)
  {
  }

  /**
   * Fail-fast: when record `k` is the first to stop, its exception is thrown
   * and exactly the rows up to `k` (including its own, if it was inserted)
   * were submitted; no later record is read or submitted.
   */
  lemma {:induction false} RowByRowStopsAtFirst(attempts: seq<Attempt>, end: Option<Fault>, channel: bool,
                                                answers: nat -> Response, i: nat, k: nat)
    requires i <= k < |attempts|
    requires StopsAt(attempts, channel, answers, k)
    requires forall j :: i <= j < k ==> !StopsAt(attempts, channel, answers, j)
    ensures RowByRow(attempts, end, channel, answers, i).exit == Threw(StopFault(attempts, channel, answers, k))
    ensures |RowByRow(attempts, end, channel, answers, i).submitted|
         == k - i + (if attempts[k].Built? && channel then 1 else 0)
    decreases k - i
  {
    if i < k {
      assert !StopsAt(attempts, channel, answers, i);
      RowByRowStopsAtFirst(attempts, end, channel, answers, i + 1, k);
    }
  }

  /**
   * The `try` block completes normally exactly when no record stops and the
   * reader ends without throwing; when no record stops, every row is
   * submitted and the reader's end decides the exit.
   */
  lemma {:induction false} RowByRowCompletes(attempts: seq<Attempt>, end: Option<Fault>, channel: bool,
                                             answers: nat -> Response, i: nat)
    requires i <= |attempts|
    ensures RowByRow(attempts, end, channel, answers, i).exit == Normal
            <==> end.None? && forall j :: i <= j < |attempts| ==> !StopsAt(attempts, channel, answers, j)
    ensures (forall j :: i <= j < |attempts| ==> !StopsAt(attempts, channel, answers, j)) ==>
              RowByRow(attempts, end, channel, answers, i).exit == EndExit(end) &&
              |RowByRow(attempts, end, channel, answers, i).submitted| == |attempts| - i
    decreases |attempts| - i
  {
    if i < |attempts| {
      RowByRowCompletes(attempts, end, channel, answers, i + 1);
      if StopsAt(attempts, channel, answers, i) {
        assert !(forall j :: i <= j < |attempts| ==> !StopsAt(attempts, channel, answers, j));
      }
    }
  }

  /** With no records, nothing is inserted, even on a null channel. */
  lemma RowByRowNoRecords(end: Option<Fault>, channel: bool, answers: nat -> Response)
    ensures RowByRow([], end, channel, answers, 0) == Run(EndExit(end), [])
  {
  }

  /**
   * One batch per FlowFile: rows are collected while the reader runs; a
   * reader failure throws before anything is submitted; otherwise exactly one
   * `insertRows` of all rows, in reader order, is made, even with no rows.
   */
  function Batch(rows: seq<Row>, end: Option<Fault>, answers: nat -> Response): (r: Run)
    ensures end.Some? ==> r == Run(Threw(end.value), [])
    ensures end.None? ==> r.submitted == [InsertRows(rows)]
    ensures r.exit == Normal <==> end.None? && !answers(0).HasErrors()
    ensures end.None? && answers(0).HasErrors() ==> r.exit == Threw(answers(0).FirstException())
  {
    if end.Some? then Run(Threw(end.value), [])
    else if answers(0).HasErrors() then Run(Threw(answers(0).FirstException()), [InsertRows(rows)])
    else Run(Normal, [InsertRows(rows)])
  }
}
