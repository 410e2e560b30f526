/**
 * The CSV import endpoint of the backend (backend/app/api/import_data.py):
 * the file-name check, then a loop over the parsed rows that stamps each row
 * with the user, drops its missing cells, routes it to one or both tables by
 * the file's columns, and counts imported and failed rows, giving up after
 * the eleventh failure.
 *
 * The parsed file (`pandas.read_csv`) is an input: its column set and its rows,
 * where a cell is a value or `NaN`. Whether an insert raises, and with which
 * message, is the input `fails`, a function of the row's position, the table
 * and the row sent.
 */
module CsvImport {
  import opened Common
  import opened Store

  const RoutineTable := "morning_routines"
  const ProductivityTable := "productivity_entries"

  /** A parsed cell: a value, or `NaN` for a missing one. */
  datatype Cell = Value(v: Value) | NaN

  type CsvRow = map<string, Cell>

  /** The columns that make a file a routine file, and a productivity file. */
  const RoutineColumns: set<string> := {"wake_time", "sleep_duration_hours", "morning_mood"}
  const ProductivityColumns: set<string> := {"productivity_score", "energy_level"}

  /** The columns each table takes when a row is split between them. */
  const RoutineFields: set<string> := {
    "date", "user_id", "wake_time", "sleep_duration_hours", "exercise_minutes", "meditation_minutes",
    "breakfast_quality", "morning_mood", "screen_time_before_bed", "caffeine_intake", "water_intake_ml"}
  const ProductivityFields: set<string> := {
    "date", "user_id", "productivity_score", "tasks_completed", "tasks_planned", "focus_hours",
    "distractions_count", "energy_level", "stress_level", "notes"}

  const TruncationMarker := "... (more errors truncated)"

  /** `row.to_dict()`, then `user_id` set, then every `NaN` cell dropped. */
  function CleanRow(cells: CsvRow, userId: string): (r: Row)
    ensures "user_id" in r && r["user_id"] == VStr(userId)
    ensures forall k :: k in r && k != "user_id" ==> k in cells && cells[k] == Value(r[k])
    ensures forall k :: k in cells && cells[k].Value? ==> k in r
  {
    map k | k in cells.Keys + {"user_id"} && (k == "user_id" || cells[k].Value?) ::
      if k == "user_id" then VStr(userId) else cells[k].v
  }

  /** `{k: v for k, v in row.items() if k in fields}`. */
  function Project(r: Row, fields: set<string>): (p: Row)
    ensures p.Keys == r.Keys * fields
    ensures forall k :: k in p ==> p[k] == r[k]
  {
    map k | k in r.Keys * fields :: r[k]
  }

  /** One `insert(...)` call: the table and the row sent. */
  datatype Insert = Insert(table: string, row: Row)

  /**
   * The inserts a row leads to: all of it to the routines when the file has
   * the routine columns, else all of it to productivity when it has the
   * productivity columns, else each table's part that has more than the two
   * keys `date` and `user_id` could give it.
   */
  function Inserts(columns: set<string>, r: Row): seq<Insert> {
    if RoutineColumns <= columns then [Insert(RoutineTable, r)]
    else if ProductivityColumns <= columns then [Insert(ProductivityTable, r)]
    else
      var routinePart := Project(r, RoutineFields);
      var productivityPart := Project(r, ProductivityFields);
      (if |routinePart| > 2 then [Insert(RoutineTable, routinePart)] else []) +
      (if |productivityPart| > 2 then [Insert(ProductivityTable, productivityPart)] else [])
  }

  /** The outcome of running inserts in order: those that went through, and the first error. */
  datatype Attempted = Attempted(done: seq<Insert>, err: Option<string>)

  function Attempt(ins: seq<Insert>, idx: nat, fails: (nat, string, Row) -> Option<string>): Attempted {
    if ins == [] then Attempted([], None)
    else
      var e := fails(idx, ins[0].table, ins[0].row);
      if e.Some? then Attempted([], e)
      else
        var rest := Attempt(ins[1..], idx, fails);
        Attempted([ins[0]] + rest.done, rest.err)
  }

  /** The rows that the inserts put into one table, in order. */
  function RowsFor(ins: seq<Insert>, table: string): seq<Row> {
    if ins == [] then []
    else RowsFor(ins[..|ins| - 1], table) + (if ins[|ins| - 1].table == table then [ins[|ins| - 1].row] else [])
  }

  /** The tables after the inserts, each row appended to its table. */
  function AfterInserts(tables: map<string, seq<Row>>, ins: seq<Insert>): map<string, seq<Row>> {
    if ins == [] then tables
    else
      var before := AfterInserts(tables, ins[..|ins| - 1]);
      var x := ins[|ins| - 1];
      before[x.table := RowsIn(before, x.table) + [x.row]]
  }

  /** After the inserts each table holds its old rows followed by the rows inserted into it. */
  lemma {:induction false} AfterInsertsRows(tables: map<string, seq<Row>>, ins: seq<Insert>, t: string)
    ensures RowsIn(AfterInserts(tables, ins), t) == RowsIn(tables, t) + RowsFor(ins, t)
  {
    if ins != [] {
      AfterInsertsRows(tables, ins[..|ins| - 1], t);
    }
  }

  lemma AfterInsertsAppend(tables: map<string, seq<Row>>, a: seq<Insert>, b: seq<Insert>)
    ensures AfterInserts(AfterInserts(tables, a), b) == AfterInserts(tables, a + b)
    decreases |b|
  {
    if b != [] {
      var b' := b[..|b| - 1];
      assert (a + b)[..|a + b| - 1] == a + b';
      AfterInsertsAppend(tables, a, b');
    } else {
      assert a + b == a;
    }
  }

  lemma RowsForAppend(a: seq<Insert>, b: seq<Insert>, table: string)
    ensures RowsFor(a + b, table) == RowsFor(a, table) + RowsFor(b, table)
    decreases |b|
  {
    if b != [] {
      var b' := b[..|b| - 1];
      assert (a + b)[..|a + b| - 1] == a + b';
      RowsForAppend(a, b', table);
    } else {
      assert a + b == a;
    }
  }

  /** Inserts that went through come first, in order, and stop before the one that failed. */
  lemma AttemptPrefix(ins: seq<Insert>, idx: nat, fails: (nat, string, Row) -> Option<string>)
    ensures var a := Attempt(ins, idx, fails);
            |a.done| <= |ins| && a.done == ins[..|a.done|] &&
            (a.err.None? <==> |a.done| == |ins|) &&
            (a.err.Some? ==> a.err == fails(idx, ins[|a.done|].table, ins[|a.done|].row))
  {
  }

  /** `f"Row {idx + 1}: {e!s}"`. */
  function RowError(idx: nat, message: string): string {
    "Row " + NatToString(idx + 1) + ": " + message
  }

  /** The state of the loop: counters, the error list, whether it broke off, and the rows inserted so far. */
  datatype Progress = Progress(
    imported: nat, failed: nat, errors: seq<string>, stopped: bool, processed: nat, inserted: seq<Insert>)

  const Start := Progress(0, 0, [], false, 0, [])

  /** One pass of the loop body for the row at position `idx`. */
  function Step(p: Progress, idx: nat, cells: CsvRow, columns: set<string>, userId: string,
                fails: (nat, string, Row) -> Option<string>): Progress
  {
    if p.stopped then p
    else
      var a := Attempt(Inserts(columns, CleanRow(cells, userId)), idx, fails);
      var p' := p.(processed := p.processed + 1, inserted := p.inserted + a.done);
      if a.err.None? then p'.(imported := p.imported + 1)
      else
        var errors := p.errors + [RowError(idx, a.err.value)];
        if |errors| > 10 then p'.(failed := p.failed + 1, errors := errors + [TruncationMarker], stopped := true)
        else p'.(failed := p.failed + 1, errors := errors)
  }

  /** The loop over the first rows. */
  function Run(rows: seq<CsvRow>, columns: set<string>, userId: string,
               fails: (nat, string, Row) -> Option<string>): Progress
  {
    if rows == [] then Start
    else Step(Run(rows[..|rows| - 1], columns, userId, fails), |rows| - 1, rows[|rows| - 1], columns, userId, fails)
  }

  /** `CSVImportResult`, or the 400 answer for a file that is not a CSV. */
  datatype ImportResult = ImportResult(success: bool, importedCount: nat, failedCount: nat, errors: seq<string>)
  datatype ImportResponse = BadRequest(status: nat, detail: string) | Imported(result: ImportResult)

  function ResultOf(p: Progress): ImportResult {
    ImportResult(p.failed == 0, p.imported, p.failed, Take(p.errors, 10))
  }

  /** Inserts that all went through can be split off the front of an attempt. */
  lemma {:induction false} AttemptSkip(ins: seq<Insert>, k: nat, idx: nat, fails: (nat, string, Row) -> Option<string>)
    requires k <= |ins|
    requires forall j :: 0 <= j < k ==> fails(idx, ins[j].table, ins[j].row).None?
    ensures Attempt(ins, idx, fails) ==
              Attempted(ins[..k] + Attempt(ins[k..], idx, fails).done, Attempt(ins[k..], idx, fails).err)
  {
    if k > 0 {
      AttemptSkip(ins[1..], k - 1, idx, fails);
      assert ins[1..][k - 1..] == ins[k..];
      assert ins[..k] == [ins[0]] + ins[1..][..k - 1];
    }
  }

  /** Inserts each row in turn and stops at the first that raises. */
  method InsertEach(db: Database, ins: seq<Insert>, idx: nat, fails: (nat, string, Row) -> Option<string>)
    returns (err: Option<string>)
    modifies db
    ensures err == Attempt(ins, idx, fails).err
    ensures db.tables == AfterInserts(old(db.tables), Attempt(ins, idx, fails).done)
  {
    var k := 0;
    while k < |ins|
      invariant 0 <= k <= |ins|
      invariant forall j :: 0 <= j < k ==> fails(idx, ins[j].table, ins[j].row).None?
      invariant db.tables == AfterInserts(old(db.tables), ins[..k])
    {
      var e := fails(idx, ins[k].table, ins[k].row);
      if e.Some? {
        AttemptSkip(ins, k, idx, fails);
        assert ins[k..][0] == ins[k];
        assert Attempt(ins[k..], idx, fails) == Attempted([], e);
        assert ins[..k] + [] == ins[..k];
        assert Attempt(ins, idx, fails).done == ins[..k];
        return e;
      }
      assert ins[..k + 1][..k] == ins[..k];
      db.Insert(ins[k].table, ins[k].row);
      k := k + 1;
    }
    AttemptSkip(ins, k, idx, fails);
    assert ins[..k] == ins && ins[k..] == [];
    assert ins[..k] + [] == ins;
    assert Attempt(ins, idx, fails).done == ins;
    err := None;
  }

  /** A stopped loop changes nothing more. */
  lemma {:induction false} RunStopped(rows: seq<CsvRow>, n: nat, columns: set<string>, userId: string,
                                      fails: (nat, string, Row) -> Option<string>)
    requires n <= |rows|
    requires Run(rows[..n], columns, userId, fails).stopped
    ensures Run(rows, columns, userId, fails) == Run(rows[..n], columns, userId, fails)
    decreases |rows|
  {
    if n < |rows| {
      var front := rows[..|rows| - 1];
      assert front[..n] == rows[..n];
      RunStopped(front, n, columns, userId, fails);
    } else {
      assert rows[..n] == rows;
    }
  }

  lemma RunSnoc(rows: seq<CsvRow>, i: nat, columns: set<string>, userId: string,
                 fails: (nat, string, Row) -> Option<string>)
    requires i < |rows|
    ensures Run(rows[..i + 1], columns, userId, fails) ==
              Step(Run(rows[..i], columns, userId, fails), i, rows[i], columns, userId, fails)
  {
    assert rows[..i + 1][..i] == rows[..i];
  }

  /**
   * `import_csv`: a name without `.csv` is refused before anything is read; a
   * file `read_csv` cannot parse (`parseError` is the text of the exception it
   * raised) is refused with that text; otherwise the result and the inserted
   * rows are those of the loop.
   */
  method ImportCsv(db: Database, fileName: string, parseError: Option<string>, columns: set<string>, rows: seq<CsvRow>,
                   userId: string, fails: (nat, string, Row) -> Option<string>)
    returns (r: ImportResponse)
    modifies db
    ensures !EndsWith(fileName, ".csv") ==> r == BadRequest(400, "File must be a CSV") && db.tables == old(db.tables)
    ensures EndsWith(fileName, ".csv") && parseError.Some? ==>
              r == BadRequest(400, "Failed to parse CSV: " + parseError.value) && db.tables == old(db.tables)
    ensures EndsWith(fileName, ".csv") && parseError.None? ==>
              var p := Run(rows, columns, userId, fails);
              r == Imported(ResultOf(p)) && db.tables == AfterInserts(old(db.tables), p.inserted) &&
              db.Rows(RoutineTable) == old(db.Rows(RoutineTable)) + RowsFor(p.inserted, RoutineTable) &&
              db.Rows(ProductivityTable) == old(db.Rows(ProductivityTable)) + RowsFor(p.inserted, ProductivityTable)
  {
    if !EndsWith(fileName, ".csv") {
      return BadRequest(400, "File must be a CSV");
    }
    if parseError.Some? {
      return BadRequest(400, "Failed to parse CSV: " + parseError.value);
    }
    ghost var before := db.tables;
    var importedCount, failedCount, errors := ImportRows(db, columns, rows, userId, fails);
    AfterInsertsRows(before, Run(rows, columns, userId, fails).inserted, RoutineTable);
    AfterInsertsRows(before, Run(rows, columns, userId, fails).inserted, ProductivityTable);
    r := Imported(ImportResult(failedCount == 0, importedCount, failedCount, Take(errors, 10)));
  }

  /** The row loop of `import_csv`: the counters, the error list and the inserts of `Run`. */
  method ImportRows(db: Database, columns: set<string>, rows: seq<CsvRow>, userId: string,
                    fails: (nat, string, Row) -> Option<string>)
    returns (importedCount: nat, failedCount: nat, errors: seq<string>)
    modifies db
    ensures var p := Run(rows, columns, userId, fails);
            importedCount == p.imported && failedCount == p.failed && errors == p.errors &&
            db.tables == AfterInserts(old(db.tables), p.inserted)
  {
    importedCount, failedCount, errors := 0, 0, [];
    ghost var p := Start;
    var i := 0;
    while i < |rows|
      invariant 0 <= i <= |rows|
      invariant p == Run(rows[..i], columns, userId, fails) && !p.stopped
      invariant importedCount == p.imported && failedCount == p.failed && errors == p.errors
      invariant db.tables == AfterInserts(old(db.tables), p.inserted)
    {
      var err := ImportRow(db, columns, rows[i], i, userId, fails, old(db.tables), p);
      RunSnoc(rows, i, columns, userId, fails);
      p := Step(p, i, rows[i], columns, userId, fails);
      if err.None? {
        importedCount := importedCount + 1;
      } else {
        failedCount := failedCount + 1;
        errors := errors + [RowError(i, err.value)];
        if |errors| > 10 {
          errors := errors + [TruncationMarker];
          RunStopped(rows, i + 1, columns, userId, fails);
          return;
        }
      }
      i := i + 1;
    }
    assert rows[..i] == rows;
  }

  /** The inserts of one row: its first error, and the tables with the inserts that went through. */
  method ImportRow(db: Database, columns: set<string>, cells: CsvRow, idx: nat, userId: string,
                   fails: (nat, string, Row) -> Option<string>, ghost start: map<string, seq<Row>>,
                   ghost p: Progress)
    returns (err: Option<string>)
    requires !p.stopped && db.tables == AfterInserts(start, p.inserted)
    modifies db
    ensures err == Attempt(Inserts(columns, CleanRow(cells, userId)), idx, fails).err
    ensures db.tables == AfterInserts(start, Step(p, idx, cells, columns, userId, fails).inserted)
  {
    var rowDict := CleanRow(cells, userId);
    ghost var a := Attempt(Inserts(columns, rowDict), idx, fails);
    err := InsertEach(db, Inserts(columns, rowDict), idx, fails);
    AfterInsertsAppend(start, p.inserted, a.done);
    assert Step(p, idx, cells, columns, userId, fails).inserted == p.inserted + a.done;
  }

  // ------------------------------------------------------------------
  // What the loop guarantees
  // ------------------------------------------------------------------

  /** Every error entry the loop collects before the marker names a processed row. */
  ghost predicate RowErrors(p: Progress) {
    forall k :: 0 <= k < p.failed && k < |p.errors| ==>
      exists idx: nat, m :: idx < p.processed && p.errors[k] == RowError(idx, m)
  }

  /**
   * The counters of the loop after `n` rows: every processed row was
   * imported or failed, one error per failure plus the marker once stopped,
   * and the loop stops exactly at the eleventh failure, processing every row
   * otherwise.
   */
  ghost predicate Counts(p: Progress, n: nat) {
    p.imported + p.failed == p.processed <= n &&
    |p.errors| == p.failed + (if p.stopped then 1 else 0) &&
    (p.stopped <==> p.failed == 11) && p.failed <= 11 &&
    (!p.stopped ==> p.processed == n) &&
    (p.stopped ==> p.errors[11] == TruncationMarker) &&
    RowErrors(p)
  }

  /** One more row keeps the counters right. */
  lemma StepCounts(q: Progress, idx: nat, cells: CsvRow, columns: set<string>, userId: string,
                   fails: (nat, string, Row) -> Option<string>)
    requires Counts(q, idx)
    ensures Counts(Step(q, idx, cells, columns, userId, fails), idx + 1)
  {
    var p := Step(q, idx, cells, columns, userId, fails);
    if !q.stopped {
      var a := Attempt(Inserts(columns, CleanRow(cells, userId)), idx, fails);
      forall k | 0 <= k < p.failed && k < |p.errors|
        ensures exists i: nat, m :: i < p.processed && p.errors[k] == RowError(i, m)
      {
        if k < q.failed {
          var i: nat, m :| i < q.processed && q.errors[k] == RowError(i, m);
          assert p.errors[k] == RowError(i, m);
        } else {
          assert p.errors[k] == RowError(idx, a.err.value);
        }
      }
    }
  }

  /** The counters are right after every prefix of the rows. */
  lemma {:induction false} RunCounts(rows: seq<CsvRow>, columns: set<string>, userId: string,
                                     fails: (nat, string, Row) -> Option<string>)
    ensures Counts(Run(rows, columns, userId, fails), |rows|)
  {
    if rows != [] {
      var front := rows[..|rows| - 1];
      RunCounts(front, columns, userId, fails);
      StepCounts(Run(front, columns, userId, fails), |rows| - 1, rows[|rows| - 1], columns, userId, fails);
    }
  }

  /** The row `Row ...` messages differ from the marker: they start with `R`, the marker with `.`. */
  lemma RowErrorIsNotMarker(idx: nat, m: string)
    ensures RowError(idx, m) != TruncationMarker
  {
    assert RowError(idx, m)[0] == 'R';
    assert TruncationMarker[0] == '.';
  }

  /**
   * The response: at most ten errors, each naming a row and never the marker;
   * imported plus failed rows are the rows processed; success iff nothing
   * failed; and unless there were eleven failures every row was processed.
   */
  lemma ImportResultSpec(rows: seq<CsvRow>, columns: set<string>, userId: string,
                         fails: (nat, string, Row) -> Option<string>)
    ensures var p := Run(rows, columns, userId, fails);
            var res := ResultOf(p);
            |res.errors| <= 10 && |res.errors| == (if p.failed < 10 then p.failed else 10) &&
            (forall k :: 0 <= k < |res.errors| ==>
               res.errors[k] != TruncationMarker &&
               exists idx: nat, m :: idx < p.processed && res.errors[k] == RowError(idx, m)) &&
            res.importedCount + res.failedCount == p.processed &&
            (res.success <==> res.failedCount == 0) &&
            (res.failedCount < 11 ==> p.processed == |rows|)
  {
    RunCounts(rows, columns, userId, fails);
    var p := Run(rows, columns, userId, fails);
    var res := ResultOf(p);
    assert res.errors == Take(p.errors, 10);
    assert |res.errors| == (if |p.errors| < 10 then |p.errors| else 10);
    assert |res.errors| == (if p.failed < 10 then p.failed else 10);
    forall k | 0 <= k < |res.errors|
      ensures res.errors[k] != TruncationMarker
      ensures exists idx: nat, m :: idx < p.processed && res.errors[k] == RowError(idx, m)
    {
      assert res.errors[k] == p.errors[k];
      var idx: nat, m :| idx < p.processed && p.errors[k] == RowError(idx, m);
      RowErrorIsNotMarker(idx, m);
    }
  }

  /**
   * Every row sent carries the user's id, only cells the file had (no `NaN`),
   * and goes to one of the two tables; a part of a split row keeps only its
   * table's columns and has more than two keys.
   */
  lemma InsertsSpec(columns: set<string>, cells: CsvRow, userId: string)
    ensures forall x :: x in Inserts(columns, CleanRow(cells, userId)) ==>
              (x.table == RoutineTable || x.table == ProductivityTable) &&
              "user_id" in x.row && x.row["user_id"] == VStr(userId) &&
              (forall k :: k in x.row && k != "user_id" ==> k in cells && cells[k] == Value(x.row[k]))
    ensures !(RoutineColumns <= columns) && !(ProductivityColumns <= columns) ==>
              forall x :: x in Inserts(columns, CleanRow(cells, userId)) ==>
                |x.row| > 2 && x.row.Keys <= (if x.table == RoutineTable then RoutineFields else ProductivityFields)
  {
  }

  /** A file with the routine columns sends each whole row to the routines, even if it also has productivity columns. */
  lemma RoutineFileRouting(columns: set<string>, cells: CsvRow, userId: string)
    requires RoutineColumns <= columns
    ensures Inserts(columns, CleanRow(cells, userId)) == [Insert(RoutineTable, CleanRow(cells, userId))]
  {
  }

  /** A split row whose parts are both too small is inserted nowhere and still counts as imported. */
  lemma EmptySplitCountsAsImported(p: Progress, idx: nat, cells: CsvRow, columns: set<string>, userId: string,
                                   fails: (nat, string, Row) -> Option<string>)
    requires !p.stopped
    requires Inserts(columns, CleanRow(cells, userId)) == []
    ensures var q := Step(p, idx, cells, columns, userId, fails);
            q.imported == p.imported + 1 && q.failed == p.failed && q.inserted == p.inserted
  {
  }
}
