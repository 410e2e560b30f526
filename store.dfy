/**
 * The part of the Supabase (PostgREST) client the backend services use,
 * over tables held in memory: a table is a sequence of rows in insertion
 * order, a row a map from column name to value. A query collects `eq` /
 * `gte` / `lte` filters, an optional `order` and an optional `range`; the
 * `update` and `delete` builders rewrite the rows their filters select and
 * return them.
 */
module Store {
  import opened Common

  /**
   * A column value: text, a number, a flag, a Python `date` or `time` not yet
   * serialised (given by what its `isoformat()` returns), or SQL null.
   */
  datatype Value =
    | VStr(s: string) | VInt(i: int) | VReal(r: real) | VBool(b: bool)
    | VDate(iso: string) | VTime(iso: string) | VNull

  type Row = map<string, Value>

  /** The text in a column, `""` when the column is absent or not text (what the sort compares). */
  function ColText(r: Row, col: string): string {
    if col in r && r[col].VStr? then r[col].s else ""
  }

  datatype Filter =
    | Eq(col: string, v: Value)
    | Neq(col: string, v: Value)
    | Gte(col: string, bound: string)
    | Lte(col: string, bound: string)

  /** A text column compared with a bound uses string order, which is date order for ISO dates. */
  predicate Passes(r: Row, f: Filter) {
    match f
    case Eq(col, v) => col in r && r[col] == v
    case Neq(col, v) => col in r && r[col] != VNull && r[col] != v
    case Gte(col, bound) => col in r && r[col].VStr? && LessEq(bound, r[col].s)
    case Lte(col, bound) => col in r && r[col].VStr? && LessEq(r[col].s, bound)
  }

  predicate PassesAll(r: Row, fs: seq<Filter>) {
    forall k :: 0 <= k < |fs| ==> Passes(r, fs[k])
  }

  /** The rows every filter selects, in table order. */
  function Select(rows: seq<Row>, fs: seq<Filter>): (r: seq<Row>)
    ensures |r| <= |rows|
  {
    if rows == [] then []
    else (if PassesAll(rows[0], fs) then [rows[0]] else []) + Select(rows[1..], fs)
  }

  /** A selection holds exactly the rows that pass every filter. */
  lemma {:induction false} SelectMembers(rows: seq<Row>, fs: seq<Filter>)
    ensures forall x :: x in Select(rows, fs) <==> x in rows && PassesAll(x, fs)
    ensures forall k :: 0 <= k < |Select(rows, fs)| ==> PassesAll(Select(rows, fs)[k], fs)
  {
    if rows != [] {
      SelectMembers(rows[1..], fs);
      assert rows == [rows[0]] + rows[1..];
    }
  }

  lemma {:induction false} SelectAppend(a: seq<Row>, b: seq<Row>, fs: seq<Filter>)
    ensures Select(a + b, fs) == Select(a, fs) + Select(b, fs)
  {
    if a == [] {
      assert a + b == b;
    } else {
      var c := a + b;
      var tail := a[1..];
      var head := if PassesAll(a[0], fs) then [a[0]] else [];
      SelectAppend(tail, b, fs);
      assert c[0] == a[0] && c[1..] == tail + b;
      assert Select(c, fs) == head + Select(tail + b, fs);
      assert head + (Select(tail, fs) + Select(b, fs)) == (head + Select(tail, fs)) + Select(b, fs);
    }
  }

  /** A selection nothing passes is empty. */
  lemma {:induction false} SelectNone(rows: seq<Row>, fs: seq<Filter>)
    requires forall k :: 0 <= k < |rows| ==> !PassesAll(rows[k], fs)
    ensures Select(rows, fs) == []
  {
    if rows != [] {
      assert !PassesAll(rows[0], fs);
      SelectNone(rows[1..], fs);
    }
  }

  /** `eq("id", id).eq("user_id", user)`: one record, and only if it belongs to that user. */
  function ById(userId: string, id: string): seq<Filter> {
    [Eq("id", VStr(id)), Eq("user_id", VStr(userId))]
  }

  /** What `.single()` yields: the one selected row, or `None`. */
  function Single(found: seq<Row>): (r: Option<Row>)
    ensures r.Some? <==> |found| == 1
    ensures r.Some? ==> r.value == found[0]
  {
    if |found| == 1 then Some(found[0]) else None
  }

  /** `response.data[0] if response.data else None`. */
  function FirstOrNone(rows: seq<Row>): (r: Option<Row>)
    ensures r.None? <==> rows == []
    ensures r.Some? ==> r.value == rows[0]
  {
    if rows == [] then None else Some(rows[0])
  }

  /** `order(col, desc=...)`. */
  datatype Order = Order(col: string, descending: bool)

  /** `select(...)` with its filters, ordering and the inclusive `range(from, to)`. */
  datatype Query = Query(filters: seq<Filter>, order: Option<Order>, range: Option<(int, int)>)

  const NewQuery := Query([], None, None)

  function Where(q: Query, f: Filter): Query {
    q.(filters := q.filters + [f])
  }

  function OrderBy(q: Query, col: string, descending: bool): Query {
    q.(order := Some(Order(col, descending)))
  }

  function Range(q: Query, from: int, to: int): Query {
    q.(range := Some((from, to)))
  }

  /** The rows of positions `from` to `to` inclusive that exist. */
  function Window(rows: seq<Row>, from: int, to: int): (r: seq<Row>)
    ensures |r| <= |rows|
    ensures from <= to + 1 ==> |r| <= to + 1 - from
    ensures 0 <= from && to < |rows| && from <= to + 1 ==> |r| == to + 1 - from
    ensures forall k :: 0 <= k < |r| ==> 0 <= from + k < |rows| && r[k] == rows[from + k]
  {
    var lo := if from < 0 then 0 else from;
    var hi := if to + 1 > |rows| then |rows| else to + 1;
    if from < 0 || lo >= hi then [] else rows[lo..hi]
  }

  /** What `execute()` returns for a select with `count="exact"`. */
  datatype Response = Response(data: seq<Row>, count: Option<int>)

  function Sorted(rows: seq<Row>, order: Option<Order>): seq<Row> {
    if order.None? then rows
    else SortBy(rows, (r: Row) => ColText(r, order.value.col), order.value.descending)
  }

  function Execute(rows: seq<Row>, q: Query): Response {
    var selected := Select(rows, q.filters);
    var ordered := Sorted(selected, q.order);
    var page := if q.range.Some? then Window(ordered, q.range.value.0, q.range.value.1) else ordered;
    Response(page, Some(|selected|))
  }

  /**
   * The rows a select returns pass every filter, follow the requested order,
   * fit in the range, and the count is the number of matching rows.
   */
  lemma ExecuteSpec(rows: seq<Row>, q: Query)
    ensures var resp := Execute(rows, q);
            resp.count == Some(|Select(rows, q.filters)|) &&
            (forall k :: 0 <= k < |resp.data| ==> resp.data[k] in rows && PassesAll(resp.data[k], q.filters)) &&
            (q.range.Some? && q.range.value.0 <= q.range.value.1 + 1 ==>
               |resp.data| <= q.range.value.1 + 1 - q.range.value.0) &&
            (q.order.Some? ==> SortedBy(resp.data, (r: Row) => ColText(r, q.order.value.col), q.order.value.descending))
  {
    var selected := Select(rows, q.filters);
    var ordered := Sorted(selected, q.order);
    if q.order.Some? {
      SortBySorted(selected, (r: Row) => ColText(r, q.order.value.col), q.order.value.descending);
    }
    SelectMembers(rows, q.filters);
    forall x | x in ordered ensures x in selected {
      if q.order.Some? {
        assert x in multiset(ordered);
      }
    }
  }

  // ------------------------------------------------------------------
  // update and delete
  // ------------------------------------------------------------------

  /** `update(patch)` with filters: every selected row takes the patch's columns. */
  function UpdateWhere(rows: seq<Row>, fs: seq<Filter>, patch: Row): (r: seq<Row>)
    ensures |r| == |rows|
    ensures forall k :: 0 <= k < |rows| ==> r[k] == if PassesAll(rows[k], fs) then rows[k] + patch else rows[k]
  {
    if rows == [] then []
    else [if PassesAll(rows[0], fs) then rows[0] + patch else rows[0]] + UpdateWhere(rows[1..], fs, patch)
  }

  /** The rows an update returns: the selected rows as they are after the patch. */
  function Updated(rows: seq<Row>, fs: seq<Filter>, patch: Row): (r: seq<Row>)
    ensures |r| == |Select(rows, fs)|
    ensures forall k :: 0 <= k < |r| ==> r[k] == Select(rows, fs)[k] + patch
  {
    if rows == [] then []
    else (if PassesAll(rows[0], fs) then [rows[0] + patch] else []) + Updated(rows[1..], fs, patch)
  }

  /** `delete()` with filters: the selected rows are removed and the others keep their order. */
  function DeleteWhere(rows: seq<Row>, fs: seq<Filter>): (r: seq<Row>)
    ensures forall x :: x in r <==> x in rows && !PassesAll(x, fs)
    ensures |r| + |Select(rows, fs)| == |rows|
  {
    if rows == [] then []
    else (if PassesAll(rows[0], fs) then [] else [rows[0]]) + DeleteWhere(rows[1..], fs)
  }

  /** Merging a patch into a row: the patch's columns take its values, every other column is kept. */
  lemma MergeSpec(r: Row, patch: Row)
    ensures (r + patch).Keys == r.Keys + patch.Keys
    ensures forall c :: c in patch ==> (r + patch)[c] == patch[c]
    ensures forall c :: c in r && c !in patch ==> (r + patch)[c] == r[c]
  {
  }

  /** An update changes only the selected rows, and in them only the patched columns. */
  lemma PartialUpdate(rows: seq<Row>, fs: seq<Filter>, patch: Row)
    ensures forall k, c :: 0 <= k < |rows| && c in rows[k] && c !in patch ==>
              c in UpdateWhere(rows, fs, patch)[k] && UpdateWhere(rows, fs, patch)[k][c] == rows[k][c]
    ensures forall k, c :: 0 <= k < |rows| && c in patch && PassesAll(rows[k], fs) ==>
              c in UpdateWhere(rows, fs, patch)[k] && UpdateWhere(rows, fs, patch)[k][c] == patch[c]
    ensures forall k :: 0 <= k < |rows| && !PassesAll(rows[k], fs) ==> UpdateWhere(rows, fs, patch)[k] == rows[k]
  {
  }

  /**
   * An update that rewrites a column the filters require to hold `v` to a
   * different value leaves no row that the same filters select.
   */
  lemma UpdateClearsSelection(rows: seq<Row>, fs: seq<Filter>, patch: Row, i: nat)
    requires i < |fs| && fs[i].Eq? && fs[i].col in patch && patch[fs[i].col] != fs[i].v
    ensures Select(UpdateWhere(rows, fs, patch), fs) == []
  {
    var after := UpdateWhere(rows, fs, patch);
    forall k | 0 <= k < |after| ensures !PassesAll(after[k], fs) {
      if PassesAll(rows[k], fs) {
        assert !Passes(after[k], fs[i]);
      }
    }
    SelectNone(after, fs);
  }

  /** The rows of a named table; a table never written to reads as empty. */
  function RowsIn(tables: map<string, seq<Row>>, name: string): seq<Row> {
    if name in tables then tables[name] else []
  }

  /** A database: named tables. */
  class Database {
    var tables: map<string, seq<Row>>

    constructor(tables: map<string, seq<Row>>)
      ensures this.tables == tables
    {
      this.tables := tables;
    }

    function Rows(name: string): seq<Row>
      reads this
    {
      RowsIn(tables, name)
    }

    /** `table(name).insert(row)`: the stored row goes at the end of the table. */
    method Insert(name: string, row: Row)
      modifies this
      ensures Rows(name) == old(Rows(name)) + [row]
      ensures forall other :: other != name ==> Rows(other) == old(Rows(other))
      ensures tables == old(tables)[name := old(Rows(name)) + [row]]
    {
      tables := tables[name := Rows(name) + [row]];
    }

    /** `table(name).update(patch)` with filters; returns the updated rows. */
    method Update(name: string, fs: seq<Filter>, patch: Row) returns (changed: seq<Row>)
      modifies this
      ensures Rows(name) == UpdateWhere(old(Rows(name)), fs, patch)
      ensures changed == Updated(old(Rows(name)), fs, patch)
      ensures forall other :: other != name ==> Rows(other) == old(Rows(other))
    {
      changed := Updated(Rows(name), fs, patch);
      tables := tables[name := UpdateWhere(Rows(name), fs, patch)];
    }

    /** `table(name).delete()` with filters; returns the removed rows. */
    method Delete(name: string, fs: seq<Filter>) returns (removed: seq<Row>)
      modifies this
      ensures Rows(name) == DeleteWhere(old(Rows(name)), fs)
      ensures removed == Select(old(Rows(name)), fs)
      ensures forall other :: other != name ==> Rows(other) == old(Rows(other))
    {
      removed := Select(Rows(name), fs);
      tables := tables[name := DeleteWhere(Rows(name), fs)];
    }
  }
}
