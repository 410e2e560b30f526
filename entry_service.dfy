/**
 * The two record services of the backend,
 * backend/app/services/routine_service.py and
 * backend/app/services/productivity_service.py. They are the same code over
 * different tables, so one class models both: `RoutineService` is
 * `EntryService(db, user, "morning_routines")` and `ProductivityService` is
 * `EntryService(db, user, "productivity_entries")`.
 *
 * A request body is the row `model_dump()` produces; the columns the
 * database fills in on insert (`id`, timestamps) are an input of `Create`.
 */
module EntryService {
  import opened Common
  import opened Store

  const RoutineTable := "morning_routines"
  const ProductivityTable := "productivity_entries"

  /** Python's `a // b`: the floor of the quotient, also for a negative divisor. */
  function FloorDiv(a: int, b: int): (q: int)
    requires b != 0
    ensures b > 0 ==> q * b <= a < q * b + b
    ensures b < 0 ==> q * b >= a > q * b + b
  {
    if b > 0 then a / b else (-a) / (-b)
  }

  /** `PaginatedResponse`. */
  datatype Page = Page(data: seq<Row>, total: int, page: int, pageSize: int, totalPages: int)

  /** `list` either answers or raises `ZeroDivisionError` for `page_size == 0`. */
  datatype ListResult = Listed(p: Page) | ZeroDivision

  /** The first position of a page. */
  function Offset(page: int, pageSize: int): int {
    (page - 1) * pageSize
  }

  /** The response of a list query turned into a page: `count or 0`, and the ceiling of `total / page_size` pages. */
  function ShapePage(resp: Response, page: int, pageSize: int): ListResult {
    var total := if resp.count.Some? then resp.count.value else 0;
    if pageSize == 0 then ZeroDivision
    else Listed(Page(resp.data, total, page, pageSize, FloorDiv(total + pageSize - 1, pageSize)))
  }

  /** The query `list` sends. */
  function ListQuery(userId: string, page: int, pageSize: int, startDate: Option<string>, endDate: Option<string>): Query {
    var q1 := OrderBy(Where(NewQuery, Eq("user_id", VStr(userId))), "date", true);
    var q2 := if startDate.Some? then Where(q1, Gte("date", startDate.value)) else q1;
    var q3 := if endDate.Some? then Where(q2, Lte("date", endDate.value)) else q2;
    var offset := Offset(page, pageSize);
    Range(q3, offset, offset + pageSize - 1)
  }

  /** A page holds `page_size` positions: the range ends `page_size - 1` after the offset. */
  lemma ListRange(userId: string, page: int, pageSize: int, startDate: Option<string>, endDate: Option<string>)
    ensures var q := ListQuery(userId, page, pageSize, startDate, endDate);
            q.range == Some((Offset(page, pageSize), Offset(page, pageSize) + pageSize - 1)) &&
            q.range.value.1 - q.range.value.0 + 1 == pageSize &&
            q.order == Some(Order("date", true))
  {
  }

  /** The filters of the list query: this user, then each date bound that was given. */
  lemma ListFilters(userId: string, page: int, pageSize: int, startDate: Option<string>, endDate: Option<string>)
    ensures ListQuery(userId, page, pageSize, startDate, endDate).filters ==
              [Eq("user_id", VStr(userId))] +
              (if startDate.Some? then [Gte("date", startDate.value)] else []) +
              (if endDate.Some? then [Lte("date", endDate.value)] else [])
  {
  }

  /** `total_pages` is the ceiling of `total / page_size` for a positive page size. */
  lemma TotalPagesCeiling(total: int, pageSize: int)
    requires pageSize > 0
    ensures var pages := FloorDiv(total + pageSize - 1, pageSize);
            (pages - 1) * pageSize < total <= pages * pageSize
  {
  }

  /** The page echoes `page` and `page_size`, and a missing count is a total of 0. */
  lemma ShapePageSpec(resp: Response, page: int, pageSize: int)
    requires pageSize != 0
    ensures var r := ShapePage(resp, page, pageSize);
            r.Listed? && r.p.data == resp.data && r.p.page == page && r.p.pageSize == pageSize &&
            r.p.total == (if resp.count.Some? then resp.count.value else 0)
  {
  }

  /** The row `create` stores: the body with `user_id` set and the date as its ISO string, completed by the database. */
  function CreatePayload(userId: string, body: Row, generated: Row): Row
    requires "date" in body && body["date"].VDate?
  {
    generated + body["user_id" := VStr(userId)]["date" := VStr(body["date"].iso)]
  }

  lemma CreatePayloadSpec(userId: string, body: Row, generated: Row)
    requires "date" in body && body["date"].VDate?
    ensures var p := CreatePayload(userId, body, generated);
            p["user_id"] == VStr(userId) && p["date"] == VStr(body["date"].iso) &&
            (forall c :: c in body && c != "user_id" && c != "date" ==> p[c] == body[c]) &&
            p.Keys == generated.Keys + body.Keys + {"user_id"}
  {
  }

  class EntryService {
    const db: Database
    const userId: string
    const table: string

    constructor(db: Database, userId: string, table: string)
      ensures this.db == db && this.userId == userId && this.table == table
    {
      this.db := db;
      this.userId := userId;
      this.table := table;
    }

    /** `list`: builds the query step by step and shapes the response. */
    method List(page: int, pageSize: int, startDate: Option<string>, endDate: Option<string>)
      returns (r: ListResult)
      ensures r == ShapePage(Execute(db.Rows(table), ListQuery(userId, page, pageSize, startDate, endDate)),
                             page, pageSize)
    {
      var query := OrderBy(Where(NewQuery, Eq("user_id", VStr(userId))), "date", true);
      if startDate.Some? {
        query := Where(query, Gte("date", startDate.value));
      }
      if endDate.Some? {
        query := Where(query, Lte("date", endDate.value));
      }
      var offset := (page - 1) * pageSize;
      query := Range(query, offset, offset + pageSize - 1);
      var response := Execute(db.Rows(table), query);
      var total := if response.count.Some? then response.count.value else 0;
      if pageSize == 0 {
        return ZeroDivision;
      }
      r := Listed(Page(response.data, total, page, pageSize, FloorDiv(total + pageSize - 1, pageSize)));
    }

    /** `get`: this user's row with that id, or `None`. */
    method Get(id: string) returns (r: Option<Row>)
      ensures r == Single(Select(db.Rows(table), ById(userId, id)))
    {
      var found := Select(db.Rows(table), ById(userId, id));
      r := if |found| == 1 then Some(found[0]) else None;
    }

    /** `create`: inserts the completed payload and returns the stored row. */
    method Create(body: Row, generated: Row) returns (row: Row)
      requires "date" in body && body["date"].VDate?
      modifies db
      ensures row == CreatePayload(userId, body, generated)
      ensures db.Rows(table) == old(db.Rows(table)) + [row]
      ensures forall other :: other != table ==> db.Rows(other) == old(db.Rows(other))
    {
      var payload := body["user_id" := VStr(userId)];
      payload := payload["date" := VStr(body["date"].iso)];
      row := generated + payload;
      db.Insert(table, row);
    }

    /** `update`: applies the fields that were set to this user's row with that id; returns the first updated row. */
    method Update(id: string, patch: Row) returns (r: Option<Row>)
      modifies db
      ensures db.Rows(table) == UpdateWhere(old(db.Rows(table)), ById(userId, id), patch)
      ensures var changed := Updated(old(db.Rows(table)), ById(userId, id), patch);
              r == FirstOrNone(changed)
      ensures forall other :: other != table ==> db.Rows(other) == old(db.Rows(other))
    {
      var changed := db.Update(table, ById(userId, id), patch);
      r := if changed == [] then None else Some(changed[0]);
    }

    /** `delete`: removes this user's row with that id; true iff a row was removed. */
    method Delete(id: string) returns (deleted: bool)
      modifies db
      ensures db.Rows(table) == DeleteWhere(old(db.Rows(table)), ById(userId, id))
      ensures deleted <==> Select(old(db.Rows(table)), ById(userId, id)) != []
      ensures forall other :: other != table ==> db.Rows(other) == old(db.Rows(other))
    {
      var removed := db.Delete(table, ById(userId, id));
      deleted := |removed| > 0;
    }
  }

  /** What `list` pages contain: this user's rows in the date bounds, newest first, at most `page_size`. */
  lemma ListedRows(rows: seq<Row>, userId: string, page: int, pageSize: int, startDate: Option<string>,
                   endDate: Option<string>)
    requires pageSize > 0
    ensures var r := ShapePage(Execute(rows, ListQuery(userId, page, pageSize, startDate, endDate)), page, pageSize);
            r.Listed? && |r.p.data| <= pageSize && r.p.page == page && r.p.pageSize == pageSize &&
            (forall k :: 0 <= k < |r.p.data| ==>
               r.p.data[k] in rows && "user_id" in r.p.data[k] && r.p.data[k]["user_id"] == VStr(userId) &&
               (startDate.Some? ==> LessEq(startDate.value, ColText(r.p.data[k], "date"))) &&
               (endDate.Some? ==> LessEq(ColText(r.p.data[k], "date"), endDate.value))) &&
            SortedBy(r.p.data, (x: Row) => ColText(x, "date"), true) &&
            r.p.total == |Select(rows, ListQuery(userId, page, pageSize, startDate, endDate).filters)|
  {
    var q := ListQuery(userId, page, pageSize, startDate, endDate);
    ExecuteSpec(rows, q);
    ListFilters(userId, page, pageSize, startDate, endDate);
    var data := Execute(rows, q).data;
    forall k | 0 <= k < |data|
      ensures "user_id" in data[k] && data[k]["user_id"] == VStr(userId)
      ensures startDate.Some? ==> LessEq(startDate.value, ColText(data[k], "date"))
      ensures endDate.Some? ==> LessEq(ColText(data[k], "date"), endDate.value)
    {
      assert PassesAll(data[k], q.filters);
      assert Passes(data[k], q.filters[0]);
      if startDate.Some? {
        assert Passes(data[k], q.filters[1]);
      }
      if endDate.Some? {
        assert Passes(data[k], q.filters[|q.filters| - 1]);
      }
    }
  }

  /** `get` / `update` of a row that is not this user's find nothing, and `delete` reports false. */
  lemma MissingRow(rows: seq<Row>, userId: string, id: string, patch: Row)
    requires forall k :: 0 <= k < |rows| ==> !PassesAll(rows[k], ById(userId, id))
    ensures Select(rows, ById(userId, id)) == []
    ensures Updated(rows, ById(userId, id), patch) == []
    ensures UpdateWhere(rows, ById(userId, id), patch) == rows
    ensures DeleteWhere(rows, ById(userId, id)) == rows
  {
    var fs := ById(userId, id);
    assert UpdateWhere(rows, fs, patch) == rows;
    DeleteKeepsUnselected(rows, fs);
  }

  lemma {:induction false} DeleteKeepsUnselected(rows: seq<Row>, fs: seq<Filter>)
    requires forall k :: 0 <= k < |rows| ==> !PassesAll(rows[k], fs)
    ensures DeleteWhere(rows, fs) == rows
  {
    if rows != [] {
      DeleteKeepsUnselected(rows[1..], fs);
      assert rows == [rows[0]] + rows[1..];
    }
  }

  /** Rows of other users are never selected by id, so updates and deletes leave them as they were. */
  lemma OtherUsersUntouched(rows: seq<Row>, userId: string, id: string, patch: Row)
    ensures forall k :: 0 <= k < |rows| && "user_id" in rows[k] && rows[k]["user_id"] != VStr(userId) ==>
              UpdateWhere(rows, ById(userId, id), patch)[k] == rows[k]
    ensures forall x :: x in rows && "user_id" in x && x["user_id"] != VStr(userId) ==>
              x in DeleteWhere(rows, ById(userId, id))
  {
    var fs := ById(userId, id);
    forall x | "user_id" in x && x["user_id"] != VStr(userId) ensures !PassesAll(x, fs) {
      assert !Passes(x, fs[1]);
    }
  }
}
