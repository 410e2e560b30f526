/**
 * The decision logic of the frontend API client (frontend/src/lib/api.ts):
 * extracting a message from a caught value, the request headers, what a
 * response turns into, the query string builder, and the URLs and query
 * keys of the list, goal and analytics calls. The network call itself and
 * JSON parsing are not modelled: a response is given by its status and the
 * `detail` found in its body.
 */
module ApiClient {
  import opened Common

  // ------------------------------------------------------------------
  // Caught values and getApiErrorMessage
  // ------------------------------------------------------------------

  /**
   * A value caught by `catch`: anything that is not an object (null, a string,
   * a number, ...), or an object described by its `name` and `detail`
   * properties (`None` when absent), whether it is an `Error`, and its message.
   */
  datatype Caught =
    | NotObject
    | Object(name: Option<string>, detail: Option<string>, isError: bool, message: string)

  /** `new ApiError(status, detail)`: an `Error` named `ApiError` whose message is the detail. */
  function ApiErrorValue(status: int, detail: string): Caught {
    Object(Some("ApiError"), Some(detail), true, detail)
  }

  /** `new Error(message)`. */
  function ErrorValue(message: string): Caught {
    Object(Some("Error"), None, true, message)
  }

  /** `getApiErrorMessage(err, fallback)`. */
  function GetApiErrorMessage(err: Caught, fallback: string): string {
    if err.Object? && err.name == Some("ApiError") && err.detail.Some? then err.detail.value
    else if err.Object? && err.isError then err.message
    else fallback
  }

  /** An `ApiError` reports its detail, any other `Error` its message, anything else the fallback. */
  lemma GetApiErrorMessageCases(fallback: string)
    ensures forall status, detail :: GetApiErrorMessage(ApiErrorValue(status, detail), fallback) == detail
    ensures forall message :: GetApiErrorMessage(ErrorValue(message), fallback) == message
    ensures GetApiErrorMessage(NotObject, fallback) == fallback
    ensures forall n, d, m :: GetApiErrorMessage(Object(n, d, false, m), fallback) ==
                              if n == Some("ApiError") && d.Some? then d.value else fallback
  {
  }

  /** The fallback is used exactly when the value is neither an `ApiError` with a detail nor an `Error`. */
  lemma GetApiErrorMessageFallback(err: Caught, fallback: string)
    requires GetApiErrorMessage(err, fallback) != fallback
    ensures err.Object? && ((err.name == Some("ApiError") && err.detail.Some?) || err.isError)
  {
  }

  // ------------------------------------------------------------------
  // Request headers
  // ------------------------------------------------------------------

  /**
   * `apiClient`'s header dictionary: `Content-Type: application/json`, then
   * the custom headers spread over it, then `Authorization` when the token is
   * truthy.
   */
  method RequestHeaders(custom: map<string, string>, token: Option<string>)
    returns (headers: map<string, string>)
    ensures forall k :: k in headers <==> k in custom || k == "Content-Type" || (k == "Authorization" && Truthy(token))
    ensures headers["Content-Type"] == if "Content-Type" in custom then custom["Content-Type"] else "application/json"
    ensures Truthy(token) ==> headers["Authorization"] == "Bearer " + token.value
    ensures forall k :: k in custom && k != "Content-Type" && !(k == "Authorization" && Truthy(token)) ==>
              headers[k] == custom[k]
  {
    headers := map["Content-Type" := "application/json"] + custom;
    if Truthy(token) {
      headers := headers["Authorization" := "Bearer " + token.value];
    }
  }

  // ------------------------------------------------------------------
  // Responses
  // ------------------------------------------------------------------

  /** The settled state of an awaited promise. */
  datatype Settled<T> = Resolved(value: T) | Rejected(reason: Caught)

  /** `fetch`'s `response.ok`: a 2xx status. */
  predicate IsOk(status: int) {
    200 <= status <= 299
  }

  /**
   * What `apiClient` does with a response: a non-2xx status throws an
   * `ApiError` carrying the body's truthy `detail` or a message naming the
   * status; 204 resolves to `undefined` (`None`); anything else resolves to
   * the parsed body.
   */
  function ClassifyResponse<T>(status: int, detail: Option<string>, body: T): Settled<Option<T>> {
    if !IsOk(status) then
      Rejected(ApiErrorValue(status, if Truthy(detail) then detail.value
                                     else "API request failed (" + IntToString(status) + ")"))
    else if status == 204 then Resolved(None)
    else Resolved(Some(body))
  }

  /** A failed request is reported to the hooks by its detail, or by the message naming its status. */
  lemma FailedResponseMessage<T>(status: int, detail: Option<string>, body: T, fallback: string)
    requires !IsOk(status)
    ensures ClassifyResponse(status, detail, body).Rejected?
    ensures GetApiErrorMessage(ClassifyResponse(status, detail, body).reason, fallback) ==
            if Truthy(detail) then detail.value else "API request failed (" + IntToString(status) + ")"
  {
  }

  /** A successful request resolves, without a body only for 204. */
  lemma OkResponse<T>(status: int, detail: Option<string>, body: T)
    requires IsOk(status)
    ensures ClassifyResponse(status, detail, body).Resolved?
    ensures ClassifyResponse(status, detail, body).value.None? <==> status == 204
  {
  }

  /** `api.import.csv`: the same rule without the 204 case and with `Import failed` as the fallback detail. */
  function ClassifyImportResponse<T>(status: int, detail: Option<string>, body: T): Settled<T> {
    if !IsOk(status) then Rejected(ApiErrorValue(status, if Truthy(detail) then detail.value else "Import failed"))
    else Resolved(body)
  }

  lemma FailedImportMessage<T>(status: int, detail: Option<string>, body: T, fallback: string)
    requires !IsOk(status)
    ensures GetApiErrorMessage(ClassifyImportResponse(status, detail, body).reason, fallback) ==
            if Truthy(detail) then detail.value else "Import failed"
  {
  }

  /** The import call sends only the bearer token as a header. */
  function ImportHeaders(token: string): map<string, string> {
    map["Authorization" := "Bearer " + token]
  }

  // ------------------------------------------------------------------
  // Query strings
  // ------------------------------------------------------------------

  /** A query parameter value: `undefined`, a string or a number. */
  datatype Param = Undefined | Text(s: string) | Number(n: int)

  /** `String(value)`. */
  function ParamText(p: Param): string
    requires !p.Undefined?
  {
    if p.Text? then p.s else IntToString(p.n)
  }

  /** The pairs appended to the `URLSearchParams`: the defined entries, in order, as strings. */
  function Defined(params: seq<(string, Param)>): (pairs: seq<(string, string)>)
    ensures |pairs| <= |params|
  {
    if params == [] then []
    else
      var rest := Defined(params[..|params| - 1]);
      var (k, v) := params[|params| - 1];
      if v.Undefined? then rest else rest + [(k, ParamText(v))]
  }

  /**
   * `URLSearchParams.toString()`: `key=value` pairs joined by `&`, each part
   * passed through the form-encoding `encode`.
   */
  function Serialize(pairs: seq<(string, string)>, encode: string -> string): string {
    if pairs == [] then ""
    else if |pairs| == 1 then encode(pairs[0].0) + "=" + encode(pairs[0].1)
    else Serialize(pairs[..|pairs| - 1], encode) + "&" +
         encode(pairs[|pairs| - 1].0) + "=" + encode(pairs[|pairs| - 1].1)
  }

  /** What `buildQueryParams` returns: `''` for an empty query string, otherwise `?` and the string. */
  function QueryString(params: seq<(string, Param)>, encode: string -> string): string {
    var q := Serialize(Defined(params), encode);
    if q == "" then "" else "?" + q
  }

  /** `buildQueryParams`: append each defined entry to the search parameters, then serialise. */
  method BuildQueryParams(params: seq<(string, Param)>, encode: string -> string) returns (query: string)
    ensures query == QueryString(params, encode)
  {
    var searchParams: seq<(string, string)> := [];
    var i := 0;
    while i < |params|
      invariant 0 <= i <= |params|
      invariant searchParams == Defined(params[..i])
    {
      var (key, value) := params[i];
      assert params[..i + 1][..i] == params[..i];
      if !value.Undefined? {
        searchParams := searchParams + [(key, ParamText(value))];
      }
      i := i + 1;
    }
    assert params[..|params|] == params;
    var queryString := Serialize(searchParams, encode);
    query := if queryString != "" then "?" + queryString else "";
  }

  lemma {:induction false} SerializeEmptyIff(pairs: seq<(string, string)>, encode: string -> string)
    ensures Serialize(pairs, encode) == "" <==> pairs == []
  {
    if |pairs| == 1 {
      assert (encode(pairs[0].0) + "=" + encode(pairs[0].1))[|encode(pairs[0].0)|] == '=';
    } else if |pairs| > 1 {
      var last := encode(pairs[|pairs| - 1].0) + "=" + encode(pairs[|pairs| - 1].1);
      var s := Serialize(pairs[..|pairs| - 1], encode) + "&" + last;
      assert s[|Serialize(pairs[..|pairs| - 1], encode)|] == '&';
    }
  }

  lemma {:induction false} DefinedEmptyIff(params: seq<(string, Param)>)
    ensures Defined(params) == [] <==> forall i :: 0 <= i < |params| ==> params[i].1.Undefined?
  {
    if params != [] {
      var p := params[..|params| - 1];
      DefinedEmptyIff(p);
      assert forall i :: 0 <= i < |p| ==> p[i] == params[i];
    }
  }

  /** The query is `''` exactly when every value is undefined, and otherwise starts with `?`. */
  lemma QueryStringEmptyIff(params: seq<(string, Param)>, encode: string -> string)
    ensures QueryString(params, encode) == "" <==> forall i :: 0 <= i < |params| ==> params[i].1.Undefined?
    ensures QueryString(params, encode) != "" ==> QueryString(params, encode)[0] == '?'
  {
    SerializeEmptyIff(Defined(params), encode);
    DefinedEmptyIff(params);
  }

  /** Entries keep their order: the pairs of a concatenation are the concatenation of the pairs. */
  lemma {:induction false} DefinedAppend(a: seq<(string, Param)>, b: seq<(string, Param)>)
    ensures Defined(a + b) == Defined(a) + Defined(b)
    decreases |b|
  {
    if b != [] {
      var b' := b[..|b| - 1];
      DefinedAppend(a, b');
      assert (a + b)[..|a + b| - 1] == a + b';
      assert (a + b)[|a + b| - 1] == b[|b| - 1];
      assert Defined(a + b) == Defined(a + b') + Defined([b[|b| - 1]]) by {
        assert [b[|b| - 1]][..0] == [];
      }
      assert Defined(b) == Defined(b') + Defined([b[|b| - 1]]) by {
        assert [b[|b| - 1]][..0] == [];
      }
    } else {
      assert a + b == a;
    }
  }

  /** Undefined entries contribute nothing and defined ones contribute their key and string value. */
  lemma DefinedSingle(k: string, v: Param)
    ensures Defined([(k, v)]) == if v.Undefined? then [] else [(k, ParamText(v))]
  {
    assert [(k, v)][..0] == [];
  }

  // ------------------------------------------------------------------
  // URLs and parameter names of the calls the hooks make
  // ------------------------------------------------------------------

  /** `api.users.listGoals`. */
  function GoalsUrl(activeOnly: bool): string {
    "/api/users/me/goals" + (if activeOnly then "?active_only=true" else "")
  }

  lemma GoalsUrlActiveOnly(activeOnly: bool)
    ensures activeOnly <==> GoalsUrl(activeOnly) != "/api/users/me/goals"
    ensures GoalsUrl(activeOnly)[..19] == "/api/users/me/goals"
  {
    if activeOnly {
      assert |GoalsUrl(activeOnly)| > 19;
    }
  }

  /** The options of `routines.list` / `productivity.list` in the frontend's own names. */
  datatype ListOptions = ListOptions(page: Param, pageSize: Param, startDate: Param, endDate: Param)

  /** The query entries `routines.list` and `productivity.list` build, in the backend's names. */
  function ListParams(o: ListOptions): seq<(string, Param)> {
    [("page", o.page), ("page_size", o.pageSize), ("start_date", o.startDate), ("end_date", o.endDate)]
  }

  /** The query entries of the analytics summary and chart calls. */
  function RangeParams(startDate: Param, endDate: Param): seq<(string, Param)> {
    [("start_date", startDate), ("end_date", endDate)]
  }

  function RoutinesListUrl(o: ListOptions, encode: string -> string): string {
    "/api/routines" + QueryString(ListParams(o), encode)
  }

  function ProductivityListUrl(o: ListOptions, encode: string -> string): string {
    "/api/productivity" + QueryString(ListParams(o), encode)
  }

  function SummaryUrl(startDate: Param, endDate: Param, encode: string -> string): string {
    "/api/analytics/summary" + QueryString(RangeParams(startDate, endDate), encode)
  }

  function ChartsUrl(startDate: Param, endDate: Param, encode: string -> string): string {
    "/api/analytics/charts" + QueryString(RangeParams(startDate, endDate), encode)
  }

  /** Prefixing a path to a query string: the bare path iff the query is empty, otherwise `?` follows the path. */
  lemma PathQuery(path: string, query: string)
    requires query != "" ==> query[0] == '?'
    ensures path + query == path <==> query == ""
    ensures query != "" ==> (path + query)[..|path|] == path && (path + query)[|path|] == '?'
  {
    if query != "" {
      assert |path + query| > |path|;
      assert (path + query)[|path|] == query[0];
    }
  }

  /** A list URL is the bare path iff no option is set; otherwise the query follows the path after `?`. */
  lemma ListUrlsBare(o: ListOptions, encode: string -> string)
    ensures var none := o.page.Undefined? && o.pageSize.Undefined? && o.startDate.Undefined? && o.endDate.Undefined?;
            (RoutinesListUrl(o, encode) == "/api/routines" <==> none) &&
            (ProductivityListUrl(o, encode) == "/api/productivity" <==> none) &&
            (!none ==> RoutinesListUrl(o, encode)[13] == '?' && ProductivityListUrl(o, encode)[17] == '?')
  {
    var ps := ListParams(o);
    QueryStringEmptyIff(ps, encode);
    assert (forall i :: 0 <= i < |ps| ==> ps[i].1.Undefined?) <==>
           o.page.Undefined? && o.pageSize.Undefined? && o.startDate.Undefined? && o.endDate.Undefined? by {
      assert ps[0].1 == o.page && ps[1].1 == o.pageSize && ps[2].1 == o.startDate && ps[3].1 == o.endDate;
    }
    PathQuery("/api/routines", QueryString(ps, encode));
    PathQuery("/api/productivity", QueryString(ps, encode));
  }

  /** The summary and chart URLs are the bare path iff neither date is set; otherwise `?` follows the path. */
  lemma RangeUrlsBare(startDate: Param, endDate: Param, encode: string -> string)
    ensures var none := startDate.Undefined? && endDate.Undefined?;
            (SummaryUrl(startDate, endDate, encode) == "/api/analytics/summary" <==> none) &&
            (ChartsUrl(startDate, endDate, encode) == "/api/analytics/charts" <==> none) &&
            (!none ==> SummaryUrl(startDate, endDate, encode)[22] == '?' && ChartsUrl(startDate, endDate, encode)[21] == '?')
  {
    var ps := RangeParams(startDate, endDate);
    QueryStringEmptyIff(ps, encode);
    assert (forall i :: 0 <= i < |ps| ==> ps[i].1.Undefined?) <==> startDate.Undefined? && endDate.Undefined? by {
      assert ps[0].1 == startDate && ps[1].1 == endDate;
    }
    PathQuery("/api/analytics/summary", QueryString(ps, encode));
    PathQuery("/api/analytics/charts", QueryString(ps, encode));
  }

  /**
   * `pageSize`, `startDate` and `endDate` arrive as `page_size`, `start_date`
   * and `end_date`, and an omitted `page` is left out of the query.
   */
  lemma ListParamsMapping(o: ListOptions)
    requires o.page.Undefined? && !o.pageSize.Undefined? && !o.startDate.Undefined? && !o.endDate.Undefined?
    ensures Defined(ListParams(o)) ==
            [("page_size", ParamText(o.pageSize)), ("start_date", ParamText(o.startDate)),
             ("end_date", ParamText(o.endDate))]
  {
    var ps := ListParams(o);
    DefinedAppend([ps[0]], ps[1..]);
    DefinedAppend([ps[1]], ps[2..]);
    DefinedAppend([ps[2]], ps[3..]);
    assert ps == [ps[0]] + ps[1..];
    assert ps[1..] == [ps[1]] + ps[2..];
    assert ps[2..] == [ps[2]] + ps[3..];
    DefinedSingle(ps[0].0, ps[0].1);
    DefinedSingle(ps[1].0, ps[1].1);
    DefinedSingle(ps[2].0, ps[2].1);
    DefinedSingle(ps[3].0, ps[3].1);
  }
}
