/**
 * The API client: building a query from a parameter object, assembling the
 * endpoint, and turning every failure of a request into the response envelope
 * `{ success: false, error }`. `fetch` and the body readers are abstracted
 * into a `FetchResult` that a caller supplies.
 */
module Api {
  import opened Wrappers
  import opened Js
  import Props

  /** One `[key, value]` pair of `Object.entries(params)`. */
  type Entry = (string, Value)

  /** The appended pairs of a `URLSearchParams`, in order. */
  type Query = seq<(string, string)>

  const ApiBaseUrl: string := "/api"
  const ProductsPath: string := "/products"
  const TransactionsPath: string := "/transactions"
  const InventorySummaryPath: string := "/reports/inventory-summary"
  const ExportProductsPath: string := "/export/products"
  const ExportTransactionsPath: string := "/export/transactions"

  // ---------------------------------------------------------------------------
  // Query building

  /** The product and transaction lists skip undefined, empty and null values. */
  predicate ListKeeps(v: Value) {
    v != Undefined && v != Str("") && v != Null
  }

  /** The report and export builders skip only undefined and empty values. */
  predicate ReportKeeps(v: Value) {
    v != Undefined && v != Str("")
  }

  /** The query the product and transaction lists send: kept pairs, stringified, in entry order. */
  function ListQuery(es: seq<Entry>): (q: Query)
    ensures |q| <= |es|
  {
    if |es| == 0 then [] else ListStep(es[0]) + ListQuery(es[1..])
  }

  /** What one entry contributes to a list query. */
  function ListStep(e: Entry): (q: Query)
    ensures |q| <= 1
  {
    if ListKeeps(e.1) then [(e.0, String(e.1))] else []
  }

  /** The error `null.toString()` throws, in V8's wording. */
  const NullToString: Thrown := ThrownTypeError("Cannot read properties of null (reading 'toString')")

  /** `q` put in front of the query `r` builds, if `r` builds one. */
  function Prefixed(q: Query, r: Result<Query, Thrown>): Result<Query, Thrown> {
    match r
    case Ok(rest) => Ok(q + rest)
    case Err(e) => Err(e)
  }

  lemma PrefixedPrefixed(q: Query, p: Query, r: Result<Query, Thrown>)
    ensures Prefixed(q, Prefixed(p, r)) == Prefixed(q + p, r)
  {
    if r.Ok? {
      assert q + (p + r.value) == (q + p) + r.value;
    }
  }

  /**
   * The query the report and export builders send. They call
   * `value.toString()`, which throws on a null value: the first kept null
   * stops the building with that error.
   */
  function ReportQuery(es: seq<Entry>): Result<Query, Thrown> {
    if |es| == 0 then Ok([])
    else if !ReportKeeps(es[0].1) then ReportQuery(es[1..])
    else if es[0].1 == Null then Err(NullToString)
    else Prefixed([(es[0].0, String(es[0].1))], ReportQuery(es[1..]))
  }

  /** Building over two lists of entries is building over each in turn: order is kept. */
  lemma {:induction false} ListQueryAppend(a: seq<Entry>, b: seq<Entry>)
    ensures ListQuery(a + b) == ListQuery(a) + ListQuery(b)
  {
    if |a| == 0 {
      assert a + b == b;
    } else {
      calc {
        ListQuery(a + b);
        { assert (a + b)[0] == a[0] && (a + b)[1..] == a[1..] + b; }
        ListStep(a[0]) + ListQuery(a[1..] + b);
        { ListQueryAppend(a[1..], b); }
        ListStep(a[0]) + (ListQuery(a[1..]) + ListQuery(b));
        ListQuery(a) + ListQuery(b);
      }
    }
  }

  /** A pair is sent exactly when some entry with that key is kept and prints as that value. */
  lemma {:induction false} ListQueryMembers(es: seq<Entry>, k: string, s: string)
    ensures (k, s) in ListQuery(es) <==>
            exists i :: 0 <= i < |es| && es[i].0 == k && ListKeeps(es[i].1) && String(es[i].1) == s
  {
    if |es| > 0 {
      ListQueryMembers(es[1..], k, s);
      if (k, s) in ListQuery(es[1..]) {
        var i :| 0 <= i < |es[1..]| && es[1..][i].0 == k && ListKeeps(es[1..][i].1) && String(es[1..][i].1) == s;
        assert es[i + 1] == es[1..][i];
      }
      if i :| 0 <= i < |es| && es[i].0 == k && ListKeeps(es[i].1) && String(es[i].1) == s {
        if i > 0 {
          assert es[1..][i - 1] == es[i];
        }
      }
    }
  }

  /** The value an object holds under a key reaches the query under that key when it is kept. */
  lemma {:induction false} ListQueryLookup(es: seq<Entry>, k: string, v: Value)
    requires Props.Lookup(es, k) == Some(v) && ListKeeps(v)
    ensures Props.Lookup(ListQuery(es), k) == Some(String(v))
  {
    var head := ListStep(es[0]);
    var rest := ListQuery(es[1..]);
    assert ListQuery(es) == head + rest;
    if es[0].0 == k {
      assert ListQuery(es)[0] == (k, String(v));
    } else {
      ListQueryLookup(es[1..], k, v);
      if head != [] {
        assert ListQuery(es) == [(es[0].0, String(es[0].1))] + rest;
      } else {
        assert ListQuery(es) == rest;
      }
    }
  }

  /** Without null values the report builders send what the list builders send. */
  lemma {:induction false} ReportQueryWithoutNull(es: seq<Entry>)
    requires forall i :: 0 <= i < |es| ==> es[i].1 != Null
    ensures ReportQuery(es) == Ok(ListQuery(es))
  {
    if |es| > 0 {
      assert es[0].1 != Null;
      assert forall i :: 0 <= i < |es[1..]| ==> es[1..][i] == es[i + 1];
      ReportQueryWithoutNull(es[1..]);
      assert ListQuery(es) == ListStep(es[0]) + ListQuery(es[1..]);
      if ReportKeeps(es[0].1) {
        assert ListKeeps(es[0].1);
        assert ReportQuery(es) == Prefixed([(es[0].0, String(es[0].1))], Ok(ListQuery(es[1..])));
      } else {
        assert ListStep(es[0]) == [];
        assert ListQuery(es) == ListQuery(es[1..]);
      }
    }
  }

  /**
   * A null value is the one a list builder drops and a report builder keeps;
   * keeping it makes the report builder throw, and nothing else does.
   */
  lemma {:induction false} ReportQueryFailsIffNull(es: seq<Entry>)
    ensures ReportQuery(es).Err? <==> exists i :: 0 <= i < |es| && es[i].1 == Null
    ensures ReportQuery(es).Err? ==> ReportQuery(es).error == NullToString
  {
    if |es| > 0 {
      ReportQueryFailsIffNull(es[1..]);
      if exists i :: 0 <= i < |es[1..]| && es[1..][i].1 == Null {
        var i :| 0 <= i < |es[1..]| && es[1..][i].1 == Null;
        assert es[i + 1] == es[1..][i];
      }
      if i :| 1 <= i < |es| && es[i].1 == Null {
        assert es[1..][i - 1] == es[i];
      }
    }
  }

  /** Every value a list builder keeps, a report builder keeps; null is kept by the latter only. */
  lemma ReportKeepsMore(v: Value)
    ensures ListKeeps(v) ==> ReportKeeps(v)
    ensures ReportKeeps(Null) && !ListKeeps(Null)
  {
  }

  /** The list builders' `forEach`: append each kept pair, stringified. */
  method BuildListQuery(params: Option<seq<Entry>>) returns (q: Query)
    ensures q == ListQuery(params.GetOr([]))
  {
    q := [];
    if params.Some? {
      var es := params.value;
      var i := 0;
      while i < |es|
        invariant 0 <= i <= |es|
        invariant q == ListQuery(es[..i])
      {
        var (key, value) := es[i];
        if value != Undefined && value != Str("") && value != Null {
          q := q + [(key, String(value))];
        }
        assert es[..i + 1] == es[..i] + [es[i]];
        ListQueryAppend(es[..i], [es[i]]);
        i := i + 1;
      }
      assert es[..|es|] == es;
    }
  }

  /** The report and export builders' `forEach`, which stops at the first kept null. */
  method BuildReportQuery(params: Option<seq<Entry>>) returns (r: Result<Query, Thrown>)
    ensures r == ReportQuery(params.GetOr([]))
  {
    var q: Query := [];
    if params.Some? {
      var es := params.value;
      var i := 0;
      assert es[0..] == es;
      assert Prefixed([], ReportQuery(es)) == ReportQuery(es) by {
        if ReportQuery(es).Ok? {
          assert [] + ReportQuery(es).value == ReportQuery(es).value;
        }
      }
      while i < |es|
        invariant 0 <= i <= |es|
        invariant ReportQuery(es) == Prefixed(q, ReportQuery(es[i..]))
      {
        var (key, value) := es[i];
        assert es[i..][0] == es[i] && es[i..][1..] == es[i + 1..];
        if value != Undefined && value != Str("") {
          if value == Null {
            return Err(NullToString);
          }
          PrefixedPrefixed(q, [(key, String(value))], ReportQuery(es[i + 1..]));
          q := q + [(key, String(value))];
        }
        i := i + 1;
      }
      assert es[|es|..] == [] && q + [] == q;
    }
    r := Ok(q);
  }

  // ---------------------------------------------------------------------------
  // Endpoints

  /**
   * `URLSearchParams.prototype.toString`: `key=value` pairs joined by `&`.
   * Percent-encoding is not modelled; only whether the text is empty matters
   * to the endpoint.
   */
  function Serialize(q: Query): (s: string)
    ensures s == "" <==> q == []
  {
    if |q| == 0 then ""
    else if |q| == 1 then q[0].0 + "=" + q[0].1
    else q[0].0 + "=" + q[0].1 + "&" + Serialize(q[1..])
  }

  /** `${path}${queryString ? `?${queryString}` : ""}`. */
  function Endpoint(path: string, q: Query): string {
    var queryString := Serialize(q);
    path + (if queryString != "" then "?" + queryString else "")
  }

  /** The part of a URL before its first `?`. */
  function PathOf(url: string): (p: string)
    ensures p <= url
  {
    if url == [] || url[0] == '?' then [] else [url[0]] + PathOf(url[1..])
  }

  lemma {:induction false} PathOfConcat(path: string, rest: string)
    requires '?' !in path
    requires rest == [] || rest[0] == '?'
    ensures PathOf(path + rest) == path
  {
    if path != [] {
      assert (path + rest)[0] == path[0];
      assert (path + rest)[1..] == path[1..] + rest;
      PathOfConcat(path[1..], rest);
    }
  }

  /**
   * An endpoint is the bare path exactly when no pair is kept, and the path,
   * `?` and the query otherwise; the path can be read back from it.
   */
  lemma EndpointShape(path: string, q: Query)
    requires '?' !in path
    ensures q == [] ==> Endpoint(path, q) == path
    ensures q != [] ==> Endpoint(path, q) == path + "?" + Serialize(q)
    ensures '?' in Endpoint(path, q) <==> q != []
    ensures PathOf(Endpoint(path, q)) == path
  {
    if q == [] {
      PathOfConcat(path, []);
      assert path + [] == path;
    } else {
      var rest := "?" + Serialize(q);
      PathOfConcat(path, rest);
      assert Endpoint(path, q)[|path|] == '?';
    }
  }

  /** `getProducts` (with `ProductsPath`) and `getTransactions` (with `TransactionsPath`). */
  method ListEndpoint(path: string, params: Option<seq<Entry>>) returns (endpoint: string)
    ensures endpoint == Endpoint(path, ListQuery(params.GetOr([])))
  {
    var q := BuildListQuery(params);
    var queryString := Serialize(q);
    endpoint := path + (if queryString != "" then "?" + queryString else "");
  }

  /**
   * `getInventorySummary` (with `InventorySummaryPath`), `exportProductsCSV`
   * and `exportTransactionsCSV` (with the export paths): the endpoint, or the
   * error the builder throws before any request is made.
   */
  method ReportEndpoint(path: string, params: Option<seq<Entry>>) returns (r: Result<string, Thrown>)
    ensures r.Ok? <==> ReportQuery(params.GetOr([])).Ok?
    ensures r.Ok? ==> r.value == Endpoint(path, ReportQuery(params.GetOr([])).value)
    ensures r.Err? ==> r.error == NullToString
  {
    ReportQueryFailsIffNull(params.GetOr([]));
    var q := BuildReportQuery(params);
    match q
    case Ok(pairs) =>
      var queryString := Serialize(pairs);
      r := Ok(path + (if queryString != "" then "?" + queryString else ""));
    case Err(e) =>
      r := Err(e);
  }

  // ---------------------------------------------------------------------------
  // Requests

  /** The response envelope every endpoint answers with. */
  datatype ApiResponse<T> = ApiResponse(
    success: bool,
    data: Option<T>,
    message: Option<string>,
    error: Option<string>)

  /** What `response.json()` gives: the parsed envelope, or the error it throws. */
  datatype JsonBody<T> = Parsed(envelope: ApiResponse<T>) | Unparsable(reason: Thrown)

  /** What `fetch` gives: a rejection, or a status with the body read as text and as JSON. */
  datatype FetchResult<T> = Rejected(reason: Thrown) | Responded(status: int, text: string, json: JsonBody<T>)

  /** `response.ok`. */
  predicate StatusOk(status: int) {
    200 <= status <= 299
  }

  const BackendUnreachable: string := "バックエンドサーバーに接続できません。サーバーが起動しているか確認してください。"
  const UnknownError: string := "Unknown error"

  function HttpErrorMessage(status: int, text: string): string {
    "HTTP error! status: " + IntToString(status) + " - " + text
  }

  function FailureEnvelope<T>(message: string): ApiResponse<T> {
    ApiResponse(false, None, None, Some(message))
  }

  /** The `try` block of `request`: the envelope it returns or the value it throws. */
  function Attempt<T>(f: FetchResult<T>): Result<ApiResponse<T>, Thrown> {
    match f
    case Rejected(e) => Err(e)
    case Responded(status, text, json) =>
      if !StatusOk(status) then Err(ThrownError(HttpErrorMessage(status, text)))
      else match json
        case Parsed(envelope) => Ok(envelope)
        case Unparsable(e) => Err(e)
  }

  /** The `catch` block of `request`. */
  function Recover<T>(e: Thrown): (r: ApiResponse<T>)
    ensures !r.success && r.data == None && r.error.Some?
  {
    if e.ThrownTypeError? && Contains(e.message, "fetch") then FailureEnvelope(BackendUnreachable)
    else FailureEnvelope(if IsErrorInstance(e) then e.message else UnknownError)
  }

  /** `request`: never throws; every failure becomes `{ success: false, error }`. */
  function Request<T>(f: FetchResult<T>): ApiResponse<T> {
    match Attempt(f)
    case Ok(envelope) => envelope
    case Err(e) => Recover(e)
  }

  /** A request either passes the server's envelope through or fails with an error message. */
  lemma RequestOutcome<T>(f: FetchResult<T>)
    ensures Attempt(f).Ok? ==> Request(f) == Attempt(f).value
    ensures Attempt(f).Err? ==> !Request(f).success && Request(f).error.Some? && Request(f).data == None
    ensures f.Responded? && StatusOk(f.status) && f.json.Parsed? ==> Request(f) == f.json.envelope
  {
  }

  /** A non-OK status fails the request with a message that contains the status code. */
  lemma HttpErrorNamesStatus<T>(status: int, text: string, json: JsonBody<T>)
    requires !StatusOk(status)
    ensures var r := Request(Responded(status, text, json));
      !r.success && r.error.Some? && r.error.value == HttpErrorMessage(status, text) &&
      Contains(r.error.value, IntToString(status))
  {
    ContainsMiddle("HTTP error! status: ", IntToString(status), " - " + text);
    assert "HTTP error! status: " + IntToString(status) + " - " + text
        == "HTTP error! status: " + IntToString(status) + (" - " + text);
  }

  /** A `TypeError` mentioning `fetch`, as a browser's failed `fetch` throws, reads as the server being unreachable. */
  lemma FetchTypeErrorIsUnreachable<T>(before: string, after: string)
    ensures Request<T>(Rejected(ThrownTypeError(before + "fetch" + after))).error == Some(BackendUnreachable)
  {
    ContainsMiddle(before, "fetch", after);
  }

  /** Any other `Error` is reported by its own message; a thrown non-`Error` as "Unknown error". */
  lemma OtherFailureMessages<T>(e: Thrown)
    requires !(e.ThrownTypeError? && Contains(e.message, "fetch"))
    ensures IsErrorInstance(e) ==> Request<T>(Rejected(e)).error == Some(e.message)
    ensures !IsErrorInstance(e) ==> Request<T>(Rejected(e)).error == Some(UnknownError)
  {
  }

  /**
   * The status check of the CSV exports, which fetch directly rather than
   * through `request`: a non-OK status throws an `Error` naming the status.
   */
  function ExportCheck(status: int): (r: Result<(), Thrown>)
    ensures r.Ok? <==> StatusOk(status)
    ensures r.Err? ==> r.error.ThrownError? && Contains(r.error.message, IntToString(status))
  {
    if StatusOk(status) then Ok(())
    else
      ContainsMiddle("Export failed: ", IntToString(status), "");
      assert "Export failed: " + IntToString(status) + "" == "Export failed: " + IntToString(status);
      Err(ThrownError("Export failed: " + IntToString(status)))
  }

  /** `${API_BASE_URL}${endpoint}`: the URL `request` and the exports fetch. */
  function Url(endpoint: string): string {
    ApiBaseUrl + endpoint
  }

  /** The paths of the calls that send a query: the two lists, the inventory summary and the two exports. */
  const QueryPaths: seq<string> :=
    [ProductsPath, TransactionsPath, InventorySummaryPath, ExportProductsPath, ExportTransactionsPath]

  /**
   * The URL such a call fetches is "/api" and its path, followed by `?` and
   * the query exactly when the query is not empty; the part before the first
   * `?` is always "/api" and the path.
   */
  lemma FetchedUrl(path: string, q: Query)
    requires path in QueryPaths
    ensures q == [] ==> Url(Endpoint(path, q)) == ApiBaseUrl + path
    ensures q != [] ==> Url(Endpoint(path, q)) == ApiBaseUrl + path + "?" + Serialize(q)
    ensures PathOf(Url(Endpoint(path, q))) == ApiBaseUrl + path
    ensures '?' in Url(Endpoint(path, q)) <==> q != []
  {
    var base := ApiBaseUrl + path;
    assert '?' !in base;
    var rest := if q == [] then "" else "?" + Serialize(q);
    assert Endpoint(path, q) == path + rest;
    assert Url(Endpoint(path, q)) == base + rest;
    PathOfConcat(base, rest);
    if q != [] {
      assert (base + rest)[|base|] == '?';
    }
  }
}
