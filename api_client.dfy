/** The request helpers of src/services/apiClient.js: query-string building,
    pagination defaults, error-message selection and the mock-data switch. */
module ApiClient {
  import opened Wrappers
  import opened Strings
  import Seqs

  /** The JavaScript values a query parameter can hold. */
  datatype JsValue = Undefined | Null | Str(s: string) | Num(n: int) | Bool(b: bool)

  /** An object's own entries, in insertion order. */
  type Entries = seq<(string, JsValue)>

  predicate DistinctKeys(params: Entries) {
    forall i, j :: 0 <= i < j < |params| ==> params[i].0 != params[j].0
  }

  /** `buildQueryParams` appends an entry unless its value is `null`, `undefined` or
      the empty string; `0` and `false` are kept. */
  predicate Kept(v: JsValue) {
    v != Null && v != Undefined && v != Str("")
  }

  /** `String(value)` as `URLSearchParams.append` applies it. */
  function QueryValue(v: JsValue): string {
    match v
    case Undefined => "undefined"
    case Null => "null"
    case Str(s) => s
    case Num(n) => if n < 0 then "-" + NatToString(-n) else NatToString(n)
    case Bool(b) => if b then "true" else "false"
  }

  /** The pair one entry adds to the query: none when its value is dropped. */
  function EntryPairs(e: (string, JsValue)): seq<(string, string)> {
    if Kept(e.1) then [(e.0, QueryValue(e.1))] else []
  }

  /** The query string as the ordered list of key/value pairs it encodes. */
  function QueryPairs(params: Entries): seq<(string, string)>
    decreases |params|
  {
    if params == [] then []
    else QueryPairs(params[..|params| - 1]) + EntryPairs(params[|params| - 1])
  }

  /** `buildQueryParams`: one `append` per kept entry, in entry order. */
  method BuildQueryParams(params: Entries) returns (pairs: seq<(string, string)>)
    ensures pairs == QueryPairs(params)
  {
    pairs := [];
    var i := 0;
    while i < |params|
      invariant 0 <= i <= |params|
      invariant pairs == QueryPairs(params[..i])
    {
      var (key, value) := params[i];
      if Kept(value) {
        pairs := pairs + [(key, QueryValue(value))];
      }
      assert params[..i + 1][..i] == params[..i];
      i := i + 1;
    }
    assert params[..i] == params;
  }

  /** Entries are emitted in insertion order: the pairs of a concatenation are the
      pairs of each part. */
  lemma {:induction false} QueryPairsAppend(a: Entries, b: Entries)
    ensures QueryPairs(a + b) == QueryPairs(a) + QueryPairs(b)
    decreases |b|
  {
    if b != [] {
      var b' := b[..|b| - 1];
      assert (a + b)[..|a + b| - 1] == a + b';
      QueryPairsAppend(a, b');
    } else {
      assert a + b == a;
    }
  }

  /** A pair is emitted exactly for each entry whose value is kept. */
  lemma {:induction false} QueryPairsExact(params: Entries, p: (string, string))
    ensures p in QueryPairs(params) <==>
      exists i :: 0 <= i < |params| && Kept(params[i].1) && p == (params[i].0, QueryValue(params[i].1))
    decreases |params|
  {
    if params != [] {
      var init := params[..|params| - 1];
      QueryPairsExact(init, p);
      if exists i :: 0 <= i < |init| && Kept(init[i].1) && p == (init[i].0, QueryValue(init[i].1)) {
        var i :| 0 <= i < |init| && Kept(init[i].1) && p == (init[i].0, QueryValue(init[i].1));
        assert params[i] == init[i];
      }
      if exists i :: 0 <= i < |params| && Kept(params[i].1) && p == (params[i].0, QueryValue(params[i].1)) {
        var i :| 0 <= i < |params| && Kept(params[i].1) && p == (params[i].0, QueryValue(params[i].1));
        if i < |init| {
          assert init[i] == params[i];
        }
      }
    }
  }

  // ---------------------------------------------------------------- pagination

  /** `params[key]`, `undefined` when absent. */
  function Lookup(params: Entries, key: string): JsValue
    decreases |params|
  {
    if params == [] then Undefined
    else if params[0].0 == key then params[0].1
    else Lookup(params[1..], key)
  }

  /** A destructuring default: used only when the value is `undefined`. */
  function OrDefault(v: JsValue, d: JsValue): JsValue {
    if v == Undefined then d else v
  }

  predicate IsPagingKey(k: string) {
    k == "page" || k == "size" || k == "sortBy" || k == "direction"
  }

  /** An entry the rest pattern `...filters` collects. */
  predicate NotPagingEntry(e: (string, JsValue)) {
    !IsPagingKey(e.0)
  }

  /** The destructuring defaults 0, 10, 'createdAt' and 'desc'. */
  function PagingDefault(key: string): JsValue
    requires IsPagingKey(key)
  {
    if key == "page" then Num(0)
    else if key == "size" then Num(10)
    else if key == "sortBy" then Str("createdAt")
    else Str("desc")
  }

  /** A paging value after destructuring: the caller's, or the default when undefined. */
  function Resolved(params: Entries, key: string): JsValue
    requires IsPagingKey(key)
  {
    OrDefault(Lookup(params, key), PagingDefault(key))
  }

  /** `{ page, size, sortBy, direction, ...filters }` after destructuring. */
  function PagingEntries(params: Entries): Entries {
    [("page", Resolved(params, "page")), ("size", Resolved(params, "size")),
     ("sortBy", Resolved(params, "sortBy")), ("direction", Resolved(params, "direction"))]
    + Seqs.Filter(params, NotPagingEntry)
  }

  /** `buildPaginationParams`. */
  function BuildPaginationParams(params: Entries): seq<(string, string)> {
    QueryPairs(PagingEntries(params))
  }

  /** With the paging values left undefined, the query starts with the four defaults. */
  lemma PaginationDefaults(params: Entries)
    requires forall i :: 0 <= i < |params| ==> !IsPagingKey(params[i].0)
    ensures var r := BuildPaginationParams(params);
      |r| >= 4 && r[..4] == [("page", "0"), ("size", "10"), ("sortBy", "createdAt"), ("direction", "desc")]
  {
    var f := Seqs.Filter(params, NotPagingEntry);
    LookupAbsent(params, "page");
    LookupAbsent(params, "size");
    LookupAbsent(params, "sortBy");
    LookupAbsent(params, "direction");
    var head := [("page", Num(0)), ("size", Num(10)), ("sortBy", Str("createdAt")), ("direction", Str("desc"))];
    assert PagingEntries(params) == head + f;
    QueryPairsAppend(head, f);
    FourKeptPairs(head);
    assert NatToString(1) == "1";
    assert QueryValue(Num(0)) == "0" && QueryValue(Num(10)) == "10";
  }

  /** For any parameters: the query is the kept ones among the four resolved paging
      entries, in the order page, size, sortBy, direction, then the filters' pairs. */
  lemma PaginationQuery(params: Entries)
    ensures BuildPaginationParams(params) ==
      EntryPairs(("page", Resolved(params, "page"))) + EntryPairs(("size", Resolved(params, "size")))
      + EntryPairs(("sortBy", Resolved(params, "sortBy")))
      + EntryPairs(("direction", Resolved(params, "direction")))
      + QueryPairs(Seqs.Filter(params, NotPagingEntry))
  {
    var e := PagingEntries(params);
    var f := Seqs.Filter(params, NotPagingEntry);
    assert e == [e[0]] + [e[1]] + [e[2]] + [e[3]] + f;
    QueryPairsAppend([e[0]] + [e[1]] + [e[2]] + [e[3]], f);
    QueryPairsAppend([e[0]] + [e[1]] + [e[2]], [e[3]]);
    QueryPairsAppend([e[0]] + [e[1]], [e[2]]);
    QueryPairsAppend([e[0]], [e[1]]);
    QueryPairsSingle(e[0]);
    QueryPairsSingle(e[1]);
    QueryPairsSingle(e[2]);
    QueryPairsSingle(e[3]);
  }

  lemma QueryPairsSingle(e: (string, JsValue))
    ensures QueryPairs([e]) == EntryPairs(e)
  {
    assert [e][..0] == [];
  }

  /** Each paging key is emitted once with its resolved value when that value is kept,
      and not at all otherwise: a `null` or `''` from the caller is not replaced by the
      default, since the defaults apply only to `undefined`, and drops the key. */
  lemma PagingKeyEmitted(params: Entries, key: string)
    requires IsPagingKey(key)
    ensures var r := BuildPaginationParams(params); var v := Resolved(params, key);
      && (Kept(v) ==> (key, QueryValue(v)) in r)
      && (!Kept(v) ==> forall p :: p in r ==> p.0 != key)
      && (Lookup(params, key) == Undefined ==> v == PagingDefault(key))
      && (Lookup(params, key) == Null || Lookup(params, key) == Str("") ==>
            forall p :: p in r ==> p.0 != key)
  {
    var e := PagingEntries(params);
    var v := Resolved(params, key);
    var i := PagingEntryAt(params, key);
    QueryPairsExact(e, (key, QueryValue(v)));
    if !Kept(v) {
      forall p | p in QueryPairs(e)
        ensures p.0 != key
      {
        QueryPairsExact(e, p);
        var j :| 0 <= j < |e| && Kept(e[j].1) && p == (e[j].0, QueryValue(e[j].1));
      }
    }
  }

  /** The one paging entry with a given paging key, and where it sits. */
  lemma PagingEntryAt(params: Entries, key: string) returns (i: nat)
    requires IsPagingKey(key)
    ensures var e := PagingEntries(params);
      && i < |e| && e[i] == (key, Resolved(params, key))
      && forall j :: 0 <= j < |e| && j != i ==> e[j].0 != key
  {
    var e := PagingEntries(params);
    var f := Seqs.Filter(params, NotPagingEntry);
    i := if key == "page" then 0 else if key == "size" then 1 else if key == "sortBy" then 2 else 3;
    forall j | 4 <= j < |e|
      ensures e[j].0 != key
    {
      assert e[j] == f[j - 4] && NotPagingEntry(f[j - 4]);
    }
  }

  lemma LookupAbsent(params: Entries, key: string)
    requires forall i :: 0 <= i < |params| ==> params[i].0 != key
    ensures Lookup(params, key) == Undefined
  {
  }

  /** Four kept entries give four pairs, in order. */
  lemma FourKeptPairs(head: Entries)
    requires |head| == 4 && forall i :: 0 <= i < 4 ==> Kept(head[i].1)
    ensures QueryPairs(head) == [(head[0].0, QueryValue(head[0].1)), (head[1].0, QueryValue(head[1].1)),
                                 (head[2].0, QueryValue(head[2].1)), (head[3].0, QueryValue(head[3].1))]
  {
    assert head[..3][..2] == head[..2] && head[..2][..1] == head[..1] && head[..1][..0] == [];
    assert QueryPairs(head[..1]) == [(head[0].0, QueryValue(head[0].1))];
    assert QueryPairs(head[..2]) == QueryPairs(head[..1]) + [(head[1].0, QueryValue(head[1].1))];
    assert QueryPairs(head[..3]) == QueryPairs(head[..2]) + [(head[2].0, QueryValue(head[2].1))];
  }

  /** None of the four paging keys can be emitted twice: the filters never carry them. */
  lemma PagingKeysOnce(params: Entries)
    ensures var r := BuildPaginationParams(params);
      forall i, j :: 0 <= i < j < |r| && IsPagingKey(r[i].0) ==> r[i].0 != r[j].0
  {
    var e := PagingEntries(params);
    var f := Seqs.Filter(params, NotPagingEntry);
    var head := e[..4];
    assert e == head + f;
    QueryPairsAppend(head, f);
    HeadPairsDistinct(head);
    assert forall i :: 0 <= i < |f| ==> NotPagingEntry(f[i]);
    PairsNotPaging(f);
    DistinctThenNonPaging(QueryPairs(head), QueryPairs(f));
  }

  /** Pairs with distinct keys followed by pairs without a paging key repeat no
      paging key. */
  lemma DistinctThenNonPaging(h: seq<(string, string)>, q: seq<(string, string)>)
    requires forall i, j :: 0 <= i < j < |h| ==> h[i].0 != h[j].0
    requires forall k :: 0 <= k < |q| ==> !IsPagingKey(q[k].0)
    ensures var r := h + q;
      forall i, j :: 0 <= i < j < |r| && IsPagingKey(r[i].0) ==> r[i].0 != r[j].0
  {
    var r := h + q;
    forall i, j | 0 <= i < j < |r| && IsPagingKey(r[i].0)
      ensures r[i].0 != r[j].0
    {
      if j >= |h| {
        assert r[j] == q[j - |h|];
        if i >= |h| {
          assert r[i] == q[i - |h|];
        }
      }
    }
  }

  /** Entries without a paging key give pairs without one. */
  lemma PairsNotPaging(f: Entries)
    requires forall i :: 0 <= i < |f| ==> !IsPagingKey(f[i].0)
    ensures forall k :: 0 <= k < |QueryPairs(f)| ==> !IsPagingKey(QueryPairs(f)[k].0)
  {
    forall k | 0 <= k < |QueryPairs(f)|
      ensures !IsPagingKey(QueryPairs(f)[k].0)
    {
      QueryPairOrigin(f, k);
    }
  }

  /** The pairs from the four paging entries have distinct keys. */
  lemma HeadPairsDistinct(head: Entries)
    requires |head| == 4
    requires head[0].0 == "page" && head[1].0 == "size" && head[2].0 == "sortBy" && head[3].0 == "direction"
    ensures var h := QueryPairs(head);
      forall i, j :: 0 <= i < j < |h| ==> h[i].0 != h[j].0
  {
    var h := QueryPairs(head);
    forall i, j | 0 <= i < j < |h|
      ensures h[i].0 != h[j].0
    {
      QueryPairsOrigin(head, i, j);
    }
  }

  /** Two pairs of a query come from two different entries, in the same order. */
  lemma {:induction false} QueryPairsOrigin(params: Entries, i: int, j: int)
    requires 0 <= i < j < |QueryPairs(params)|
    ensures exists a, b :: 0 <= a < b < |params| && QueryPairs(params)[i].0 == params[a].0
                           && QueryPairs(params)[j].0 == params[b].0
    decreases |params|
  {
    var init := params[..|params| - 1];
    var q := QueryPairs(init);
    if j < |q| {
      QueryPairsOrigin(init, i, j);
      var a, b :| 0 <= a < b < |init| && q[i].0 == init[a].0 && q[j].0 == init[b].0;
      assert params[a] == init[a] && params[b] == init[b];
    } else {
      assert QueryPairs(params)[j].0 == params[|params| - 1].0;
      QueryPairOrigin(init, i);
      var a :| 0 <= a < |init| && q[i].0 == init[a].0;
      assert params[a] == init[a];
    }
  }

  lemma {:induction false} QueryPairOrigin(params: Entries, i: int)
    requires 0 <= i < |QueryPairs(params)|
    ensures exists a :: 0 <= a < |params| && QueryPairs(params)[i].0 == params[a].0
    decreases |params|
  {
    var init := params[..|params| - 1];
    if i < |QueryPairs(init)| {
      QueryPairOrigin(init, i);
      var a :| 0 <= a < |init| && QueryPairs(init)[i].0 == init[a].0;
      assert params[a] == init[a];
    }
  }

  // ---------------------------------------------------------------- errors

  /** The parts of an axios error the client reads. */
  datatype ErrorBody = ErrorBody(message: Option<string>, error: Option<string>)
  datatype ApiError = ApiError(responseData: Option<ErrorBody>, message: Option<string>)

  predicate Truthy(v: Option<string>) {
    v.Some? && v.value != ""
  }

  const DEFAULT_ERROR := "An error occurred"

  /** `error.response?.data?.message` is truthy. */
  predicate ServerMessage(e: ApiError) {
    e.responseData.Some? && Truthy(e.responseData.value.message)
  }

  /** `error.response?.data?.error` is truthy. */
  predicate ServerError(e: ApiError) {
    e.responseData.Some? && Truthy(e.responseData.value.error)
  }

  /** `handleApiError`: the server's message, else the server's error, else the
      error's own message, else the default. */
  function HandleApiError(e: ApiError, defaultMessage: string): (r: string)
    ensures ServerMessage(e) ==> r == e.responseData.value.message.value
    ensures !ServerMessage(e) && ServerError(e) ==> r == e.responseData.value.error.value
    ensures !ServerMessage(e) && !ServerError(e) && Truthy(e.message) ==> r == e.message.value
    ensures !ServerMessage(e) && !ServerError(e) && !Truthy(e.message) ==> r == defaultMessage
  {
    if e.responseData.Some? && Truthy(e.responseData.value.message) then e.responseData.value.message.value
    else if e.responseData.Some? && Truthy(e.responseData.value.error) then e.responseData.value.error.value
    else if Truthy(e.message) then e.message.value
    else defaultMessage
  }

  /** The chosen message is never empty when the default is not. */
  lemma HandleApiErrorNonEmpty(e: ApiError, defaultMessage: string)
    requires defaultMessage != ""
    ensures HandleApiError(e, defaultMessage) != ""
  {
  }

  // ---------------------------------------------------------------- mock switch

  /** `USE_MOCK_DATA`. */
  const USE_MOCK_DATA := "true"
}
