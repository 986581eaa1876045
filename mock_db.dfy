/** The in-memory database the tests run the services against: a dict from table name to a
    list of rows, a query builder that collects filters, ordering, range and limit plus one
    operation (insert, update, upsert or delete; a select when there is none), its `execute`,
    and the `update_wallet_balance` procedure. The random UUIDs the mock draws and the clock it
    reads are parameters. */
module MockDb {
  import opened Wrappers
  import opened MockValues
  import opened MockFilters
  import Refs

  type Tables = map<string, seq<Row>>

  datatype Ordering = Ordering(col: string, desc: bool)

  /** `range(start, end)`, both ends included. */
  datatype Span = Span(start: int, end: int)

  /** The operation of a builder; a single payload is the one-element list the mock wraps it in. */
  datatype Operation = InsertOp(payloads: seq<Row>) | UpdateOp(payload: Row) | UpsertOp(payloads: seq<Row>) | DeleteOp

  /** Everything a builder has collected. `operation` is None for a plain select. */
  datatype Query = Query(table: string, filters: seq<Filter>, limit: Option<int>, order: Option<Ordering>,
                         single: bool, range: Option<Span>, operation: Option<Operation>)

  /** The random draws for one payload: the UUID a missing id takes and the one whose hex
      digits make a missing transaction tx_ref. */
  datatype Entropy = Entropy(uuid: string, hex: string)

  /** `MockResponse`: a list of rows (with the count a select reports), one row or none for a
      `single()` select, a procedure's status, or the exception `execute` raised. */
  datatype Response = Rows(rows: seq<Row>, count: Option<nat>) | OneRow(row: Option<Row>) | RpcStatus(status: string) | Raised(error: MockError)

  /** The two timestamps every table's defaults carry. */
  function Timestamps(now: string): map<string, Value> {
    map["created_at" := Text(now), "updated_at" := Text(now)]
  }

  /** The columns `_add_defaults` fills in when they are missing, per table. */
  function Defaults(table: string, now: string): map<string, Value> {
    var extra: map<string, Value> :=
      if table == "profiles" then
        map[
          "email" := Null, "phone_number" := Text("+2348000000000"), "full_name" := Null,
          "user_type" := Text("CUSTOMER"), "store_name" := Null, "business_name" := Null,
          "profile_image_url" := Null, "backdrop_image_url" := Null, "is_online" := Bool(false),
          "is_verified" := Bool(false), "is_blocked" := Bool(false), "account_status" := Text("ACTIVE"),
          "last_seen_at" := Null, "dispatcher_id" := Null, "bike_number" := Null, "business_address" := Null,
          "state" := Null, "can_pickup_and_dropoff" := Bool(false), "pickup_and_delivery_charge" := Num(0.0),
          "total_deliveries" := Int(0), "average_rating" := Num(0.0), "review_count" := Int(0),
          "total_distance_travelled" := Num(0.0), "has_delivery" := Bool(false),
          "order_cancel_count" := Int(0), "rider_is_suspended_for_order_cancel" := Bool(false)]
      else if table == "disputes" then
        map["resolution_notes" := Null, "resolved_by_id" := Null, "resolved_at" := Null]
      else map[];
    extra + Timestamps(now)
  }

  /** No table's defaults supply an id or a tx_ref, and every table's supply both timestamps. */
  lemma DefaultsShape(table: string, now: string)
    ensures "id" !in Defaults(table, now) && "tx_ref" !in Defaults(table, now)
    ensures "created_at" in Defaults(table, now) && Defaults(table, now)["created_at"] == Text(now)
    ensures "updated_at" in Defaults(table, now) && Defaults(table, now)["updated_at"] == Text(now)
  {
  }

  /** The defaults loop: only keys the row does not have are filled. */
  function WithDefaults(item: Row, d: map<string, Value>): (r: Row)
    ensures r.Keys == item.Keys + d.Keys
    ensures forall k :: k in item ==> r[k] == item[k]
    ensures forall k :: k in d && k !in item ==> r[k] == d[k]
  {
    map k | k in item.Keys + d.Keys :: if k in item then item[k] else d[k]
  }

  /** `f"TX-{uuid4().hex[:8].upper()}"`. */
  function TxRef(hex: string): string {
    Refs.GeneratedRef("TX-", hex, 8)
  }

  /** The row an insert appends for one payload: a copy, with a fresh id only when it has none,
      the missing defaults, and for transactions a `TX-` ref only when it has none. */
  function NewRow(table: string, p: Row, e: Entropy, now: string): Row {
    Complete(p, e, Defaults(table, now), table == "transactions")
  }

  /** `NewRow` for the defaults `d`; `isTx` says whether a missing tx_ref is drawn. */
  function Complete(p: Row, e: Entropy, d: map<string, Value>, isTx: bool): Row {
    var withId := if "id" in p then p else p["id" := Text(e.uuid)];
    var full := WithDefaults(withId, d);
    if isTx && "tx_ref" !in full then full["tx_ref" := Text(TxRef(e.hex))] else full
  }

  /** The shape of `Complete` for defaults that supply neither an id nor a tx_ref. */
  lemma CompleteShape(p: Row, e: Entropy, d: map<string, Value>, isTx: bool)
    requires "id" !in d && "tx_ref" !in d
    ensures var r := Complete(p, e, d, isTx);
      (forall k :: k in p ==> k in r && r[k] == p[k]) &&
      "id" in r && ("id" !in p ==> r["id"] == Text(e.uuid)) &&
      (forall k :: k in d && k !in p ==> k in r && r[k] == d[k]) &&
      r.Keys == p.Keys + {"id"} + d.Keys + (if isTx then {"tx_ref"} else {}) &&
      (isTx && "tx_ref" !in p ==> r["tx_ref"] == Text(TxRef(e.hex)))
  {
    var withId := if "id" in p then p else p["id" := Text(e.uuid)];
    assert "tx_ref" in WithDefaults(withId, d) <==> "tx_ref" in p;
  }

  /** The inserted row keeps every payload value, has an id (the drawn one only when the payload
      had none), has each default the payload lacked, and nothing else; a transaction without a
      tx_ref gets one of at most 11 characters starting with `TX-`. */
  lemma NewRowShape(table: string, p: Row, e: Entropy, now: string)
    ensures var r := NewRow(table, p, e, now);
      (forall k :: k in p ==> k in r && r[k] == p[k]) &&
      "id" in r && ("id" !in p ==> r["id"] == Text(e.uuid)) &&
      (forall k :: k in Defaults(table, now) && k !in p ==> k in r && r[k] == Defaults(table, now)[k]) &&
      r.Keys == p.Keys + {"id"} + Defaults(table, now).Keys + (if table == "transactions" then {"tx_ref"} else {}) &&
      (table == "transactions" && "tx_ref" !in p ==>
        r["tx_ref"] == Text(TxRef(e.hex)) && Refs.StartsWith(TxRef(e.hex), "TX-") && |TxRef(e.hex)| <= 11)
  {
    DefaultsShape(table, now);
    CompleteShape(p, e, Defaults(table, now), table == "transactions");
    var hex := Refs.Take(e.hex, 8);
    assert TxRef(e.hex) == "TX-" + Refs.Upper(hex);
  }

  /** The rows an insert appends, one per payload, in payload order. */
  function NewRows(table: string, ps: seq<Row>, draws: seq<Entropy>, now: string): (rows: seq<Row>)
    requires |draws| >= |ps|
    ensures |rows| == |ps|
    ensures forall k :: 0 <= k < |ps| ==> rows[k] == NewRow(table, ps[k], draws[k], now)
  {
    seq(|ps|, k requires 0 <= k < |ps| => NewRow(table, ps[k], draws[k], now))
  }

  /** `dict.update`: the payload's values win. */
  function Merge(r: Row, p: Row): Row {
    r + p
  }

  /** The update loop: the payload merged into each picked row, one after another. */
  function MergeAt(data: seq<Row>, idx: seq<nat>, p: Row): (r: seq<Row>)
    requires ValidIndices(data, idx)
    ensures |r| == |data|
  {
    if |idx| == 0 then data
    else
      var d := MergeAt(data, idx[..|idx| - 1], p);
      d[idx[|idx| - 1] := Merge(d[idx[|idx| - 1]], p)]
  }

  /** Exactly the picked rows take the payload (merging twice is merging once); the others, and
      the order of the table, are untouched. */
  lemma {:induction false} MergeAtPicked(data: seq<Row>, idx: seq<nat>, p: Row)
    requires ValidIndices(data, idx)
    ensures forall i :: 0 <= i < |data| ==> MergeAt(data, idx, p)[i] == if i in idx then Merge(data[i], p) else data[i]
  {
    if |idx| > 0 {
      var front := idx[..|idx| - 1];
      MergeAtPicked(data, front, p);
      forall i | 0 <= i < |data|
        ensures MergeAt(data, idx, p)[i] == if i in idx then Merge(data[i], p) else data[i]
      {
        if i == idx[|idx| - 1] {
          if i in front {
            assert Merge(Merge(data[i], p), p) == Merge(data[i], p);
          }
        } else {
          assert i in idx <==> i in front;
        }
      }
    }
  }

  /** The rows at the picked positions, in the order picked. */
  function RowsAt(data: seq<Row>, idx: seq<nat>): (rows: seq<Row>)
    requires ValidIndices(data, idx)
    ensures |rows| == |idx| && forall k :: 0 <= k < |idx| ==> rows[k] == data[idx[k]]
  {
    seq(|idx|, k requires 0 <= k < |idx| => data[idx[k]])
  }

  function IdsOf(rows: seq<Row>): (ids: seq<Value>)
    ensures |ids| == |rows| && forall k :: 0 <= k < |rows| ==> ids[k] == Get(rows[k], "id")
  {
    seq(|rows|, k requires 0 <= k < |rows| => Get(rows[k], "id"))
  }

  /** The delete comprehension: the rows whose id is not among `ids`, in table order. */
  function KeepRows(data: seq<Row>, ids: seq<Value>): (kept: seq<Row>)
    ensures forall k :: 0 <= k < |kept| ==> kept[k] in data && Get(kept[k], "id") !in ids
    ensures forall i :: 0 <= i < |data| && Get(data[i], "id") !in ids ==> data[i] in kept
    ensures IsSubsequence(kept, data)
  {
    if |data| == 0 then []
    else
      var rest := KeepRows(data[1..], ids);
      assert forall k :: 0 <= k < |rest| ==> rest[k] in data by {
        forall k | 0 <= k < |rest|
          ensures rest[k] in data
        {
          var m :| 0 <= m < |data[1..]| && data[1..][m] == rest[k];
          assert data[m + 1] == rest[k];
        }
      }
      assert forall i :: 1 <= i < |data| && Get(data[i], "id") !in ids ==> data[i] in rest by {
        forall i | 1 <= i < |data| && Get(data[i], "id") !in ids
          ensures data[i] in rest
        {
          assert data[1..][i - 1] == data[i];
        }
      }
      if Get(data[0], "id") in ids then rest else [data[0]] + rest
  }

  /** `a` is `b` with some elements left out, the rest in their order. */
  predicate IsSubsequence(a: seq<Row>, b: seq<Row>)
    decreases |b|
  {
    if |a| == 0 then true
    else if |b| == 0 then false
    else if a[0] == b[0] then IsSubsequence(a[1..], b[1..])
    else IsSubsequence(a, b[1..])
  }

  /** The first row whose `col` renders as `key` (`next(...)` over the rows). A row without the
      column before the match raises `KeyError`, as `d[col]` does. */
  function FindFirst(rows: seq<Row>, col: string, key: string): (r: Result<Option<nat>, MockError>)
    ensures r.Success? && r.value.Some? ==>
      r.value.value < |rows| && col in rows[r.value.value] && Render(rows[r.value.value][col]) == key &&
      forall j :: 0 <= j < r.value.value ==> col in rows[j] && Render(rows[j][col]) != key
    ensures r == Success(None) <==> forall j :: 0 <= j < |rows| ==> col in rows[j] && Render(rows[j][col]) != key
    ensures r.Failure? ==> r.error == MissingKey(col)
  {
    if |rows| == 0 then Success(None)
    else if col !in rows[0] then Failure(MissingKey(col))
    else if Render(rows[0][col]) == key then Success(Some(0))
    else match FindFirst(rows[1..], col, key)
      case Failure(e) => Failure(e)
      case Success(None) =>
        assert forall j :: 1 <= j < |rows| ==> rows[j] == rows[1..][j - 1];
        Success(None)
      case Success(Some(i)) =>
        assert forall j :: 1 <= j <= i ==> rows[j] == rows[1..][j - 1];
        Success(Some(i + 1))
  }

  /** One upsert payload: merged into the row with the same id when there is one, otherwise
      appended exactly as an insert would append it. Also gives the position of that row. */
  function UpsertOne(table: string, d: seq<Row>, p: Row, e: Entropy, now: string): (r: Result<(seq<Row>, nat), MockError>)
    ensures r.Success? ==> |r.value.0| >= |d| && r.value.1 < |r.value.0|
  {
    if "id" in p then
      match FindFirst(d, "id", Render(p["id"]))
      case Failure(err) => Failure(err)
      case Success(Some(i)) => Success((d[i := Merge(d[i], p)], i))
      case Success(None) => Success((d + [NewRow(table, p, e, now)], |d|))
    else Success((d + [NewRow(table, p, e, now)], |d|))
  }

  /** The upsert loop over the payloads: the table at its end (or where it raised) and the
      positions of the upserted rows. */
  function UpsertFrom(table: string, d: seq<Row>, ps: seq<Row>, draws: seq<Entropy>, now: string): (r: (seq<Row>, Result<seq<nat>, MockError>))
    requires |draws| >= |ps|
    ensures |r.0| >= |d|
    ensures r.1.Success? ==> ValidIndices(r.0, r.1.value)
    decreases |ps|
  {
    if |ps| == 0 then (d, Success([]))
    else
      var one := UpsertOne(table, d, ps[0], draws[0], now);
      if one.Failure? then (d, Failure(one.error))
      else
        var rest := UpsertFrom(table, one.value.0, ps[1..], draws[1..], now);
        (rest.0, if rest.1.Success? then Success([one.value.1] + rest.1.value) else rest.1)
  }

  /** The upsert result once the positions `done` of the earlier payloads are put in front. */
  function AfterDone(done: seq<nat>, r: (seq<Row>, Result<seq<nat>, MockError>)): (seq<Row>, Result<seq<nat>, MockError>) {
    (r.0, if r.1.Success? then Success(done + r.1.value) else r.1)
  }

  /** One turn of the upsert loop. */
  lemma UpsertFromStep(table: string, d: seq<Row>, ps: seq<Row>, draws: seq<Entropy>, now: string, done: seq<nat>)
    requires |ps| > 0 && |draws| >= |ps|
    ensures var one := UpsertOne(table, d, ps[0], draws[0], now);
      AfterDone(done, UpsertFrom(table, d, ps, draws, now)) ==
        if one.Failure? then (d, Failure(one.error))
        else AfterDone(done + [one.value.1], UpsertFrom(table, one.value.0, ps[1..], draws[1..], now))
  {
    var one := UpsertOne(table, d, ps[0], draws[0], now);
    if one.Success? {
      var rest := UpsertFrom(table, one.value.0, ps[1..], draws[1..], now);
      if rest.1.Success? {
        assert done + ([one.value.1] + rest.1.value) == (done + [one.value.1]) + rest.1.value;
      }
    }
  }

  /** A select: the filters, then the ordering, then the range or else a non-zero limit, then
      `single()`. */
  function SelectSpec(data: seq<Row>, q: Query): Response {
    match FilterSpec(data, q.filters)
    case Failure(e) => Raised(e)
    case Success(idx) =>
      var rows := RowsAt(data, idx);
      var sorted := if q.order.Some? then SortRows(rows, q.order.value.col, q.order.value.desc) else rows;
      var cut :=
        if q.range.Some? then RangeOf(sorted, q.range.value.start, q.range.value.end)
        else if q.limit.Some? && q.limit.value != 0 then PySlice(sorted, 0, q.limit.value)
        else sorted;
      if q.single then OneRow(if |cut| == 0 then None else Some(cut[0]))
      else Rows(cut, Some(|cut|))
  }

  function InsertSpec(data: seq<Row>, table: string, ps: seq<Row>, draws: seq<Entropy>, now: string): (seq<Row>, Response)
    requires |draws| >= |ps|
  {
    var rows := NewRows(table, ps, draws, now);
    (data + rows, Rows(rows, None))
  }

  function UpdateSpec(data: seq<Row>, fs: seq<Filter>, p: Row): (seq<Row>, Response) {
    match FilterSpec(data, fs)
    case Failure(e) => (data, Raised(e))
    case Success(idx) =>
      var d := MergeAt(data, idx, p);
      (d, Rows(RowsAt(d, idx), None))
  }

  function UpsertSpec(data: seq<Row>, table: string, ps: seq<Row>, draws: seq<Entropy>, now: string): (seq<Row>, Response)
    requires |draws| >= |ps|
  {
    var (d, r) := UpsertFrom(table, data, ps, draws, now);
    (d, if r.Success? then Rows(RowsAt(d, r.value), None) else Raised(r.error))
  }

  function DeleteSpec(data: seq<Row>, fs: seq<Filter>): (seq<Row>, Response) {
    match FilterSpec(data, fs)
    case Failure(e) => (data, Raised(e))
    case Success(idx) =>
      var candidates := RowsAt(data, idx);
      (KeepRows(data, IdsOf(candidates)), Rows(candidates, None))
  }

  /** The number of payloads, each of which may draw random UUIDs. */
  function PayloadCount(q: Query): nat {
    match q.operation
    case Some(InsertOp(ps)) => |ps|
    case Some(UpsertOp(ps)) => |ps|
    case _ => 0
  }

  /** `execute`: the table is created empty when missing, then the operation runs on it. */
  function ExecuteSpec(tables: Tables, q: Query, draws: seq<Entropy>, now: string): (r: (Tables, Response))
    requires |draws| >= PayloadCount(q)
    ensures r.0.Keys == tables.Keys + {q.table}
    ensures forall k :: k in tables && k != q.table ==> r.0[k] == tables[k]
  {
    var data := if q.table in tables then tables[q.table] else [];
    var step := DispatchSpec(data, q, draws, now);
    (tables[q.table := step.0], step.1)
  }

  /** The operation on the rows of the query's table: its new rows and the response. */
  function DispatchSpec(data: seq<Row>, q: Query, draws: seq<Entropy>, now: string): (seq<Row>, Response)
    requires |draws| >= PayloadCount(q)
  {
    match q.operation
    case None => (data, SelectSpec(data, q))
    case Some(InsertOp(ps)) => InsertSpec(data, q.table, ps, draws, now)
    case Some(UpdateOp(p)) => UpdateSpec(data, q.filters, p)
    case Some(UpsertOp(ps)) => UpsertSpec(data, q.table, ps, draws, now)
    case Some(DeleteOp) => DeleteSpec(data, q.filters)
  }

  /** The `update_wallet_balance` call: `p_user_id`, `p_delta` and `p_field` (an absent
      parameter is `Null`, and an absent field means `balance`). */
  datatype WalletCall = WalletCall(userId: Value, delta: Value, field: Option<string>)

  /** The procedure: the first wallet whose `user_id` renders like the user id gets the delta
      added to the field (a missing field counts as 0); no such wallet changes nothing. Either
      way the reply is a success, unless a conversion or a missing `user_id` raises. */
  function WalletRpcSpec(tables: Tables, call: WalletCall): (r: (Tables, Response))
    ensures r.1.RpcStatus? || r.0 == tables
    ensures forall k :: k in tables && k != "wallets" ==> k in r.0 && r.0[k] == tables[k]
  {
    var wallets := if "wallets" in tables then tables["wallets"] else [];
    var f := call.field.GetOr("balance");
    match FindFirst(wallets, "user_id", Render(call.userId))
    case Failure(e) => (tables, Raised(e))
    case Success(None) => (tables, RpcStatus("success"))
    case Success(Some(i)) =>
      var w := wallets[i];
      match AsFloat(if f in w then w[f] else Int(0))
      case Failure(e) => (tables, Raised(e))
      case Success(current) =>
        match AsFloat(call.delta)
        case Failure(e) => (tables, Raised(e))
        case Success(delta) => (tables["wallets" := wallets[i := w[f := Num(current + delta)]]], RpcStatus("success"))
  }

  /** An insert appends exactly one row per payload and leaves the rows already there alone;
      each appended row keeps its payload's values and always has an id, and the response is
      exactly the appended rows. */
  lemma InsertAppendsCopies(data: seq<Row>, table: string, ps: seq<Row>, draws: seq<Entropy>, now: string)
    requires |draws| >= |ps|
    ensures var (d, resp) := InsertSpec(data, table, ps, draws, now);
      |d| == |data| + |ps| && d[..|data|] == data && resp == Rows(d[|data|..], None) &&
      forall k :: 0 <= k < |ps| ==>
        "id" in d[|data| + k] && ("id" !in ps[k] ==> d[|data| + k]["id"] == Text(draws[k].uuid)) &&
        forall c :: c in ps[k] ==> c in d[|data| + k] && d[|data| + k][c] == ps[k][c]
  {
    var (d, resp) := InsertSpec(data, table, ps, draws, now);
    var rows := NewRows(table, ps, draws, now);
    assert d[|data|..] == rows;
    forall k | 0 <= k < |ps|
      ensures "id" in d[|data| + k] && ("id" !in ps[k] ==> d[|data| + k]["id"] == Text(draws[k].uuid)) &&
        forall c :: c in ps[k] ==> c in d[|data| + k] && d[|data| + k][c] == ps[k][c]
    {
      NewRowShape(table, ps[k], draws[k], now);
      assert d[|data| + k] == rows[k];
    }
  }

  /** Without `or`, an update merges the payload into exactly the rows that pass every filter,
      leaves every other row as it was, and answers with the updated rows; a comparison that
      raises leaves the table unchanged. */
  lemma UpdateMergesExactlyTheMatches(data: seq<Row>, fs: seq<Filter>, p: Row)
    requires forall k :: 0 <= k < |fs| ==> !fs[k].Or?
    ensures var (d, resp) := UpdateSpec(data, fs, p);
      |d| == |data| &&
      (FilterSpec(data, fs).Failure? ==> d == data && resp.Raised?) &&
      (FilterSpec(data, fs).Success? ==>
        (forall i :: 0 <= i < |data| ==> d[i] == if PassesAll(data[i], fs) then Merge(data[i], p) else data[i]) &&
        resp.Rows? && forall k :: 0 <= k < |resp.rows| ==> resp.rows[k] in d)
  {
    FiltersAreConjunctive(data, fs);
    if FilterSpec(data, fs).Success? {
      var idx := FilterSpec(data, fs).value;
      MergeAtPicked(data, idx, p);
      var d := MergeAt(data, idx, p);
      forall i | 0 <= i < |data|
        ensures d[i] == if PassesAll(data[i], fs) then Merge(data[i], p) else data[i]
      {
        assert i in idx <==> PassesAll(data[i], fs);
      }
      forall k | 0 <= k < |idx|
        ensures RowsAt(d, idx)[k] in d
      {
        assert RowsAt(d, idx)[k] == d[idx[k]];
      }
    }
  }

  /** A delete drops every row that shares an id with a filtered row (so each filtered row
      goes), keeps every other row in its order, and answers with the filtered rows. */
  lemma DeleteRemovesMatchedIds(data: seq<Row>, fs: seq<Filter>)
    ensures var (d, resp) := DeleteSpec(data, fs);
      FilterSpec(data, fs).Success? ==>
        var idx := FilterSpec(data, fs).value;
        var ids := IdsOf(RowsAt(data, idx));
        resp == Rows(RowsAt(data, idx), None) && IsSubsequence(d, data) &&
        (forall k :: 0 <= k < |d| ==> Get(d[k], "id") !in ids) &&
        (forall i :: 0 <= i < |data| && Get(data[i], "id") !in ids ==> data[i] in d) &&
        (forall k :: 0 <= k < |idx| ==> data[idx[k]] !in d)
    ensures FilterSpec(data, fs).Failure? ==> DeleteSpec(data, fs).0 == data
  {
    if FilterSpec(data, fs).Success? {
      var idx := FilterSpec(data, fs).value;
      var ids := IdsOf(RowsAt(data, idx));
      var d := DeleteSpec(data, fs).0;
      forall k | 0 <= k < |idx|
        ensures data[idx[k]] !in d
      {
        assert ids[k] == Get(data[idx[k]], "id");
      }
    }
  }

  /** An upsert payload whose id is already in the table updates that row in place: the table
      keeps its length and only that row changes. */
  lemma UpsertUpdatesInPlace(table: string, d: seq<Row>, p: Row, e: Entropy, now: string, i: nat)
    requires "id" in p && FindFirst(d, "id", Render(p["id"])) == Success(Some(i))
    ensures UpsertSpec(d, table, [p], [e], now) == (d[i := Merge(d[i], p)], Rows([Merge(d[i], p)], None))
  {
    assert [p][1..] == [] && [e][1..] == [];
    var d2 := d[i := Merge(d[i], p)];
    assert UpsertOne(table, d, p, e, now) == Success((d2, i));
    assert UpsertFrom(table, d2, [], [], now) == (d2, Success([]));
    assert [i] + [] == [i];
    assert RowsAt(d2, [i]) == [Merge(d[i], p)];
  }

  /** An upsert payload without an id, or with one no row has, behaves exactly like an insert of
      that payload. */
  lemma UpsertWithoutMatchInserts(table: string, d: seq<Row>, p: Row, e: Entropy, now: string)
    requires "id" !in p || FindFirst(d, "id", Render(p["id"])) == Success(None)
    ensures UpsertSpec(d, table, [p], [e], now) == InsertSpec(d, table, [p], [e], now)
  {
    assert [p][1..] == [] && [p][..0] == [] && [e][1..] == [];
    var row := NewRow(table, p, e, now);
    assert UpsertOne(table, d, p, e, now) == Success((d + [row], |d|));
    assert UpsertFrom(table, d + [row], [], [], now) == (d + [row], Success([]));
    assert [|d|] + [] == [|d|];
    assert NewRows(table, [p], [e], now) == [row];
    assert RowsAt(d + [row], [|d|]) == [row];
    assert (d + [row])[|d|..] == [row];
  }

  /** A range wins over a limit (the limit is then ignored), and a zero limit is no limit. */
  lemma RangeBeatsLimit(data: seq<Row>, q: Query, l: Option<int>)
    ensures q.range.Some? ==> SelectSpec(data, q.(limit := l)) == SelectSpec(data, q)
    ensures SelectSpec(data, q.(limit := Some(0))) == SelectSpec(data, q.(limit := None))
  {
  }

  /** With no ordering, range or limit, a select answers with the filtered rows in table order
      and their count, or with `single()` the first of them, or no row when none passes. */
  lemma SelectReturnsFiltered(data: seq<Row>, q: Query)
    requires q.order.None? && q.range.None? && q.limit.None?
    ensures FilterSpec(data, q.filters).Success? ==>
      var idx := FilterSpec(data, q.filters).value;
      if q.single then SelectSpec(data, q) == OneRow(if |idx| == 0 then None else Some(data[idx[0]]))
      else SelectSpec(data, q) == Rows(RowsAt(data, idx), Some(|idx|))
    ensures FilterSpec(data, q.filters).Failure? ==> SelectSpec(data, q) == Raised(FilterSpec(data, q.filters).error)
  {
  }

  /** `execute` only ever changes the query's table, which exists afterwards (created empty if
      it was missing); a select changes no row. */
  lemma ExecuteTouchesOneTable(tables: Tables, q: Query, draws: seq<Entropy>, now: string)
    requires |draws| >= PayloadCount(q)
    ensures var (t, _) := ExecuteSpec(tables, q, draws, now);
      t.Keys == tables.Keys + {q.table} &&
      (forall name :: name in tables && name != q.table ==> t[name] == tables[name]) &&
      (q.operation.None? ==> t[q.table] == if q.table in tables then tables[q.table] else [])
  {
  }

  /** The procedure's result for a found wallet and two convertible numbers, as one equation. */
  lemma WalletRpcCredits(tables: Tables, call: WalletCall, i: nat, current: real, delta: real)
    requires "wallets" in tables
    requires FindFirst(tables["wallets"], "user_id", Render(call.userId)) == Success(Some(i))
    requires var w := tables["wallets"][i]; var f := call.field.GetOr("balance");
      AsFloat(if f in w then w[f] else Int(0)) == Success(current)
    requires AsFloat(call.delta) == Success(delta)
    ensures i < |tables["wallets"]|
    ensures WalletRpcSpec(tables, call) ==
      (tables["wallets" := tables["wallets"][i := tables["wallets"][i][call.field.GetOr("balance") := Num(current + delta)]]],
       RpcStatus("success"))
  {
  }

  /** A wallet found by user id gets exactly the delta added to the field, which now holds a
      float, and nothing else in the database changes; the reply is a success. */
  lemma WalletRpcAddsDelta(tables: Tables, call: WalletCall, i: nat, current: real, delta: real)
    requires "wallets" in tables
    requires FindFirst(tables["wallets"], "user_id", Render(call.userId)) == Success(Some(i))
    requires var w := tables["wallets"][i]; var f := call.field.GetOr("balance");
      AsFloat(if f in w then w[f] else Int(0)) == Success(current)
    requires AsFloat(call.delta) == Success(delta)
    ensures var (t, resp) := WalletRpcSpec(tables, call);
      var f := call.field.GetOr("balance");
      resp == RpcStatus("success") && t.Keys == tables.Keys &&
      (forall name :: name in tables && name != "wallets" ==> t[name] == tables[name]) &&
      |t["wallets"]| == |tables["wallets"]| &&
      (forall j :: 0 <= j < |tables["wallets"]| && j != i ==> t["wallets"][j] == tables["wallets"][j]) &&
      t["wallets"][i] == tables["wallets"][i][f := Num(current + delta)]
  {
    WalletRpcCredits(tables, call, i, current, delta);
  }

  /** A user with no wallet row changes nothing, and the reply is still a success. */
  lemma WalletRpcUnknownUserSucceeds(tables: Tables, call: WalletCall)
    requires "wallets" !in tables ||
      forall j :: 0 <= j < |tables["wallets"]| ==> "user_id" in tables["wallets"][j] && Render(tables["wallets"][j]["user_id"]) != Render(call.userId)
    ensures WalletRpcSpec(tables, call) == (tables, RpcStatus("success"))
  {
  }

  /** Changing a column other than the searched one does not change which row is found. */
  lemma {:induction false} FindFirstIgnoresOtherColumns(rows: seq<Row>, col: string, key: string, i: nat, f: string, v: Value)
    requires i < |rows| && f != col
    ensures FindFirst(rows[i := rows[i][f := v]], col, key) == FindFirst(rows, col, key)
    decreases |rows|
  {
    var rows' := rows[i := rows[i][f := v]];
    if i > 0 && col in rows[0] && Render(rows[0][col]) != key {
      assert rows'[1..] == rows[1..][i - 1 := rows[1..][i - 1][f := v]];
      FindFirstIgnoresOtherColumns(rows[1..], col, key, i - 1, f, v);
    } else if i == 0 {
      assert rows'[1..] == rows[1..];
    }
  }

  /** Two calls for the same wallet add up: the first sets the field to its value plus the first
      delta, and the second, finding the same wallet, adds the second delta to that. */
  lemma WalletRpcCallsAddUp(tables: Tables, user: Value, field: string, i: nat, start: real, d1: real, d2: real)
    requires "wallets" in tables && field != "user_id"
    requires FindFirst(tables["wallets"], "user_id", Render(user)) == Success(Some(i))
    requires AsFloat(if field in tables["wallets"][i] then tables["wallets"][i][field] else Int(0)) == Success(start)
    ensures i < |tables["wallets"]|
    ensures var w := tables["wallets"];
      var t1 := tables["wallets" := w[i := w[i][field := Num(start + d1)]]];
      WalletRpcSpec(tables, WalletCall(user, Num(d1), Some(field))) == (t1, RpcStatus("success")) &&
      WalletRpcSpec(t1, WalletCall(user, Num(d2), Some(field))) ==
        (tables["wallets" := w[i := w[i][field := Num(start + d1 + d2)]]], RpcStatus("success"))
  {
    var w := tables["wallets"];
    WalletRpcCredits(tables, WalletCall(user, Num(d1), Some(field)), i, start, d1);
    var w1 := w[i := w[i][field := Num(start + d1)]];
    var t1 := tables["wallets" := w1];
    FindFirstIgnoresOtherColumns(w, "user_id", Render(user), i, field, Num(start + d1));
    assert "wallets" in t1 && t1["wallets"] == w1;
    assert field in w1[i] && w1[i][field] == Num(start + d1);
    assert AsFloat(Num(start + d1)) == Success(start + d1) && AsFloat(Num(d2)) == Success(d2);
    WalletRpcCredits(t1, WalletCall(user, Num(d2), Some(field)), i, start + d1, d2);
    var row2 := w[i][field := Num(start + d1 + d2)];
    assert w1[i][field := Num(start + d1 + d2)] == row2;
    assert w1[i := row2] == w[i := row2];
    assert t1["wallets" := w[i := row2]] == tables["wallets" := w[i := row2]];
  }

  /** `self.db`: the tables the tests share between the mock client and their assertions. */
  class MockDatabase {
    var tables: Tables

    constructor (initial: Tables)
      ensures tables == initial
    {
      tables := initial;
    }

    /** `MockRPCBuilder("update_wallet_balance", ...).execute()`. */
    method UpdateWalletBalance(call: WalletCall) returns (resp: Response)
      modifies this
      ensures (tables, resp) == WalletRpcSpec(old(tables), call)
    {
      var wallets := if "wallets" in tables then tables["wallets"] else [];
      var f := call.field.GetOr("balance");
      var found := FindFirst(wallets, "user_id", Render(call.userId));
      if found.Failure? {
        return Raised(found.error);
      }
      if found.value.None? {
        return RpcStatus("success");
      }
      var i := found.value.value;
      var w := wallets[i];
      var current := AsFloat(if f in w then w[f] else Int(0));
      if current.Failure? {
        return Raised(current.error);
      }
      var delta := AsFloat(call.delta);
      if delta.Failure? {
        return Raised(delta.error);
      }
      tables := tables["wallets" := wallets[i := w[f := Num(current.value + delta.value)]]];
      resp := RpcStatus("success");
    }
  }

  /** `MockQueryBuilder`: each builder call records a filter or a setting and returns the
      builder; `execute` runs what was recorded. */
  class QueryBuilder {
    const table: string
    var filters: seq<Filter>
    var limit: Option<int>
    var order: Option<Ordering>
    var single: bool
    var range: Option<Span>
    var operation: Option<Operation>

    function State(): Query
      reads this
    {
      Query(table, filters, limit, order, single, range, operation)
    }

    constructor (table: string)
      ensures State() == Query(table, [], None, None, false, None, None)
    {
      this.table := table;
      filters := [];
      limit := None;
      order := None;
      single := false;
      range := None;
      operation := None;
    }

    method Insert(payloads: seq<Row>)
      modifies this
      ensures State() == old(State()).(operation := Some(InsertOp(payloads)))
    {
      operation := Some(InsertOp(payloads));
    }

    method Update(payload: Row)
      modifies this
      ensures State() == old(State()).(operation := Some(UpdateOp(payload)))
    {
      operation := Some(UpdateOp(payload));
    }

    method Upsert(payloads: seq<Row>)
      modifies this
      ensures State() == old(State()).(operation := Some(UpsertOp(payloads)))
    {
      operation := Some(UpsertOp(payloads));
    }

    method Delete()
      modifies this
      ensures State() == old(State()).(operation := Some(DeleteOp))
    {
      operation := Some(DeleteOp);
    }

    /** `eq`, `neq` and `in_` record the text of their values. */
    method Eq(col: string, v: Value)
      modifies this
      ensures State() == old(State()).(filters := old(filters) + [Filter.Eq(col, Render(v))])
    {
      filters := filters + [Filter.Eq(col, Render(v))];
    }

    method Neq(col: string, v: Value)
      modifies this
      ensures State() == old(State()).(filters := old(filters) + [Filter.Neq(col, Render(v))])
    {
      filters := filters + [Filter.Neq(col, Render(v))];
    }

    method Lt(col: string, v: Value)
      modifies this
      ensures State() == old(State()).(filters := old(filters) + [Filter.Lt(col, v)])
    {
      filters := filters + [Filter.Lt(col, v)];
    }

    method Gt(col: string, v: Value)
      modifies this
      ensures State() == old(State()).(filters := old(filters) + [Filter.Gt(col, v)])
    {
      filters := filters + [Filter.Gt(col, v)];
    }

    method Gte(col: string, v: Value)
      modifies this
      ensures State() == old(State()).(filters := old(filters) + [Filter.Gte(col, v)])
    {
      filters := filters + [Filter.Gte(col, v)];
    }

    method Lte(col: string, v: Value)
      modifies this
      ensures State() == old(State()).(filters := old(filters) + [Filter.Lte(col, v)])
    {
      filters := filters + [Filter.Lte(col, v)];
    }

    method In(col: string, vs: seq<Value>)
      modifies this
      ensures State() == old(State()).(filters := old(filters) + [Filter.In(col, seq(|vs|, k requires 0 <= k < |vs| => Render(vs[k])))])
    {
      filters := filters + [Filter.In(col, seq(|vs|, k requires 0 <= k < |vs| => Render(vs[k])))];
    }

    method Or(criteria: string)
      modifies this
      ensures State() == old(State()).(filters := old(filters) + [Filter.Or(criteria)])
    {
      filters := filters + [Filter.Or(criteria)];
    }

    method Order(col: string, desc: bool)
      modifies this
      ensures State() == old(State()).(order := Some(Ordering(col, desc)))
    {
      order := Some(Ordering(col, desc));
    }

    method Limit(n: int)
      modifies this
      ensures State() == old(State()).(limit := Some(n))
    {
      limit := Some(n);
    }

    method Range(start: int, end: int)
      modifies this
      ensures State() == old(State()).(range := Some(Span(start, end)))
    {
      range := Some(Span(start, end));
    }

    method Single()
      modifies this
      ensures State() == old(State()).(single := true)
    {
      single := true;
    }

    /** `execute`. */
    method Execute(db: MockDatabase, draws: seq<Entropy>, now: string) returns (resp: Response)
      requires |draws| >= PayloadCount(State())
      modifies db
      ensures (db.tables, resp) == ExecuteSpec(old(db.tables), State(), draws, now)
    {
      if table !in db.tables {
        db.tables := db.tables[table := []];
      }
      var data := db.tables[table];
      var step: (seq<Row>, Response);
      match operation {
        case None =>
          var r := Select(data);
          step := (data, r);
        case Some(InsertOp(ps)) =>
          step := RunInsert(data, ps, draws, now);
        case Some(UpdateOp(p)) =>
          step := RunUpdate(data, p);
        case Some(UpsertOp(ps)) =>
          step := RunUpsert(data, ps, draws, now);
        case Some(DeleteOp) =>
          step := RunDelete(data);
      }
      assert step == DispatchSpec(data, State(), draws, now);
      assert db.tables[table := step.0] == old(db.tables)[table := step.0];
      db.tables := db.tables[table := step.0];
      resp := step.1;
    }

    method Select(data: seq<Row>) returns (resp: Response)
      ensures resp == SelectSpec(data, State())
    {
      var picked := ApplyFilters(data, filters);
      if picked.Failure? {
        return Raised(picked.error);
      }
      var results := RowsAt(data, picked.value);
      if order.Some? {
        results := SortRows(results, order.value.col, order.value.desc);
      }
      if range.Some? {
        results := RangeOf(results, range.value.start, range.value.end);
      } else if limit.Some? && limit.value != 0 {
        results := PySlice(results, 0, limit.value);
      }
      if single {
        if |results| == 0 {
          return OneRow(None);
        }
        return OneRow(Some(results[0]));
      }
      resp := Rows(results, Some(|results|));
    }

    /** The insert loop: each payload's row appended in turn. */
    method RunInsert(data: seq<Row>, ps: seq<Row>, draws: seq<Entropy>, now: string) returns (step: (seq<Row>, Response))
      requires |draws| >= |ps|
      ensures step == InsertSpec(data, table, ps, draws, now)
    {
      var tableData := data;
      var returned: seq<Row> := [];
      for k := 0 to |ps|
        invariant returned == NewRows(table, ps[..k], draws, now)
        invariant tableData == data + returned
      {
        assert ps[..k + 1][..k] == ps[..k];
        var item := NewRow(table, ps[k], draws[k], now);
        assert NewRows(table, ps[..k + 1], draws, now) == NewRows(table, ps[..k], draws, now) + [item];
        tableData := tableData + [item];
        returned := returned + [item];
      }
      assert ps[..|ps|] == ps;
      step := (tableData, Rows(returned, None));
    }

    /** The update loop over the filtered rows. */
    method RunUpdate(data: seq<Row>, p: Row) returns (step: (seq<Row>, Response))
      ensures step == UpdateSpec(data, filters, p)
    {
      var picked := ApplyFilters(data, filters);
      if picked.Failure? {
        return (data, Raised(picked.error));
      }
      var idx := picked.value;
      var tableData := data;
      for k := 0 to |idx|
        invariant tableData == MergeAt(data, idx[..k], p)
      {
        assert idx[..k + 1][..k] == idx[..k];
        tableData := tableData[idx[k] := Merge(tableData[idx[k]], p)];
      }
      assert idx[..|idx|] == idx;
      step := (tableData, Rows(RowsAt(tableData, idx), None));
    }

    /** The upsert loop: each payload in turn, stopping where one raises. */
    method RunUpsert(data: seq<Row>, ps: seq<Row>, draws: seq<Entropy>, now: string) returns (step: (seq<Row>, Response))
      requires |draws| >= |ps|
      ensures step == UpsertSpec(data, table, ps, draws, now)
    {
      var tableData := data;
      var done: seq<nat> := [];
      var k := 0;
      assert ps[0..] == ps && draws[0..] == draws;
      assert AfterDone([], UpsertFrom(table, data, ps, draws, now)) == UpsertFrom(table, data, ps, draws, now) by {
        var r := UpsertFrom(table, data, ps, draws, now);
        if r.1.Success? {
          assert [] + r.1.value == r.1.value;
        }
      }
      while k < |ps|
        invariant 0 <= k <= |ps|
        invariant ValidIndices(tableData, done)
        invariant UpsertFrom(table, data, ps, draws, now) == AfterDone(done, UpsertFrom(table, tableData, ps[k..], draws[k..], now))
      {
        assert ps[k..][0] == ps[k] && ps[k..][1..] == ps[k + 1..];
        assert draws[k..][0] == draws[k] && draws[k..][1..] == draws[k + 1..];
        UpsertFromStep(table, tableData, ps[k..], draws[k..], now, done);
        var one := UpsertOne(table, tableData, ps[k], draws[k], now);
        if one.Failure? {
          return (tableData, Raised(one.error));
        }
        tableData := one.value.0;
        done := done + [one.value.1];
        k := k + 1;
      }
      assert ps[k..] == [];
      assert done + [] == done;
      step := (tableData, Rows(RowsAt(tableData, done), None));
    }

    /** The delete: the rows sharing an id with a filtered row are dropped. */
    method RunDelete(data: seq<Row>) returns (step: (seq<Row>, Response))
      ensures step == DeleteSpec(data, filters)
    {
      var picked := ApplyFilters(data, filters);
      if picked.Failure? {
        return (data, Raised(picked.error));
      }
      var candidates := RowsAt(data, picked.value);
      step := (KeepRows(data, IdsOf(candidates)), Rows(candidates, None));
    }
  }
}
