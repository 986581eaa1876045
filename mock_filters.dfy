/** The query side of the in-memory tables the tests use: the filters a query builder collects,
    how they narrow a table, and the ordering, range and limit a select applies afterwards.
    A filtered result is a list of row positions in the table, so that an update or a delete
    acts on exactly the rows the filters picked (the mock keeps references to those rows). */
module MockFilters {
  import opened Wrappers
  import opened MockValues

  /** One collected filter. `eq`, `neq` and `in_` keep the text of their values, as the builder
      converts those with `str` when they are added; the comparisons keep the value. */
  datatype Filter =
    | Eq(col: string, val: string)
    | Neq(col: string, val: string)
    | Lt(col: string, bound: Value)
    | Gt(col: string, bound: Value)
    | Gte(col: string, bound: Value)
    | Lte(col: string, bound: Value)
    | In(col: string, vals: seq<string>)
    | Or(criteria: string)

  /** Whether a row passes a filter other than `or`; None when the comparison raises. */
  function Test(r: Row, f: Filter): (t: Option<bool>)
    requires !f.Or?
    ensures t.None? ==> (f.Lt? || f.Gt?) && !Get(r, f.col).Null?
  {
    var v := Get(r, f.col);
    match f
    case Eq(_, val) => Some(Render(v) == val)
    case Neq(_, val) => Some(Render(v) != val)
    case Lt(_, b) => if v.Null? then Some(false) else PyLess(v, b)
    case Gt(_, b) => if v.Null? then Some(false) else PyLess(b, v)
    case Gte(_, b) => Some(!v.Null? && !LexLess(Render(v), Render(b)))
    case Lte(_, b) => Some(!v.Null? && !LexLess(Render(b), Render(v)))
    case In(_, vals) => Some(Render(v) in vals)
  }

  predicate ValidIndices(data: seq<Row>, idx: seq<nat>) {
    forall k :: 0 <= k < |idx| ==> idx[k] < |data|
  }

  predicate Increasing(idx: seq<nat>) {
    forall j, k :: 0 <= j < k < |idx| ==> idx[j] < idx[k]
  }

  predicate NoDuplicates(idx: seq<nat>) {
    forall j, k :: 0 <= j < k < |idx| ==> idx[j] != idx[k]
  }

  /** Every position of the table, in order. */
  function AllIndices(n: nat): (idx: seq<nat>)
    ensures |idx| == n && forall k :: 0 <= k < n ==> idx[k] == k
  {
    seq(n, k => k)
  }

  /** The comprehension one filter runs over the current result. */
  function Narrow(data: seq<Row>, idx: seq<nat>, f: Filter): (r: Result<seq<nat>, MockError>)
    requires !f.Or? && ValidIndices(data, idx)
    ensures r.Success? ==> ValidIndices(data, r.value) && |r.value| <= |idx|
    decreases |idx|
  {
    if |idx| == 0 then Success([])
    else match Test(data[idx[0]], f)
      case None => Failure(TypeMismatch)
      case Some(keep) =>
        match Narrow(data, idx[1..], f)
        case Failure(e) => Failure(e)
        case Success(rest) => Success(if keep then [idx[0]] + rest else rest)
  }

  /** Narrowing raises exactly when one of the rows it looks at cannot be compared. */
  lemma {:induction false} NarrowRaises(data: seq<Row>, idx: seq<nat>, f: Filter)
    requires !f.Or? && ValidIndices(data, idx)
    ensures Narrow(data, idx, f).Failure? <==> exists k :: 0 <= k < |idx| && Test(data[idx[k]], f).None?
    decreases |idx|
  {
    if |idx| > 0 {
      NarrowRaises(data, idx[1..], f);
      if exists k :: 0 <= k < |idx| && Test(data[idx[k]], f).None? {
        var k :| 0 <= k < |idx| && Test(data[idx[k]], f).None?;
        if k > 0 {
          assert idx[1..][k - 1] == idx[k];
        }
      }
      if Narrow(data, idx[1..], f).Failure? {
        var k :| 0 <= k < |idx[1..]| && Test(data[idx[1..][k]], f).None?;
        assert idx[k + 1] == idx[1..][k];
      }
    }
  }

  /** Narrowing keeps exactly the positions whose rows pass. */
  lemma {:induction false} NarrowKeepsExactly(data: seq<Row>, idx: seq<nat>, f: Filter)
    requires !f.Or? && ValidIndices(data, idx)
    ensures Narrow(data, idx, f).Success? ==>
      forall i :: i in Narrow(data, idx, f).value <==> i in idx && Test(data[i], f) == Some(true)
    decreases |idx|
  {
    if |idx| > 0 {
      NarrowKeepsExactly(data, idx[1..], f);
      var r := Narrow(data, idx, f);
      if r.Success? {
        var rest := Narrow(data, idx[1..], f).value;
        assert r.value == if Test(data[idx[0]], f) == Some(true) then [idx[0]] + rest else rest;
        forall i | i in idx && Test(data[i], f) == Some(true)
          ensures i in r.value
        {
          if i != idx[0] {
            var k :| 0 <= k < |idx| && idx[k] == i;
            assert idx[1..][k - 1] == i;
          }
        }
      }
    }
  }

  /** Narrowing keeps the order of the positions it keeps. */
  lemma {:induction false} NarrowKeepsOrder(data: seq<Row>, idx: seq<nat>, f: Filter)
    requires !f.Or? && ValidIndices(data, idx) && Increasing(idx)
    ensures Narrow(data, idx, f).Success? ==> Increasing(Narrow(data, idx, f).value)
    decreases |idx|
  {
    if |idx| > 0 && Narrow(data, idx, f).Success? {
      NarrowKeepsOrder(data, idx[1..], f);
      NarrowKeepsExactly(data, idx[1..], f);
      var rest := Narrow(data, idx[1..], f).value;
      forall k | 0 <= k < |rest|
        ensures idx[0] < rest[k]
      {
        assert rest[k] in idx[1..];
      }
    }
  }

  /** `c.split(".")` with three parts and `eq` in the middle: `column.eq.value`. */
  predicate IsEqCondition(c: string) {
    var parts := Split(c, '.');
    |parts| == 3 && parts[1] == "eq"
  }

  /** The row meets the condition `column.eq.value`. */
  predicate MeetsCondition(r: Row, c: string) {
    var parts := Split(c, '.');
    |parts| == 3 && parts[1] == "eq" && Render(Get(r, parts[0])) == parts[2]
  }

  /** The positions among the first `n` of the table whose `col` reads `val`, in order. */
  function Matching(data: seq<Row>, c: string, n: nat): (r: seq<nat>)
    requires n <= |data|
    ensures forall i: nat :: i in r <==> i < n && MeetsCondition(data[i], c)
    ensures ValidIndices(data, r)
  {
    if n == 0 then []
    else Matching(data, c, n - 1) + (if MeetsCondition(data[n - 1], c) then [n - 1] else [])
  }

  /** The positions each condition matches, over the whole table, one condition after another. */
  function OrCollect(data: seq<Row>, conds: seq<string>): (r: seq<nat>)
    ensures forall i: nat :: i in r <==> i < |data| && exists k :: 0 <= k < |conds| && MeetsCondition(data[i], conds[k])
    ensures ValidIndices(data, r)
  {
    if |conds| == 0 then []
    else
      var r := OrCollect(data, conds[..|conds| - 1]) + Matching(data, conds[|conds| - 1], |data|);
      assert forall i: nat :: i in r ==> i < |data| && exists k :: 0 <= k < |conds| && MeetsCondition(data[i], conds[k]) by {
        forall i | i in r
          ensures i < |data| && exists k :: 0 <= k < |conds| && MeetsCondition(data[i], conds[k])
        {
          if i in OrCollect(data, conds[..|conds| - 1]) {
            var k :| 0 <= k < |conds| - 1 && MeetsCondition(data[i], conds[..|conds| - 1][k]);
            assert conds[k] == conds[..|conds| - 1][k];
          }
        }
      }
      assert forall i: nat :: i < |data| && (exists k :: 0 <= k < |conds| && MeetsCondition(data[i], conds[k])) ==> i in r by {
        forall i: nat | i < |data| && exists k :: 0 <= k < |conds| && MeetsCondition(data[i], conds[k])
          ensures i in r
        {
          var k :| 0 <= k < |conds| && MeetsCondition(data[i], conds[k]);
          if k < |conds| - 1 {
            assert conds[..|conds| - 1][k] == conds[k];
          }
        }
      }
      r
  }

  /** The de-duplication loop: the first occurrence of each position, skipping those in `seen`. */
  function FirstOccurrences(s: seq<nat>, seen: set<nat>): (r: seq<nat>)
    ensures forall i :: i in r <==> i in s && i !in seen
    ensures NoDuplicates(r)
    decreases |s|
  {
    if |s| == 0 then []
    else if s[0] in seen then FirstOccurrences(s[1..], seen)
    else
      var rest := FirstOccurrences(s[1..], seen + {s[0]});
      assert forall k :: 0 <= k < |rest| ==> rest[k] != s[0] by {
        forall k | 0 <= k < |rest|
          ensures rest[k] != s[0]
        {
          assert rest[k] in rest;
        }
      }
      [s[0]] + rest
  }

  /** The `or` filter: with a comma, the union of its `eq` conditions over the whole table, each
      row once; without a comma, no effect at all. */
  function OrSpec(data: seq<Row>, idx: seq<nat>, criteria: string): (r: seq<nat>)
    requires ValidIndices(data, idx)
    ensures ValidIndices(data, r)
  {
    if ',' in criteria then
      var r := FirstOccurrences(OrCollect(data, Split(criteria, ',')), {});
      assert ValidIndices(data, r) by {
        forall k | 0 <= k < |r|
          ensures r[k] < |data|
        {
          assert r[k] in r;
        }
      }
      r
    else idx
  }

  /** One filter applied to the current result. */
  function ApplyOne(data: seq<Row>, idx: seq<nat>, f: Filter): (r: Result<seq<nat>, MockError>)
    requires ValidIndices(data, idx)
    ensures r.Success? ==> ValidIndices(data, r.value)
  {
    if f.Or? then Success(OrSpec(data, idx, f.criteria)) else Narrow(data, idx, f)
  }

  /** The filters in order, from the result `idx`. */
  function FiltersFrom(data: seq<Row>, idx: seq<nat>, fs: seq<Filter>): (r: Result<seq<nat>, MockError>)
    requires ValidIndices(data, idx)
    ensures r.Success? ==> ValidIndices(data, r.value)
    decreases |fs|
  {
    if |fs| == 0 then Success(idx)
    else match ApplyOne(data, idx, fs[0])
      case Failure(e) => Failure(e)
      case Success(next) => FiltersFrom(data, next, fs[1..])
  }

  /** `_apply_filters`: all filters, from the whole table. */
  function FilterSpec(data: seq<Row>, fs: seq<Filter>): (r: Result<seq<nat>, MockError>)
    ensures r.Success? ==> ValidIndices(data, r.value)
  {
    FiltersFrom(data, AllIndices(|data|), fs)
  }

  /** The de-duplication loop of the `or` filter. */
  method Deduplicate(s: seq<nat>) returns (r: seq<nat>)
    ensures r == FirstOccurrences(s, {})
  {
    var seen: set<nat> := {};
    r := [];
    var k := 0;
    while k < |s|
      invariant 0 <= k <= |s|
      invariant r + FirstOccurrences(s[k..], seen) == FirstOccurrences(s, {})
      invariant forall i :: i in r <==> i in seen
    {
      assert s[k..][1..] == s[k + 1..];
      if s[k] !in seen {
        seen := seen + {s[k]};
        r := r + [s[k]];
      }
      k := k + 1;
    }
  }

  /** The branch of the filter loop for `or`: the conditions one by one, then de-duplication. */
  method OrFilter(data: seq<Row>, idx: seq<nat>, criteria: string) returns (r: seq<nat>)
    requires ValidIndices(data, idx)
    ensures r == OrSpec(data, idx, criteria)
  {
    if ',' !in criteria {
      return idx;
    }
    var conditions := Split(criteria, ',');
    var collected: seq<nat> := [];
    for k := 0 to |conditions|
      invariant collected == OrCollect(data, conditions[..k])
    {
      assert conditions[..k + 1][..k] == conditions[..k];
      collected := collected + Matching(data, conditions[k], |data|);
    }
    assert conditions[..|conditions|] == conditions;
    r := Deduplicate(collected);
  }

  /** One step of `FiltersFrom` on the filters from position `k` on. */
  lemma FiltersFromAt(data: seq<Row>, idx: seq<nat>, fs: seq<Filter>, k: nat)
    requires ValidIndices(data, idx) && k < |fs|
    ensures FiltersFrom(data, idx, fs[k..]) ==
      match ApplyOne(data, idx, fs[k])
      case Failure(e) => Failure(e)
      case Success(next) => FiltersFrom(data, next, fs[k + 1..])
  {
    assert fs[k..][0] == fs[k] && fs[k..][1..] == fs[k + 1..];
  }

  /** `_apply_filters`: the filter loop, stopping at the first comparison that raises. */
  method ApplyFilters(data: seq<Row>, fs: seq<Filter>) returns (r: Result<seq<nat>, MockError>)
    ensures r == FilterSpec(data, fs)
  {
    var current := AllIndices(|data|);
    var k := 0;
    while k < |fs|
      invariant 0 <= k <= |fs|
      invariant ValidIndices(data, current)
      invariant FiltersFrom(data, current, fs[k..]) == FilterSpec(data, fs)
    {
      FiltersFromAt(data, current, fs, k);
      var next: Result<seq<nat>, MockError>;
      if fs[k].Or? {
        var picked := OrFilter(data, current, fs[k].criteria);
        next := Success(picked);
      } else {
        next := Narrow(data, current, fs[k]);
      }
      assert next == ApplyOne(data, current, fs[k]);
      if next.Failure? {
        return Failure(next.error);
      }
      current := next.value;
      k := k + 1;
    }
    return Success(current);
  }

  predicate PassesAll(r: Row, fs: seq<Filter>)
    requires forall k :: 0 <= k < |fs| ==> !fs[k].Or?
  {
    forall k :: 0 <= k < |fs| ==> Test(r, fs[k]) == Some(true)
  }

  /** Without `or`, the filters are conjunctive: a position survives exactly when its row passes
      every one of them, and the survivors keep the order they had. */
  lemma {:induction false} ConjunctionFrom(data: seq<Row>, idx: seq<nat>, fs: seq<Filter>)
    requires ValidIndices(data, idx)
    requires forall k :: 0 <= k < |fs| ==> !fs[k].Or?
    ensures FiltersFrom(data, idx, fs).Success? ==>
      forall i :: i in FiltersFrom(data, idx, fs).value <==> i in idx && PassesAll(data[i], fs)
    ensures FiltersFrom(data, idx, fs).Success? && Increasing(idx) ==> Increasing(FiltersFrom(data, idx, fs).value)
    decreases |fs|
  {
    if |fs| > 0 {
      NarrowKeepsExactly(data, idx, fs[0]);
      if Increasing(idx) {
        NarrowKeepsOrder(data, idx, fs[0]);
      }
      if Narrow(data, idx, fs[0]).Success? {
        var next := Narrow(data, idx, fs[0]).value;
        ConjunctionFrom(data, next, fs[1..]);
        if FiltersFrom(data, idx, fs).Success? {
          forall i | i in idx
            ensures PassesAll(data[i], fs) <==> Test(data[i], fs[0]) == Some(true) && PassesAll(data[i], fs[1..])
          {
            if Test(data[i], fs[0]) == Some(true) && PassesAll(data[i], fs[1..]) {
              forall k | 0 <= k < |fs|
                ensures Test(data[i], fs[k]) == Some(true)
              {
                if k > 0 {
                  assert fs[1..][k - 1] == fs[k];
                }
              }
            }
            if PassesAll(data[i], fs) {
              forall k | 0 <= k < |fs[1..]|
                ensures Test(data[i], fs[1..][k]) == Some(true)
              {
                assert fs[1..][k] == fs[k + 1];
              }
            }
          }
        }
      }
    }
  }

  /** The same over the whole table: a row is in the result exactly when it passes every filter,
      and the result is in table order. */
  lemma FiltersAreConjunctive(data: seq<Row>, fs: seq<Filter>)
    requires forall k :: 0 <= k < |fs| ==> !fs[k].Or?
    ensures FilterSpec(data, fs).Success? ==>
      (forall i: nat :: i in FilterSpec(data, fs).value <==> i < |data| && PassesAll(data[i], fs)) &&
      Increasing(FilterSpec(data, fs).value)
  {
    var all := AllIndices(|data|);
    forall i: nat | i < |data|
      ensures i in all
    {
      assert all[i] == i;
    }
    ConjunctionFrom(data, all, fs);
  }

  /** Appending a filter runs it on the result of the others. */
  lemma {:induction false} FiltersAppend(data: seq<Row>, idx: seq<nat>, fs: seq<Filter>, g: Filter)
    requires ValidIndices(data, idx)
    ensures FiltersFrom(data, idx, fs + [g]) ==
      match FiltersFrom(data, idx, fs)
      case Failure(e) => Failure(e)
      case Success(m) => ApplyOne(data, m, g)
    decreases |fs|
  {
    if |fs| == 0 {
      assert ([] + [g])[1..] == [];
    } else {
      assert (fs + [g])[0] == fs[0] && (fs + [g])[1..] == fs[1..] + [g];
      if ApplyOne(data, idx, fs[0]).Success? {
        FiltersAppend(data, ApplyOne(data, idx, fs[0]).value, fs[1..], g);
      }
    }
  }

  /** Adding one more filter other than `or` can only narrow the result, whatever came before. */
  lemma EachFilterOnlyNarrows(data: seq<Row>, fs: seq<Filter>, g: Filter)
    requires !g.Or?
    ensures FilterSpec(data, fs + [g]).Success? ==>
      FilterSpec(data, fs).Success? &&
      forall i :: i in FilterSpec(data, fs + [g]).value <==> i in FilterSpec(data, fs).value && Test(data[i], g) == Some(true)
  {
    FiltersAppend(data, AllIndices(|data|), fs, g);
    if FilterSpec(data, fs).Success? {
      NarrowKeepsExactly(data, FilterSpec(data, fs).value, g);
    }
  }

  /** With a comma, `or` throws away the current result: it is the union of its `eq`
      conditions over the whole table, each row once; malformed conditions match nothing.
      Without a comma the filter does nothing, even a well-formed single condition. */
  lemma OrIsUnionOverWholeTable(data: seq<Row>, idx: seq<nat>, other: seq<nat>, criteria: string)
    requires ValidIndices(data, idx) && ValidIndices(data, other)
    ensures ',' in criteria ==>
      var r := ApplyOne(data, idx, Or(criteria)).value;
      ApplyOne(data, idx, Or(criteria)) == ApplyOne(data, other, Or(criteria)) && NoDuplicates(r) &&
      forall i: nat :: i in r <==> i < |data| && exists k :: 0 <= k < |Split(criteria, ',')| && MeetsCondition(data[i], Split(criteria, ',')[k])
    ensures ',' !in criteria ==> ApplyOne(data, idx, Or(criteria)) == Success(idx)
  {
    if ',' in criteria {
      var conds := Split(criteria, ',');
      var collected := OrCollect(data, conds);
      var r := FirstOccurrences(collected, {});
      assert OrSpec(data, idx, criteria) == r && OrSpec(data, other, criteria) == r;
      assert forall i: nat :: i in r <==> i in collected;
    }
  }

  /** Only `lt` and `gt` can raise: without them the filters always succeed. */
  lemma {:induction false} OnlyComparisonsRaise(data: seq<Row>, idx: seq<nat>, fs: seq<Filter>)
    requires ValidIndices(data, idx)
    requires forall k :: 0 <= k < |fs| ==> !fs[k].Lt? && !fs[k].Gt?
    ensures FiltersFrom(data, idx, fs).Success?
    decreases |fs|
  {
    if |fs| > 0 {
      if !fs[0].Or? {
        NarrowRaises(data, idx, fs[0]);
      }
      forall k | 0 <= k < |fs[1..]|
        ensures !fs[1..][k].Lt? && !fs[1..][k].Gt?
      {
        assert fs[1..][k] == fs[k + 1];
      }
      OnlyComparisonsRaise(data, ApplyOne(data, idx, fs[0]).value, fs[1..]);
    }
  }

  // Ordering, range and limit of a select.

  /** `str(x.get(col, ""))`: an absent column sorts as the empty text. */
  function SortKey(r: Row, col: string): string {
    if col in r then Render(r[col]) else ""
  }

  /** `a` goes strictly before `b` in the requested direction. */
  predicate Before(a: string, b: string, desc: bool) {
    if desc then LexLess(b, a) else LexLess(a, b)
  }

  predicate SortedBy(rows: seq<Row>, col: string, desc: bool) {
    forall j, k :: 0 <= j < k < |rows| ==> !Before(SortKey(rows[k], col), SortKey(rows[j], col), desc)
  }

  /** Insertion of one row after every row that does not go after it, which keeps the sort
      stable, as Python's sort is also with `reverse=True`. */
  function InsertSorted(x: Row, rows: seq<Row>, col: string, desc: bool): (r: seq<Row>)
    ensures multiset(r) == multiset(rows) + multiset{x}
  {
    if |rows| == 0 then [x]
    else if Before(SortKey(x, col), SortKey(rows[0], col), desc) then [x] + rows
    else
      assert rows == [rows[0]] + rows[1..];
      [rows[0]] + InsertSorted(x, rows[1..], col, desc)
  }

  /** `results.sort(key=..., reverse=desc)`. */
  function SortRows(rows: seq<Row>, col: string, desc: bool): (r: seq<Row>)
    ensures multiset(r) == multiset(rows)
  {
    if |rows| == 0 then []
    else
      assert rows == rows[..|rows| - 1] + [rows[|rows| - 1]];
      InsertSorted(rows[|rows| - 1], SortRows(rows[..|rows| - 1], col, desc), col, desc)
  }

  /** Keys that go neither way are equal, and going before is transitive. */
  lemma BeforeIsStrictTotal(a: string, b: string, c: string, desc: bool)
    ensures !Before(a, b, desc) && !Before(b, a, desc) ==> a == b
    ensures Before(a, b, desc) && Before(b, c, desc) ==> Before(a, c, desc)
    ensures Before(a, b, desc) ==> !Before(b, a, desc)
  {
    LexLessIsStrictTotal(a, b, c);
    LexLessIsStrictTotal(c, b, a);
    LexLessIsStrictTotal(b, a, a);
  }

  lemma {:induction false} InsertKeepsSorted(x: Row, rows: seq<Row>, col: string, desc: bool)
    requires SortedBy(rows, col, desc)
    ensures SortedBy(InsertSorted(x, rows, col, desc), col, desc)
    decreases |rows|
  {
    var r := InsertSorted(x, rows, col, desc);
    if |rows| > 0 {
      if Before(SortKey(x, col), SortKey(rows[0], col), desc) {
        forall k | 0 < k < |r|
          ensures !Before(SortKey(r[k], col), SortKey(x, col), desc)
        {
          BeforeIsStrictTotal(SortKey(r[k], col), SortKey(rows[0], col), SortKey(x, col), desc);
          BeforeIsStrictTotal(SortKey(rows[0], col), SortKey(r[k], col), SortKey(x, col), desc);
          BeforeIsStrictTotal(SortKey(x, col), SortKey(rows[0], col), SortKey(r[k], col), desc);
        }
      } else {
        InsertKeepsSorted(x, rows[1..], col, desc);
        InsertAfterHead(x, rows, col, desc);
      }
    }
  }

  /** When `x` does not go before the head, nothing in the insertion into the tail does. */
  lemma InsertAfterHead(x: Row, rows: seq<Row>, col: string, desc: bool)
    requires SortedBy(rows, col, desc) && |rows| > 0
    requires !Before(SortKey(x, col), SortKey(rows[0], col), desc)
    requires SortedBy(InsertSorted(x, rows[1..], col, desc), col, desc)
    ensures SortedBy(InsertSorted(x, rows, col, desc), col, desc)
  {
    var h := SortKey(rows[0], col);
    assert forall k :: 0 <= k < |rows[1..]| ==> !Before(SortKey(rows[1..][k], col), h, desc) by {
      forall k | 0 <= k < |rows[1..]|
        ensures !Before(SortKey(rows[1..][k], col), h, desc)
      {
        assert rows[1..][k] == rows[k + 1];
      }
    }
    InsertLowerBound(x, rows[1..], h, col, desc);
    var tail := InsertSorted(x, rows[1..], col, desc);
    ConsSorted(rows[0], tail, col, desc);
    assert InsertSorted(x, rows, col, desc) == [rows[0]] + tail;
  }

  /** A sorted list stays sorted with a head that nothing in it goes before. */
  lemma ConsSorted(head: Row, tail: seq<Row>, col: string, desc: bool)
    requires SortedBy(tail, col, desc)
    requires forall k :: 0 <= k < |tail| ==> !Before(SortKey(tail[k], col), SortKey(head, col), desc)
    ensures SortedBy([head] + tail, col, desc)
  {
    var r := [head] + tail;
    forall j, k | 0 <= j < k < |r|
      ensures !Before(SortKey(r[k], col), SortKey(r[j], col), desc)
    {
      assert r[k] == tail[k - 1];
      if j > 0 {
        assert r[j] == tail[j - 1];
      }
    }
  }

  /** A key nothing goes before stays so after an insertion of a row that does not go before it. */
  lemma {:induction false} InsertLowerBound(x: Row, rows: seq<Row>, h: string, col: string, desc: bool)
    requires forall k :: 0 <= k < |rows| ==> !Before(SortKey(rows[k], col), h, desc)
    requires !Before(SortKey(x, col), h, desc)
    ensures forall k :: 0 <= k < |InsertSorted(x, rows, col, desc)| ==> !Before(SortKey(InsertSorted(x, rows, col, desc)[k], col), h, desc)
    decreases |rows|
  {
    if |rows| > 0 && !Before(SortKey(x, col), SortKey(rows[0], col), desc) {
      assert forall k :: 0 <= k < |rows[1..]| ==> !Before(SortKey(rows[1..][k], col), h, desc) by {
        forall k | 0 <= k < |rows[1..]|
          ensures !Before(SortKey(rows[1..][k], col), h, desc)
        {
          assert rows[1..][k] == rows[k + 1];
        }
      }
      InsertLowerBound(x, rows[1..], h, col, desc);
    }
  }

  /** The sort orders the rows by their keys in the requested direction and loses none. */
  lemma {:induction false} SortRowsSorts(rows: seq<Row>, col: string, desc: bool)
    ensures SortedBy(SortRows(rows, col, desc), col, desc)
    ensures multiset(SortRows(rows, col, desc)) == multiset(rows)
  {
    if |rows| > 0 {
      SortRowsSorts(rows[..|rows| - 1], col, desc);
      InsertKeepsSorted(rows[|rows| - 1], SortRows(rows[..|rows| - 1], col, desc), col, desc);
    }
  }

  /** A Python slice bound: negative counts from the end, and both are clamped to the list. */
  function SliceBound(i: int, n: nat): (b: nat)
    ensures b <= n
  {
    if i < 0 then (if i + n < 0 then 0 else i + n) else if i > n then n else i
  }

  /** `rows[lo:hi]`. */
  function PySlice(rows: seq<Row>, lo: int, hi: int): (r: seq<Row>)
    ensures |r| <= |rows|
  {
    var a := SliceBound(lo, |rows|);
    var b := SliceBound(hi, |rows|);
    if a >= b then [] else rows[a..b]
  }

  /** `range(start, end)`: both ends included. */
  function RangeOf(rows: seq<Row>, start: int, end: int): seq<Row> {
    PySlice(rows, start, end + 1)
  }

  /** Within the list, a range returns rows `start` through `end`, both included. */
  lemma RangeIsInclusive(rows: seq<Row>, start: nat, end: nat)
    requires start <= end < |rows|
    ensures RangeOf(rows, start, end) == rows[start..end + 1]
    ensures |RangeOf(rows, start, end)| == end - start + 1
    ensures RangeOf(rows, start, end)[0] == rows[start] && RangeOf(rows, start, end)[end - start] == rows[end]
  {
  }
}
