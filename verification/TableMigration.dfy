/**
 Copying a table by keyset pagination: batch after batch of the rows that follow the last key seen, each inserted in
 chunks that respect the parameter limit of the target. The source is a snapshot; it returns rows in key order.
 */
module TableMigration {
  import opened Common

  /** Values are compared as the source database compares them. */
  type Value = int
  type Row = seq<Value>
  type Key = seq<Value>

  datatype Plan = Plan(columns: nat, primary: seq<nat>)

  datatype Snapshot = Snapshot(maxKey: Option<Key>, sourceCount: nat, copied: nat)

  datatype Result<+T> = Ok(value: T) | NoPrimaryKey | BadValue

  // ---------- Keys ----------

  /** The row comparison of SQL: by the first column in which the keys differ. */
  predicate Less(a: Key, b: Key) {
    a != [] && b != [] && (a[0] < b[0] || (a[0] == b[0] && Less(a[1..], b[1..])))
  }

  /** One key is less than another of its length if and only if it is at the first column in which they differ. */
  lemma {:induction false} LessAtFirstDifference(a: Key, b: Key, i: nat)
    requires |a| == |b| && i < |a| && a[..i] == b[..i] && a[i] != b[i]
    ensures Less(a, b) <==> a[i] < b[i]
  {
    if i > 0 {
      assert a[0] == a[..i][0] && b[0] == b[..i][0];
      assert a[1..][..i - 1] == a[..i][1..] && b[1..][..i - 1] == b[..i][1..];
      LessAtFirstDifference(a[1..], b[1..], i - 1);
    }
  }

  lemma {:induction false} LessIsStrict(a: Key, b: Key)
    requires |a| == |b|
    ensures Less(a, b) ==> a != b && !Less(b, a)
    ensures a != b ==> Less(a, b) || Less(b, a)
  {
    if a != [] {
      LessIsStrict(a[1..], b[1..]);
      assert a == [a[0]] + a[1..] && b == [b[0]] + b[1..];
    }
  }

  lemma {:induction false} LessIsTransitive(a: Key, b: Key, c: Key)
    requires Less(a, b) && Less(b, c)
    ensures Less(a, c)
  {
    if a[0] == b[0] == c[0] {
      LessIsTransitive(a[1..], b[1..], c[1..]);
    }
  }

  predicate GoodPlan(plan: Plan) {
    forall i | 0 <= i < |plan.primary| :: plan.primary[i] < plan.columns
  }

  predicate HasColumns(row: Row, plan: Plan) {
    |row| == plan.columns
  }

  function KeyOf(row: Row, plan: Plan): (key: Key)
    requires GoodPlan(plan) && HasColumns(row, plan)
    ensures |key| == |plan.primary|
  {
    seq(|plan.primary|, i requires 0 <= i < |plan.primary| => row[plan.primary[i]])
  }

  predicate RowsFit(rows: seq<Row>, plan: Plan) {
    GoodPlan(plan) && forall i | 0 <= i < |rows| :: HasColumns(rows[i], plan)
  }

  predicate Before(rows: seq<Row>, plan: Plan, i: nat, j: nat)
    requires RowsFit(rows, plan) && i < |rows| && j < |rows|
  {
    Less(KeyOf(rows[i], plan), KeyOf(rows[j], plan))
  }

  /** The rows of a table with a primary key, in its order. */
  predicate InKeyOrder(rows: seq<Row>, plan: Plan) {
    && RowsFit(rows, plan)
    && forall i, j {:trigger Before(rows, plan, i, j)} | 0 <= i < j < |rows| :: Before(rows, plan, i, j)
  }

  // ---------- The source ----------

  predicate Selected(key: Key, last: Option<Key>, max: Key) {
    (last.Some? ==> Less(last.value, key)) && (Less(key, max) || key == max)
  }

  /** The rows a query selects: behind the last key, up to the greatest one, in key order. */
  function Matching(rows: seq<Row>, plan: Plan, last: Option<Key>, max: Key): seq<Row>
    requires RowsFit(rows, plan)
  {
    if rows == [] then [] else
    (if Selected(KeyOf(rows[0], plan), last, max) then [rows[0]] else []) + Matching(rows[1..], plan, last, max)
  }

  function Query(rows: seq<Row>, plan: Plan, last: Option<Key>, max: Key, limit: nat): seq<Row>
    requires RowsFit(rows, plan)
  {
    var matching := Matching(rows, plan, last, max);
    if |matching| <= limit then matching else matching[..limit]
  }

  lemma {:induction false} NoneMatch(rows: seq<Row>, plan: Plan, last: Option<Key>, max: Key)
    requires RowsFit(rows, plan) && forall i | 0 <= i < |rows| :: !Selected(KeyOf(rows[i], plan), last, max)
    ensures Matching(rows, plan, last, max) == []
  {
    if rows != [] {
      assert !Selected(KeyOf(rows[0], plan), last, max);
      forall i | 0 <= i < |rows[1..]|
        ensures !Selected(KeyOf(rows[1..][i], plan), last, max)
      {
        assert rows[1..][i] == rows[i + 1];
      }
      NoneMatch(rows[1..], plan, last, max);
    }
  }

  lemma {:induction false} AllMatch(rows: seq<Row>, plan: Plan, last: Option<Key>, max: Key)
    requires RowsFit(rows, plan) && forall i | 0 <= i < |rows| :: Selected(KeyOf(rows[i], plan), last, max)
    ensures Matching(rows, plan, last, max) == rows
  {
    if rows != [] {
      assert Selected(KeyOf(rows[0], plan), last, max);
      forall i | 0 <= i < |rows[1..]|
        ensures Selected(KeyOf(rows[1..][i], plan), last, max)
      {
        assert rows[1..][i] == rows[i + 1];
      }
      AllMatch(rows[1..], plan, last, max);
    }
  }

  lemma {:induction false} MatchingSplits(rows: seq<Row>, more: seq<Row>, plan: Plan, last: Option<Key>, max: Key)
    requires RowsFit(rows, plan) && RowsFit(more, plan)
    ensures RowsFit(rows + more, plan)
    ensures Matching(rows + more, plan, last, max) == Matching(rows, plan, last, max) + Matching(more, plan, last, max)
  {
    if rows == [] {
      assert rows + more == more;
    } else {
      MatchingSplits(rows[1..], more, plan, last, max);
      assert (rows + more)[1..] == rows[1..] + more;
    }
  }

  /** The last key seen when `done` rows have been copied. */
  function LastKey(rows: seq<Row>, plan: Plan, done: nat): Option<Key>
    requires RowsFit(rows, plan) && done <= |rows|
  {
    if done == 0 then None else Some(KeyOf(rows[done - 1], plan))
  }

  /** A query behind the last key copied selects exactly the rows that have not been copied, none again. */
  lemma BehindTheLastKey(rows: seq<Row>, plan: Plan, done: nat)
    requires InKeyOrder(rows, plan) && done <= |rows| && rows != []
    ensures Matching(rows, plan, LastKey(rows, plan, done), KeyOf(rows[|rows| - 1], plan)) == rows[done..]
  {
    var last, max := LastKey(rows, plan, done), KeyOf(rows[|rows| - 1], plan);
    var copied, rest := rows[..done], rows[done..];
    forall i | 0 <= i < |copied|
      ensures !Selected(KeyOf(copied[i], plan), last, max)
    {
      LessIsStrict(KeyOf(rows[i], plan), KeyOf(rows[done - 1], plan));
      assert i < done - 1 ==> Before(rows, plan, i, done - 1);
    }
    forall i | 0 <= i < |rest|
      ensures Selected(KeyOf(rest[i], plan), last, max)
    {
      assert done > 0 ==> Before(rows, plan, done - 1, done + i);
      assert done + i < |rows| - 1 ==> Before(rows, plan, done + i, |rows| - 1);
    }
    NoneMatch(copied, plan, last, max);
    AllMatch(rest, plan, last, max);
    MatchingSplits(copied, rest, plan, last, max);
    assert rows == copied + rest;
  }

  lemma NextBatch(rows: seq<Row>, plan: Plan, done: nat, limit: nat)
    requires InKeyOrder(rows, plan) && done <= |rows| && rows != []
    ensures Query(rows, plan, LastKey(rows, plan, done), KeyOf(rows[|rows| - 1], plan), limit)
            == rows[done..Min(done + limit, |rows|)]
  {
    BehindTheLastKey(rows, plan, done);
  }

  // ---------- The target ----------

  type Converter = (nat, Value) -> Option<Value>

  /** A row converts when each of its values does. */
  predicate Converts(row: Row, convert: Converter) {
    forall c | 0 <= c < |row| :: convert(c, row[c]).Some?
  }

  function Converted(row: Row, convert: Converter): (r: Row)
    requires Converts(row, convert)
    ensures |r| == |row|
  {
    seq(|row|, c requires 0 <= c < |row| => convert(c, row[c]).value)
  }

  predicate AllConvert(rows: seq<Row>, convert: Converter) {
    forall i | 0 <= i < |rows| :: Converts(rows[i], convert)
  }

  function ConvertedRows(rows: seq<Row>, convert: Converter): (r: seq<Row>)
    requires AllConvert(rows, convert)
    ensures |r| == |rows| && forall i | 0 <= i < |rows| :: r[i] == Converted(rows[i], convert)
  {
    seq(|rows|, i requires 0 <= i < |rows| => Converted(rows[i], convert))
  }

  /** One after the other in one list of parameters. */
  function Flatten(rows: seq<Row>): seq<Value> {
    if rows == [] then [] else Flatten(rows[..|rows| - 1]) + rows[|rows| - 1]
  }

  /** VALUES (?, ?), (?, ?), ...: the target takes the parameters row by row. */
  function Rows(values: seq<Value>, n: nat, columns: nat): seq<Row>
    decreases n
  {
    if n == 0 || |values| < columns then []
    else Rows(values[..|values| - columns], n - 1, columns) + [values[|values| - columns..]]
  }

  lemma {:induction false} FlattenThenRows(rows: seq<Row>, columns: nat)
    requires forall i | 0 <= i < |rows| :: |rows[i]| == columns
    ensures |Flatten(rows)| == |rows| * columns && Rows(Flatten(rows), |rows|, columns) == rows
  {
    if rows != [] {
      var n := |rows| - 1;
      FlattenThenRows(rows[..n], columns);
      var values := Flatten(rows);
      OneMoreRow(n, columns);
      assert values[..|values| - columns] == Flatten(rows[..n]) && values[|values| - columns..] == rows[n];
    }
  }

  lemma OneMoreRow(n: nat, columns: nat)
    ensures (n + 1) * columns == n * columns + columns
  {
  }

  class TargetTable {
    const columns: nat
    var rows: seq<Row>
    /** The largest number of parameters any statement has bound. */
    var mostBound: nat

    constructor (columns: nat)
      ensures this.columns == columns && rows == [] && mostBound == 0
    {
      this.columns, rows, mostBound := columns, [], 0;
    }

    method Insert(values: seq<Value>, n: nat)
      modifies this
      ensures rows == old(rows) + Rows(values, n, columns)
      ensures mostBound == Max(old(mostBound), |values|)
    {
      rows := rows + Rows(values, n, columns);
      mostBound := Max(mostBound, |values|);
    }
  }

  // ---------- migrateTable ----------

  function RowsPerInsert(limit: nat, columns: nat): (n: nat)
    requires 0 < columns
    ensures 0 < n && n * columns <= Max(limit, columns)
    ensures (n + 1) * columns > limit
  {
    assert limit / columns * columns <= limit < (limit / columns + 1) * columns;
    Max(1, limit / columns)
  }

  /** The values of a chunk in the order of their placeholders; a value that cannot be converted stops everything. */
  method ChunkValues(chunk: seq<Row>, convert: Converter) returns (values: Result<seq<Value>>)
    ensures values.Ok? <==> AllConvert(chunk, convert)
    ensures values.Ok? ==> values.value == Flatten(ConvertedRows(chunk, convert))
    ensures !values.NoPrimaryKey?
  {
    var flat: seq<Value> := [];
    for i := 0 to |chunk|
      invariant AllConvert(chunk[..i], convert) && flat == Flatten(ConvertedRows(chunk[..i], convert))
    {
      var row: Row := [];
      for c := 0 to |chunk[i]|
        invariant |row| == c && forall k | 0 <= k < c :: convert(k, chunk[i][k]) == Some(row[k])
      {
        var v := convert(c, chunk[i][c]);
        if v.None? {
          assert !Converts(chunk[i], convert);
          return BadValue;
        }
        row := row + [v.value];
      }
      assert Converts(chunk[i], convert) && row == Converted(chunk[i], convert);
      assert forall k | 0 <= k < i :: Converts(chunk[..i][k], convert);
      assert ConvertedRows(chunk[..i + 1], convert)[..i] == ConvertedRows(chunk[..i], convert);
      flat := flat + row;
    }
    assert chunk[..|chunk|] == chunk;
    return Ok(flat);
  }

  /** The chunks of one batch. When a value cannot be converted, whole chunks before it have been inserted. */
  method InsertBatch(batch: seq<Row>, target: TargetTable, limit: nat, convert: Converter) returns (ok: bool)
    requires 0 < target.columns && forall i | 0 <= i < |batch| :: |batch[i]| == target.columns
    modifies target
    ensures ok <==> AllConvert(batch, convert)
    ensures ok ==> target.rows == old(target.rows) + ConvertedRows(batch, convert)
    ensures target.mostBound <= Max(old(target.mostBound), Max(limit, target.columns))
    ensures !ok ==> SomeInserted(batch, convert, old(target.rows), target.rows)
  {
    hide ConvertedRows, AllConvert, Inserted, Flatten, Rows;
    var n := RowsPerInsert(limit, target.columns);
    var start := 0;
    NothingInserted(batch, convert, target.rows);
    while start < |batch|
      invariant Inserted(batch, Min(start, |batch|), convert, old(target.rows), target.rows)
      invariant target.mostBound <= Max(old(target.mostBound), Max(limit, target.columns))
      decreases |batch| - start
    {
      var end := Min(start + n, |batch|);
      ghost var before := target.rows;
      var ok := InsertChunk(batch[start..end], target, limit, n, convert);
      if !ok {
        NotAll(batch, start, end, convert);
        return false;
      }
      NextInserted(batch, start, end, convert, old(target.rows), before);
      start := start + n;
    }
    AllInserted(batch, convert, old(target.rows), target.rows);
    return true;
  }

  method InsertChunk(chunk: seq<Row>, target: TargetTable, limit: nat, n: nat, convert: Converter) returns (ok: bool)
    requires |chunk| <= n && n * target.columns <= Max(limit, target.columns)
    requires forall i | 0 <= i < |chunk| :: |chunk[i]| == target.columns
    modifies target
    ensures ok <==> AllConvert(chunk, convert)
    ensures target.rows == if ok then old(target.rows) + ConvertedRows(chunk, convert) else old(target.rows)
    ensures target.mostBound <= Max(old(target.mostBound), Max(limit, target.columns))
  {
    var values := ChunkValues(chunk, convert);
    if !values.Ok? {
      return false;
    }
    FlattenThenRows(ConvertedRows(chunk, convert), target.columns);
    BoundParameters(|chunk|, n, target.columns);
    target.Insert(values.value, |chunk|);
    return true;
  }

  /** The first `k` rows of the batch, converted, have been added to the rows there were. */
  ghost predicate Inserted(batch: seq<Row>, k: nat, convert: Converter, before: seq<Row>, after: seq<Row>) {
    k <= |batch| && AllConvert(batch[..k], convert) && after == before + ConvertedRows(batch[..k], convert)
  }

  /** Some first rows of the batch have been added, converted, and no other row. */
  ghost predicate SomeInserted(batch: seq<Row>, convert: Converter, before: seq<Row>, after: seq<Row>) {
    exists k: nat :: Inserted(batch, k, convert, before, after)
  }

  lemma NothingInserted(batch: seq<Row>, convert: Converter, rows: seq<Row>)
    ensures Inserted(batch, 0, convert, rows, rows)
  {
  }

  lemma NextInserted(batch: seq<Row>, start: nat, end: nat, convert: Converter, before: seq<Row>, rows: seq<Row>)
    requires start <= end <= |batch| && AllConvert(batch[start..end], convert)
    requires Inserted(batch, start, convert, before, rows)
    ensures Inserted(batch, end, convert, before, rows + ConvertedRows(batch[start..end], convert))
  {
    NextChunk(batch, start, end, convert);
    Associative(before, ConvertedRows(batch[..start], convert), ConvertedRows(batch[start..end], convert));
    hide AllConvert, ConvertedRows;
  }

  lemma Associative(a: seq<Row>, b: seq<Row>, c: seq<Row>)
    ensures a + (b + c) == a + b + c
  {
  }

  lemma StoppedAt(source: seq<Row>, start: nat, end: nat, convert: Converter, before: seq<Row>, rows: seq<Row>,
                  after: seq<Row>)
    requires start <= end <= |source| && Inserted(source, start, convert, before, rows)
    requires SomeInserted(source[start..end], convert, rows, after)
    ensures SomeInserted(source, convert, before, after)
  {
    var k: nat :| Inserted(source[start..end], k, convert, rows, after);
    assert source[start..end][..k] == source[start..start + k];
    NextInserted(source, start, start + k, convert, before, rows);
  }

  lemma AllInserted(batch: seq<Row>, convert: Converter, before: seq<Row>, rows: seq<Row>)
    requires Inserted(batch, |batch|, convert, before, rows)
    ensures AllConvert(batch, convert) && rows == before + ConvertedRows(batch, convert)
  {
    assert batch[..|batch|] == batch;
  }

  lemma BoundParameters(k: nat, n: nat, columns: nat)
    requires k <= n
    ensures k * columns <= n * columns
  {
  }

  lemma NotAll(batch: seq<Row>, start: nat, end: nat, convert: Converter)
    requires start <= end <= |batch| && !AllConvert(batch[start..end], convert)
    ensures !AllConvert(batch, convert)
  {
    var i :| 0 <= i < end - start && !Converts(batch[start..end][i], convert);
    assert batch[start..end][i] == batch[start + i];
  }

  lemma NextChunk(rows: seq<Row>, start: nat, end: nat, convert: Converter)
    requires start <= end <= |rows| && AllConvert(rows[..start], convert) && AllConvert(rows[start..end], convert)
    ensures AllConvert(rows[..end], convert)
    ensures ConvertedRows(rows[..end], convert)
            == ConvertedRows(rows[..start], convert) + ConvertedRows(rows[start..end], convert)
  {
    forall i | 0 <= i < end
      ensures Converts(rows[..end][i], convert)
    {
      if i < start {
        assert Converts(rows[..start][i], convert);
      } else {
        assert Converts(rows[start..end][i - start], convert);
      }
    }
  }

  method CopyBatch(ghost source: seq<Row>, ghost copied: nat, rows: seq<Row>, target: TargetTable, limit: nat,
                   convert: Converter, ghost before: seq<Row>)
    returns (ok: bool)
    requires copied + |rows| <= |source| && rows == source[copied..copied + |rows|]
    requires 0 < target.columns && forall i | 0 <= i < |rows| :: |rows[i]| == target.columns
    requires Inserted(source, copied, convert, before, target.rows)
    modifies target
    ensures ok ==> Inserted(source, copied + |rows|, convert, before, target.rows)
    ensures !ok ==> !AllConvert(source, convert)
    ensures !ok ==> SomeInserted(source, convert, before, target.rows)
    ensures target.mostBound <= Max(old(target.mostBound), Max(limit, target.columns))
  {
    hide ConvertedRows, AllConvert, Inserted;
    ghost var was := target.rows;
    ok := InsertBatch(rows, target, limit, convert);
    if ok {
      NextInserted(source, copied, copied + |rows|, convert, before, was);
    } else {
      NotAll(source, copied, copied + |rows|, convert);
      StoppedAt(source, copied, copied + |rows|, convert, before, was, target.rows);
    }
  }

  lemma NoKeyYet(rows: seq<Row>, plan: Plan)
    requires RowsFit(rows, plan)
    ensures LastKey(rows, plan, 0) == None && (LastKey(rows, plan, |rows|).Some? <==> rows != [])
  {
  }

  /** What a query brings is the next stretch of the rows; it is shorter than a batch only at their end. */
  lemma BatchFollows(source: seq<Row>, plan: Plan, copied: nat, batchSize: nat, rows: seq<Row>)
    requires InKeyOrder(source, plan) && copied <= |source| && source != [] && plan.primary != [] && 0 < batchSize
    requires LastKey(source, plan, |source|).Some?
    requires rows == Query(source, plan, LastKey(source, plan, copied), LastKey(source, plan, |source|).value,
                           batchSize)
    ensures copied + |rows| <= |source| && rows == source[copied..copied + |rows|]
    ensures |rows| < batchSize ==> copied + |rows| == |source|
    ensures 0 < plan.columns && forall i | 0 <= i < |rows| :: |rows[i]| == plan.columns && HasColumns(rows[i], plan)
    ensures rows != [] ==> LastKey(source, plan, copied + |rows|) == Some(KeyOf(rows[|rows| - 1], plan))
  {
    hide Query;
    NextBatch(source, plan, copied, batchSize);
    assert plan.primary[0] < plan.columns;
  }

  /**
   Every row of the snapshot is inserted exactly once, in key order, whatever the size of a batch; the number copied is
   the number of source rows, and no statement binds more parameters than allowed, unless one row alone needs more.
   */
  method MigrateTable(source: seq<Row>, target: TargetTable, plan: Plan, batchSize: nat, limit: nat, convert: Converter)
    returns (r: Result<Snapshot>)
    requires 0 < batchSize && plan.columns == target.columns && RowsFit(source, plan)
    requires plan.primary != [] ==> InKeyOrder(source, plan)
    modifies target
    ensures plan.primary == [] ==>
              && target.rows == old(target.rows)
              && (if source == [] then r == Ok(Snapshot(None, 0, 0)) else r == NoPrimaryKey)
    ensures plan.primary != [] ==> (r.Ok? <==> AllConvert(source, convert)) && !r.NoPrimaryKey?
    ensures r.Ok? && plan.primary != [] ==>
              && target.rows == old(target.rows) + ConvertedRows(source, convert)
              && r.value.copied == r.value.sourceCount == |source|
              && r.value.maxKey == LastKey(source, plan, |source|)
    ensures r.BadValue? ==> SomeInserted(source, convert, old(target.rows), target.rows)
    ensures target.mostBound <= Max(old(target.mostBound), Max(limit, plan.columns))
  {
    var sourceCount := |source|;
    if plan.primary == [] {
      if sourceCount > 0 {
        return NoPrimaryKey;
      }
      return Ok(Snapshot(None, 0, 0));
    }
    var maxKey := LastKey(source, plan, |source|);
    hide ConvertedRows, AllConvert, Inserted, InKeyOrder, LastKey;
    var copied, ok := CopyRows(source, target, plan, batchSize, limit, convert, maxKey);
    if !ok {
      return BadValue;
    }
    AllInserted(source, convert, old(target.rows), target.rows);
    return Ok(Snapshot(maxKey, sourceCount, copied));
  }

  /** The loop over the batches, up to the largest key of the snapshot. */
  method CopyRows(source: seq<Row>, target: TargetTable, plan: Plan, batchSize: nat, limit: nat, convert: Converter,
                  maxKey: Option<Key>)
    returns (copied: nat, ok: bool)
    requires 0 < batchSize && plan.columns == target.columns && plan.primary != []
    requires RowsFit(source, plan) && InKeyOrder(source, plan)
    requires maxKey == LastKey(source, plan, |source|)
    modifies target
    ensures ok ==> copied == |source| && Inserted(source, |source|, convert, old(target.rows), target.rows)
    ensures !ok ==> !AllConvert(source, convert) && SomeInserted(source, convert, old(target.rows), target.rows)
    ensures target.mostBound <= Max(old(target.mostBound), Max(limit, plan.columns))
  {
    hide ConvertedRows, AllConvert, Inserted, SomeInserted, Query, InKeyOrder, LastKey, KeyOf;
    var last: Option<Key> := None;
    copied := 0;
    NothingInserted(source, convert, target.rows);
    NoKeyYet(source, plan);
    while maxKey.Some?
      invariant copied <= |source| && last == LastKey(source, plan, copied)
      invariant Inserted(source, copied, convert, old(target.rows), target.rows)
      invariant target.mostBound <= Max(old(target.mostBound), Max(limit, plan.columns))
      decreases |source| - copied
    {
      var rows := Query(source, plan, last, maxKey.value, batchSize);
      BatchFollows(source, plan, copied, batchSize, rows);
      if rows == [] {
        break;
      }
      ok := CopyBatch(source, copied, rows, target, limit, convert, old(target.rows));
      if !ok {
        return;
      }
      copied := copied + |rows|;
      last := Some(KeyOf(rows[|rows| - 1], plan));
      if |rows| < batchSize {
        break;
      }
    }
    return copied, true;
  }

  // ---------- validateData ----------

  /** All tables pass exactly when each target holds what was copied and what the snapshot counted. */
  method ValidateData(snapshots: seq<Snapshot>, targetCounts: seq<nat>) returns (passed: bool)
    requires |snapshots| == |targetCounts|
    ensures passed <==>
            forall i | 0 <= i < |snapshots| :: targetCounts[i] == snapshots[i].copied == snapshots[i].sourceCount
  {
    for i := 0 to |snapshots|
      invariant forall k | 0 <= k < i :: targetCounts[k] == snapshots[k].copied == snapshots[k].sourceCount
    {
      if targetCounts[i] != snapshots[i].copied || snapshots[i].copied != snapshots[i].sourceCount {
        return false;
      }
    }
    return true;
  }
}
