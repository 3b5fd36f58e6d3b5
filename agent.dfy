/** The database-side agent: its /execute endpoint and the shaping of the
    active-session-history and top-SQL query results. The connection pool and
    what the database does with a cursor are inputs. */
module Agent {
  import opened Common
  import opened PyText
  import opened SqlExec

  const PoolNotInitialized: string := "DB Pool not initialized"
  /** str() of the TypeError raised when iterating a None `cursor.description`. */
  const NoneNotIterable: string := "'NoneType' object is not iterable"
  /** str() of the IndexError raised by row[2] on a row of fewer than three cells. */
  const RowIndexOutOfRange: string := "tuple index out of range"
  const AshNote: string := "Ensure Agent is running on DB Server with correct credentials."
  /** The wait class reported for a row whose wait_class is NULL. */
  const CpuWaitClass: string := "CPU"

  /** One entry of `cursor.description`; the model keeps its first element,
      the column name, and its type name. */
  datatype ColumnDesc = ColumnDesc(name: string, typeName: string)

  /** What the database does with the one cursor an endpoint opens:
      - executeError: the exception acquire() or execute() raised, as str(e);
      - description: cursor.description (None for a statement without a result set);
      - fetched: what fetchall() returned, or the exception it raised;
      - rowcount: cursor.rowcount. */
  datatype CursorRun = CursorRun(
    executeError: Option<string>,
    description: Option<seq<ColumnDesc>>,
    fetched: Result<seq<seq<Value>>, string>,
    rowcount: int)

  /** The module-level pool: not created (None in Python) or ready. */
  datatype Pool = Uninitialized | Ready(run: CursorRun)

  /** `[col[0] for col in cursor.description]`. */
  function ColumnNames(description: seq<ColumnDesc>): (names: seq<string>)
    ensures |names| == |description|
    ensures forall i :: 0 <= i < |description| ==> names[i] == description[i].name
  {
    seq(|description|, i requires 0 <= i < |description| => description[i].name)
  }

  /** POST /execute. Every failure becomes an error reply; nothing is raised. */
  function ExecuteQuery(sql: string, pool: Pool): (r: ExecResponse)
    ensures r.status == "success" || r.status == "error"
    ensures r.status == "error" ==> r.message.Some? && r.columns.None? && r.rows.None?
    ensures pool.Uninitialized? ==> r == ErrorReply(PoolNotInitialized)
    ensures pool.Ready? && pool.run.executeError.Some? ==> r == ErrorReply(pool.run.executeError.value)
    ensures pool.Ready? && pool.run.executeError.None? && !IsSelect(sql) ==>
      r == ExecResponse("success", None, None, Some("Executed. Rows affected: " + IntToString(pool.run.rowcount)))
    ensures pool.Ready? && pool.run.executeError.None? && IsSelect(sql) ==>
      match pool.run.description
      case None => r == ErrorReply(NoneNotIterable)
      case Some(d) =>
        match pool.run.fetched
        case Err(e) => r == ErrorReply(e)
        case Ok(rows) =>
          && r.status == "success" && r.message.None?
          && r.columns == Some(ColumnNames(d)) && r.rows == Some(rows)
  {
    match pool
    case Uninitialized => ErrorReply(PoolNotInitialized)
    case Ready(run) =>
      if run.executeError.Some? then ErrorReply(run.executeError.value)
      else if IsSelect(sql) then
        match run.description
        case None => ErrorReply(NoneNotIterable)
        case Some(d) =>
          var columns := ColumnNames(d);
          match run.fetched
          case Err(e) => ErrorReply(e)
          case Ok(rows) => ExecResponse("success", Some(columns), Some(rows), None)
      else
        ExecResponse("success", None, None, Some("Executed. Rows affected: " + IntToString(run.rowcount)))
  }

  /** A successful reply carries rows exactly when the statement was a query,
      and an error reply exactly when the pool was missing or the database
      raised. */
  lemma ExecuteQueryOutcome(sql: string, pool: Pool)
    ensures var r := ExecuteQuery(sql, pool);
      r.status == "error" <==>
        (|| pool.Uninitialized?
         || pool.run.executeError.Some?
         || (IsSelect(sql) && (pool.run.description.None? || pool.run.fetched.Err?)))
    ensures var r := ExecuteQuery(sql, pool);
      r.status == "success" ==> (r.rows.Some? <==> IsSelect(sql))
  {
  }

  /** One record of GET /metrics/ash. */
  datatype AshRecord = AshRecord(time: Value, waitClass: Value, activeSessions: Value)

  datatype AshResponse = AshRecords(records: seq<AshRecord>) | AshError(error: string, note: string)

  /** The wait class an ASH row reports: its own when truthy, else CPU. */
  function WaitClassOf(cell: Value): (w: Value)
    ensures Truthy(cell) ==> w == cell
    ensures !Truthy(cell) ==> w == Str(CpuWaitClass)
  {
    if Truthy(cell) then cell else Str(CpuWaitClass)
  }

  /** The loop of get_ash_metrics over the fetched rows: one record per row,
      in row order, or the IndexError of the first row that is too short. */
  method ShapeAshRows(rows: seq<seq<Value>>) returns (r: Result<seq<AshRecord>, string>)
    ensures r.Err? <==> exists i :: 0 <= i < |rows| && |rows[i]| < 3
    ensures r.Err? ==> r.error == RowIndexOutOfRange
    ensures r.Ok? ==> |r.value| == |rows|
    ensures r.Ok? ==> forall i :: 0 <= i < |rows| ==>
      && r.value[i].time == rows[i][0]
      && r.value[i].waitClass == WaitClassOf(rows[i][1])
      && r.value[i].activeSessions == rows[i][2]
  {
    var result: seq<AshRecord> := [];
    for i := 0 to |rows|
      invariant |result| == i
      invariant forall j :: 0 <= j < i ==> |rows[j]| >= 3
      invariant forall j :: 0 <= j < i ==>
        result[j] == AshRecord(rows[j][0], WaitClassOf(rows[j][1]), rows[j][2])
    {
      var row := rows[i];
      if |row| < 3 {
        return Err(RowIndexOutOfRange);
      }
      result := result + [AshRecord(row[0], WaitClassOf(row[1]), row[2])];
    }
    return Ok(result);
  }

  /** GET /metrics/ash: the shaped rows, or the error object with its note. */
  method GetAshMetrics(pool: Pool) returns (r: AshResponse)
    ensures pool.Uninitialized? ==> r == AshError(PoolNotInitialized, AshNote)
    ensures pool.Ready? && pool.run.executeError.Some? ==> r == AshError(pool.run.executeError.value, AshNote)
    ensures pool.Ready? && pool.run.executeError.None? && pool.run.fetched.Err? ==>
      r == AshError(pool.run.fetched.error, AshNote)
    ensures pool.Ready? && pool.run.executeError.None? && pool.run.fetched.Ok? ==>
      (r.AshError? <==> exists i :: 0 <= i < |pool.run.fetched.value| && |pool.run.fetched.value[i]| < 3)
    ensures (&& pool.Ready? && pool.run.executeError.None? && pool.run.fetched.Ok?
             && exists i :: 0 <= i < |pool.run.fetched.value| && |pool.run.fetched.value[i]| < 3)
      ==> r == AshError(RowIndexOutOfRange, AshNote)
    ensures r.AshError? ==> r.note == AshNote
    ensures r.AshRecords? ==>
      && pool.Ready? && pool.run.fetched.Ok?
      && |r.records| == |pool.run.fetched.value|
      && forall i :: 0 <= i < |r.records| ==>
        var row := pool.run.fetched.value[i];
        |row| >= 3 && r.records[i] == AshRecord(row[0], WaitClassOf(row[1]), row[2])
  {
    if pool.Uninitialized? {
      return AshError(PoolNotInitialized, AshNote);
    }
    var run := pool.run;
    if run.executeError.Some? {
      return AshError(run.executeError.value, AshNote);
    }
    if run.fetched.Err? {
      return AshError(run.fetched.error, AshNote);
    }
    var shaped := ShapeAshRows(run.fetched.value);
    if shaped.Err? {
      return AshError(shaped.error, AshNote);
    }
    return AshRecords(shaped.value);
  }

  /** The dictionary of the first n (key, value) pairs, inserted in order. */
  function ZipPrefix(keys: seq<string>, values: seq<Value>, n: nat): (d: map<string, Value>)
    requires n <= |keys| && n <= |values|
    ensures d.Keys == set i | 0 <= i < n :: keys[i]
  {
    if n == 0 then map[]
    else
      var d := ZipPrefix(keys, values, n - 1)[keys[n - 1] := values[n - 1]];
      assert (set i | 0 <= i < n :: keys[i]) == (set i | 0 <= i < n - 1 :: keys[i]) + {keys[n - 1]};
      d
  }

  /** A key that does not occur again later among the first n keys maps to
      the value in its own position. */
  lemma {:induction false} ZipPrefixLastWins(keys: seq<string>, values: seq<Value>, n: nat, i: nat)
    requires n <= |keys| && n <= |values|
    requires i < n
    requires forall j :: i < j < n ==> keys[j] != keys[i]
    ensures keys[i] in ZipPrefix(keys, values, n) && ZipPrefix(keys, values, n)[keys[i]] == values[i]
  {
    if i < n - 1 {
      ZipPrefixLastWins(keys, values, n - 1, i);
    }
  }

  /** `dict(zip(keys, values))`: pairs by position up to the shorter of the
      two; a repeated key keeps the value of its last position. */
  function ZipDict(keys: seq<string>, values: seq<Value>): (d: map<string, Value>)
    ensures d.Keys == set i | 0 <= i < Min(|keys|, |values|) :: keys[i]
    ensures forall i :: 0 <= i < Min(|keys|, |values|) ==>
      (forall j :: i < j < Min(|keys|, |values|) ==> keys[j] != keys[i]) ==> d[keys[i]] == values[i]
  {
    var n := Min(|keys|, |values|);
    LastWinsUpTo(keys, values, n);
    ZipPrefix(keys, values, n)
  }

  lemma LastWinsUpTo(keys: seq<string>, values: seq<Value>, n: nat)
    requires n <= |keys| && n <= |values|
    ensures forall i :: 0 <= i < n ==>
      (forall j :: i < j < n ==> keys[j] != keys[i]) ==> ZipPrefix(keys, values, n)[keys[i]] == values[i]
  {
    forall i | 0 <= i < n && (forall j :: i < j < n ==> keys[j] != keys[i])
      ensures ZipPrefix(keys, values, n)[keys[i]] == values[i]
    {
      ZipPrefixLastWins(keys, values, n, i);
    }
  }

  /** With distinct column names and a full row, every column maps to the
      cell in its own position. */
  lemma ZipDictOfDistinct(keys: seq<string>, values: seq<Value>)
    requires |keys| == |values|
    requires forall i, j :: 0 <= i < j < |keys| ==> keys[i] != keys[j]
    ensures ZipDict(keys, values).Keys == set k | k in keys
    ensures forall i :: 0 <= i < |keys| ==> ZipDict(keys, values)[keys[i]] == values[i]
  {
    var d := ZipDict(keys, values);
    forall k | k in keys ensures k in d.Keys {
      var i :| 0 <= i < |keys| && keys[i] == k;
    }
  }

  datatype TopSqlResponse = TopSqlRecords(records: seq<map<string, Value>>) | TopSqlError(error: string)

  /** The lower-cased column names of a description. */
  function LowerColumnNames(description: seq<ColumnDesc>): (names: seq<string>)
    ensures |names| == |description|
    ensures forall i :: 0 <= i < |description| ==> names[i] == Lower(description[i].name)
  {
    seq(|description|, i requires 0 <= i < |description| => Lower(description[i].name))
  }

  /** GET /metrics/top-sql: one dictionary per row, in row order, keyed by
      the lower-cased column names. */
  function GetTopSql(pool: Pool): (r: TopSqlResponse)
    ensures pool.Uninitialized? ==> r == TopSqlError(PoolNotInitialized)
    ensures pool.Ready? && pool.run.executeError.Some? ==> r == TopSqlError(pool.run.executeError.value)
    ensures pool.Ready? && pool.run.executeError.None? && pool.run.description.None? ==>
      r == TopSqlError(NoneNotIterable)
    ensures pool.Ready? && pool.run.executeError.None? && pool.run.description.Some? && pool.run.fetched.Err? ==>
      r == TopSqlError(pool.run.fetched.error)
    ensures pool.Ready? && pool.run.executeError.None? && pool.run.description.Some? && pool.run.fetched.Ok? ==>
      r.TopSqlRecords?
    ensures r.TopSqlRecords? ==>
      && pool.Ready? && pool.run.description.Some? && pool.run.fetched.Ok?
      && |r.records| == |pool.run.fetched.value|
      && forall i :: 0 <= i < |r.records| ==>
        r.records[i] == ZipDict(LowerColumnNames(pool.run.description.value), pool.run.fetched.value[i])
  {
    match pool
    case Uninitialized => TopSqlError(PoolNotInitialized)
    case Ready(run) =>
      if run.executeError.Some? then TopSqlError(run.executeError.value)
      else
        match run.description
        case None => TopSqlError(NoneNotIterable)
        case Some(d) =>
          var columns := LowerColumnNames(d);
          match run.fetched
          case Err(e) => TopSqlError(e)
          case Ok(rows) =>
            TopSqlRecords(seq(|rows|, i requires 0 <= i < |rows| => ZipDict(columns, rows[i])))
  }

  /** When the six top-SQL columns have distinct lower-case names and every
      row has six cells, each record maps each lower-cased column name to the
      cell in that column. */
  lemma TopSqlRecordFields(pool: Pool, i: nat, c: nat)
    requires GetTopSql(pool).TopSqlRecords?
    requires i < |GetTopSql(pool).records|
    requires var names := LowerColumnNames(pool.run.description.value);
      forall a, b :: 0 <= a < b < |names| ==> names[a] != names[b]
    requires |pool.run.fetched.value[i]| == |pool.run.description.value|
    requires c < |pool.run.description.value|
    ensures var record := GetTopSql(pool).records[i];
      var name := Lower(pool.run.description.value[c].name);
      name in record && record[name] == pool.run.fetched.value[i][c]
  {
    var names := LowerColumnNames(pool.run.description.value);
    ZipDictOfDistinct(names, pool.run.fetched.value[i]);
  }
}
