/** The server's SQL editor endpoint when no agent is configured: a canned
    result table for a query, a canned message for anything else. The values
    random.randint and random.choice return are inputs. */
module Editor {
  import opened Common
  import opened PyText
  import opened SqlExec

  const MockColumns: seq<string> := ["ID", "NAME", "STATUS", "CREATED_AT", "VALUE"]
  const MockStatuses: seq<string> := ["ACTIVE", "INACTIVE", "PENDING"]
  const MockCreatedAt: string := "2023-01-01 12:00:00"
  /** `range(1, 11)`: rows 1 to 10. */
  const MockRowCount: nat := 10
  const QueryDone: string := "Query executed successfully."

  /** The random values one mock row draws: the name suffix
      (randint(1000, 9999)), the index random.choice picks among the three
      statuses, and the value (randint(10, 1000)). */
  datatype RowDraws = RowDraws(nameSuffix: int, statusIndex: int, value: int)

  /** All random values one call may draw: ten rows' worth for a query, the
      affected-row count (randint(1, 100)) for anything else. */
  datatype Draws = Draws(rows: seq<RowDraws>, affected: int)

  /** The draws lie where random.randint and random.choice put them. */
  predicate ValidDraws(d: Draws)
  {
    && |d.rows| == MockRowCount
    && (forall k :: 0 <= k < |d.rows| ==>
         1000 <= d.rows[k].nameSuffix <= 9999 && 0 <= d.rows[k].statusIndex < 3 && 10 <= d.rows[k].value <= 1000)
    && 1 <= d.affected <= 100
  }

  const DmlPrefix: string := "Statement executed successfully. "
  const DmlSuffix: string := " rows affected."

  /** The reply text for a statement that is not a query: the affected-row
      count, written in decimal, reads back from between the fixed prefix and
      suffix. */
  function DmlMessage(affected: nat): (m: string)
    ensures DmlPrefix <= m
    ensures |m| >= |DmlPrefix| + |DmlSuffix|
    ensures m[|m| - |DmlSuffix|..] == DmlSuffix
    ensures m[|DmlPrefix|..|m| - |DmlSuffix|] == NatToString(affected)
    ensures ParseNat(m[|DmlPrefix|..|m| - |DmlSuffix|]) == Some(affected)
  {
    var m := DmlPrefix + NatToString(affected) + DmlSuffix;
    MiddleOf(DmlPrefix, NatToString(affected), DmlSuffix);
    ParseNatToString(affected);
    assert m[..|DmlPrefix|] == DmlPrefix;
    assert m[|m| - |DmlSuffix|..] == DmlSuffix;
    m
  }

  /** Mock row number `id` (counting from 1), built from its draws. */
  function MockRow(id: nat, d: RowDraws): (row: seq<Value>)
    requires 0 <= d.statusIndex < |MockStatuses| && 10 <= d.value <= 1000
    ensures |row| == |MockColumns|
    ensures row[0] == Int(id)
    ensures row[1] == Str("Item_" + NatToString(id) + "_" + IntToString(d.nameSuffix))
    ensures row[2] == Str(MockStatuses[d.statusIndex]) && row[2].s in MockStatuses
    ensures row[3] == Str(MockCreatedAt)
    ensures row[4] == Int(d.value) && 10 <= row[4].i <= 1000
  {
    [Int(id),
     Str("Item_" + NatToString(id) + "_" + IntToString(d.nameSuffix)),
     Str(MockStatuses[d.statusIndex]),
     Str(MockCreatedAt),
     Int(d.value)]
  }

  /** The loop `for i in range(1, 11)`: row k (from 0) is mock row k + 1,
      built from the k-th draws. */
  method MockRows(draws: Draws) returns (rows: seq<seq<Value>>)
    requires ValidDraws(draws)
    ensures |rows| == MockRowCount
    ensures forall k :: 0 <= k < MockRowCount ==> rows[k] == MockRow(k + 1, draws.rows[k])
  {
    rows := [];
    for i := 1 to MockRowCount + 1
      invariant |rows| == i - 1
      invariant forall k :: 0 <= k < i - 1 ==> rows[k] == MockRow(k + 1, draws.rows[k])
    {
      rows := rows + [MockRow(i, draws.rows[i - 1])];
    }
  }

  /** POST /api/editor/execute without an agent. */
  method MockExecute(sql: string, draws: Draws) returns (r: ExecResponse)
    requires ValidDraws(draws)
    ensures r.status == "success"
    ensures !IsSelect(sql) ==> r == ExecResponse("success", None, None, Some(DmlMessage(draws.affected)))
    ensures IsSelect(sql) ==> r.columns == Some(MockColumns) && r.message == Some(QueryDone)
    ensures IsSelect(sql) ==> r.rows.Some? && |r.rows.value| == MockRowCount
    ensures IsSelect(sql) ==> forall k :: 0 <= k < MockRowCount ==>
      var row, d := r.rows.value[k], draws.rows[k];
      && |row| == |MockColumns|
      && row[0] == Int(k + 1)
      && row[1] == Str("Item_" + NatToString(k + 1) + "_" + IntToString(d.nameSuffix))
      && row[2] == Str(MockStatuses[d.statusIndex]) && row[2].s in MockStatuses
      && row[3] == Str(MockCreatedAt)
      && row[4] == Int(d.value) && 10 <= row[4].i <= 1000
  {
    if !IsSelect(sql) {
      return ExecResponse("success", None, None, Some(DmlMessage(draws.affected)));
    }
    var rows := MockRows(draws);
    return ExecResponse("success", Some(MockColumns), Some(rows), Some(QueryDone));
  }
}
