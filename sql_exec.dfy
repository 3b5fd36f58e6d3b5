/** What the agent's and the server's SQL endpoints share: how a statement is
    classified as a query, and the shape of the reply. */
module SqlExec {
  import opened Common
  import opened PyText

  const SelectKeyword: string := "SELECT"

  /** `sql.strip().upper().startswith("SELECT")`: the stripped statement
      begins with the six letters of SELECT, in any letter case. */
  predicate IsSelect(sql: string)
    ensures IsSelect(sql) <==> BeginsWithSelectWord(Strip(sql))
  {
    UpperPrefix(Strip(sql));
    SelectKeyword <= Upper(Strip(sql))
  }

  /** upper() turns a text into one starting with SELECT exactly when the
      text's first six characters are the letters of SELECT. */
  lemma UpperPrefix(u: string)
    ensures SelectKeyword <= Upper(u) <==> BeginsWithSelectWord(u)
  {
    if BeginsWithSelectWord(u) {
      assert Upper(u)[..6] == SelectKeyword;
    }
  }

  /** t begins with the six letters of SELECT, in any letter case. */
  predicate BeginsWithSelectWord(t: string)
  {
    |t| >= 6 && forall k :: 0 <= k < 6 ==> UpperChar(t[k]) == SelectKeyword[k]
  }

  lemma UpperLetterIsNotSpace(c: char, k: nat)
    requires k < 6 && UpperChar(c) == SelectKeyword[k]
    ensures !IsSpace(c)
  {
  }

  /** A text that begins with the SELECT letters keeps them through
      TrimRight and upper(). */
  lemma SelectWordSurvives(t: string)
    requires BeginsWithSelectWord(t)
    ensures SelectKeyword <= Upper(TrimRight(t))
  {
    var u := TrimRight(t);
    if |u| < 6 {
      assert IsSpace(t[5]) by { assert t[5] == t[|u|..][5 - |u|]; }
      UpperLetterIsNotSpace(t[5], 5);
    }
    forall k | 0 <= k < 6 ensures Upper(u)[k] == SelectKeyword[k] {
      assert u[k] == t[k];
    }
    assert Upper(u)[..6] == SelectKeyword;
  }

  /** Conversely, SELECT at the head of the trimmed, upper-cased text comes
      from the text's own first six characters. */
  lemma SelectWordOrigin(t: string)
    requires SelectKeyword <= Upper(TrimRight(t))
    ensures BeginsWithSelectWord(t)
  {
    var u := TrimRight(t);
    forall k | 0 <= k < 6 ensures UpperChar(t[k]) == SelectKeyword[k] {
      assert Upper(u)[k] == SelectKeyword[k];
      assert u[k] == t[k];
    }
  }

  /** The classification, stated without strip and upper: a statement is a
      query exactly when its first non-whitespace characters spell SELECT in
      any letter case (so "SELECTION ..." counts, "WITH ... SELECT" does not). */
  lemma IsSelectExactly(w: string, t: string)
    requires AllSpace(w)
    requires t == [] || !IsSpace(t[0])
    ensures IsSelect(w + t) <==> BeginsWithSelectWord(t)
  {
    TrimLeftOfPadded(w, t);
    assert Strip(w + t) == TrimRight(t);
    if BeginsWithSelectWord(t) {
      SelectWordSurvives(t);
    }
    if IsSelect(w + t) {
      SelectWordOrigin(t);
    }
  }

  /** Leading whitespace and lower case do not matter: any indented
      "select ..." is a query. */
  lemma IndentedLowerCaseSelect(w: string, rest: string)
    requires AllSpace(w)
    ensures IsSelect(w + "select" + rest)
  {
    var t := "select" + rest;
    assert w + "select" + rest == w + t;
    LowerSelectBegins(t, rest);
    IsSelectExactly(w, t);
  }

  lemma LowerSelectBegins(t: string, rest: string)
    requires t == "select" + rest
    ensures BeginsWithSelectWord(t) && !IsSpace(t[0])
  {
    assert t[..6] == "select";
    forall k | 0 <= k < 6 ensures UpperChar(t[k]) == SelectKeyword[k] {
      assert t[k] == "select"[k];
    }
  }

  /** A DML statement is not a query. */
  lemma UpdateIsNotQuery()
    ensures !IsSelect("UPDATE t SET x = 1")
  {
    var u := "UPDATE t SET x = 1";
    assert u[0] == 'U';
    assert !BeginsWithSelectWord(u) by {
      assert UpperChar(u[0]) != SelectKeyword[0];
    }
    assert [] + u == u;
    IsSelectExactly([], u);
  }

  /** The reply of an execute endpoint, as its JSON keys: status, and
      whichever of columns, rows and message it carries. */
  datatype ExecResponse = ExecResponse(
    status: string,
    columns: Option<seq<string>>,
    rows: Option<seq<seq<Value>>>,
    message: Option<string>)

  function ErrorReply(message: string): (r: ExecResponse)
    ensures r.status == "error" && r.message == Some(message) && r.columns.None? && r.rows.None?
  {
    ExecResponse("error", None, None, Some(message))
  }
}
