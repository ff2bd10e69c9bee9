/** The database steps: the table-name check, the SQL text the record-count
    step prepares from a comma-separated list of conditions, and the strings
    it binds to the statement's placeholders, some of them looked up in the
    parameters set by earlier steps. */
module DbSteps {
  import opened JavaLang

  /** What the parameter steps store: a String or an Integer. */
  datatype DbValue = Text(s: string) | Number(n: Int32)

  /** toString() of a stored parameter. */
  function ToText(v: DbValue): string
  {
    match v
    case Text(s) => s
    case Number(n) => IntToString(n)
  }

  // ---------------------------------------------------------------------------
  // sanitizeTable

  predicate IsTableChar(c: char)
  {
    'a' <= c <= 'z' || 'A' <= c <= 'Z' || '0' <= c <= '9' || c == '_'
  }

  /** tableName.matches("[a-zA-Z0-9_]+") */
  predicate IsTableName(s: string)
  {
    s != [] && forall i | 0 <= i < |s| :: IsTableChar(s[i])
  }

  function SanitizeTable(tableName: string): (r: Result<string>)
    ensures r.Ok? <==> IsTableName(tableName)
    ensures r.Ok? ==> r.value == tableName
    ensures r.Err? ==> r.error == IllegalArgument("Invalid table name: " + tableName)
  {
    if IsTableName(tableName) then Ok(tableName) else Err(IllegalArgument("Invalid table name: " + tableName))
  }

  /** The SQL of the row-count step, over a checked table name. */
  function RowCountQuery(tableName: string): (r: Result<string>)
    ensures r.Ok? <==> IsTableName(tableName)
    ensures r.Ok? ==> r.value == "SELECT COUNT(*) FROM " + tableName
  {
    var table :- SanitizeTable(tableName);
    Ok("SELECT COUNT(*) FROM " + table)
  }

  /** The SQL of the record-exists step: the table is checked, the column is
      spliced in as given. */
  function RecordQuery(tableName: string, column: string): (r: Result<string>)
    ensures r.Ok? <==> IsTableName(tableName)
    ensures r.Ok? ==> r.value == "SELECT * FROM " + tableName + " WHERE " + column + " = ?"
  {
    var table :- SanitizeTable(tableName);
    Ok("SELECT * FROM " + table + " WHERE " + column + " = ?")
  }

  // ---------------------------------------------------------------------------
  // buildParameterizedQuery

  /** condition.trim().split("=") */
  function Parts(condition: string): seq<string>
  {
    Split(Trim(condition), '=')
  }

  /** The clause one condition contributes: its column (the trimmed condition
      up to the first "=") and a placeholder; a condition made only of "="
      has no parts[0]. */
  function Clause(condition: string): (r: Result<string>)
    ensures r.Ok? <==> |Parts(condition)| >= 1
    ensures r.Ok? ==> r.value == Parts(condition)[0] + " = ?"
    ensures r.Ok? ==> '=' !in Parts(condition)[0]
    ensures r.Err? ==> r.error == IndexOutOfBounds
  {
    var parts := Parts(condition);
    if |parts| == 0 then Err(IndexOutOfBounds) else Ok(parts[0] + " = ?")
  }

  /** The clauses of the conditions, in order; any failing condition makes
      the whole list fail (all failures are the same exception). */
  function Clauses(conditions: seq<string>): (r: Result<seq<string>>)
    ensures r.Ok? <==> forall i | 0 <= i < |conditions| :: Clause(conditions[i]).Ok?
    ensures r.Ok? ==> |r.value| == |conditions|
    ensures r.Ok? ==> forall i | 0 <= i < |conditions| :: r.value[i] == Clause(conditions[i]).value
    ensures r.Err? ==> r.error == IndexOutOfBounds
  {
    if forall i | 0 <= i < |conditions| :: Clause(conditions[i]).Ok? then
      Ok(seq(|conditions|, i requires 0 <= i < |conditions| && Clause(conditions[i]).Ok? => Clause(conditions[i]).value))
    else Err(IndexOutOfBounds)
  }

  /** The text before the first clause. */
  function QueryHead(tableName: string): string
  {
    "SELECT * FROM " + tableName + " WHERE "
  }

  /** buildParameterizedQuery: the table name is not checked; the clauses of
      the comma-separated conditions are joined with " AND ". */
  function ParameterizedQuery(tableName: string, parameters: string): (r: Result<string>)
    ensures r.Ok? <==> Clauses(Split(parameters, ',')).Ok?
    ensures r.Ok? ==> r.value == QueryHead(tableName) + Join(Clauses(Split(parameters, ',')).value, " AND ")
  {
    var clauses :- Clauses(Split(parameters, ','));
    Ok(QueryHead(tableName) + Join(clauses, " AND "))
  }

  /** How often c occurs in s. */
  function Occurrences(s: string, c: char): nat
  {
    multiset(s)[c]
  }

  /** A clause holds exactly one "?" when its condition holds none. */
  lemma ClauseHasOnePlaceholder(condition: string)
    requires '?' !in condition
    requires Clause(condition).Ok?
    ensures Occurrences(Clause(condition).value, '?') == 1
  {
    var t := Trim(condition);
    var i := LeadingTrimmable(condition);
    assert '?' !in t by {
      assert forall j | 0 <= j < |t| :: t[j] == condition[i + j];
    }
    var column := Parts(condition)[0];
    if '=' in t {
      PiecesAvoid(t, '=', '?');
      assert column == Pieces(t, '=')[0];
    }
    assert '?' !in column;
    assert multiset(column)['?'] == 0;
    assert Clause(condition).value == column + " = ?";
    assert multiset(" = ?")['?'] == 1;
  }

  /** Joining strings of one "?" each with " AND " gives as many "?" as
      strings. */
  lemma {:induction false} JoinedPlaceholders(clauses: seq<string>)
    requires forall i | 0 <= i < |clauses| :: Occurrences(clauses[i], '?') == 1
    ensures Occurrences(Join(clauses, " AND "), '?') == |clauses|
    decreases |clauses|
  {
    if |clauses| == 1 {
    } else if |clauses| > 1 {
      JoinedPlaceholders(clauses[1..]);
      assert clauses == [clauses[0]] + clauses[1..];
      JoinCons(clauses[0], clauses[1..], " AND ");
      assert multiset(" AND ")['?'] == 0;
    }
  }

  /** Every clause of conditions without "?" holds one "?". */
  lemma EachClauseOnePlaceholder(parameters: string)
    requires '?' !in parameters
    requires Clauses(Split(parameters, ',')).Ok?
    ensures var clauses := Clauses(Split(parameters, ',')).value;
      forall i | 0 <= i < |clauses| :: Occurrences(clauses[i], '?') == 1
  {
    var conditions := Split(parameters, ',');
    SplitAvoids(parameters, ',', '?');
    forall i | 0 <= i < |conditions|
      ensures Occurrences(Clauses(conditions).value[i], '?') == 1
    {
      ClauseHasOnePlaceholder(conditions[i]);
    }
  }

  lemma OccurrencesAppend(a: string, b: string, c: char)
    ensures Occurrences(a + b, c) == Occurrences(a, c) + Occurrences(b, c)
  {
    assert multiset(a + b) == multiset(a) + multiset(b);
  }

  /** The query holds exactly one "?" per condition when neither the table
      name nor the conditions hold one. */
  lemma PlaceholderPerCondition(tableName: string, parameters: string)
    requires '?' !in tableName && '?' !in parameters
    requires ParameterizedQuery(tableName, parameters).Ok?
    ensures Occurrences(ParameterizedQuery(tableName, parameters).value, '?') == |Split(parameters, ',')|
  {
    var clauses := Clauses(Split(parameters, ',')).value;
    EachClauseOnePlaceholder(parameters);
    JoinedPlaceholders(clauses);
    HeadHasNoPlaceholder(tableName);
    OccurrencesAppend(QueryHead(tableName), Join(clauses, " AND "), '?');
  }

  lemma HeadHasNoPlaceholder(tableName: string)
    requires '?' !in tableName
    ensures Occurrences(QueryHead(tableName), '?') == 0
  {
    var select, where := "SELECT * FROM ", " WHERE ";
    assert '?' !in select && '?' !in where;
    assert QueryHead(tableName) == select + tableName + where;
    NoOccurrence(select, '?');
    NoOccurrence(tableName, '?');
    NoOccurrence(where, '?');
    OccurrencesAppend(select, tableName, '?');
    OccurrencesAppend(select + tableName, where, '?');
  }

  lemma NoOccurrence(s: string, c: char)
    requires c !in s
    ensures Occurrences(s, c) == 0
  {
    assert c !in multiset(s);
  }

  // ---------------------------------------------------------------------------
  // setParameters

  /** The string bound for one condition: parts[1], or the stored value's text
      when parts[1] names a stored parameter; a condition without a second
      part fails. */
  function Binding(queryParameters: map<string, DbValue>, condition: string): (r: Result<string>)
    ensures r.Ok? <==> |Parts(condition)| >= 2
    ensures r.Ok? && Parts(condition)[1] in queryParameters ==> r.value == ToText(queryParameters[Parts(condition)[1]])
    ensures r.Ok? && Parts(condition)[1] !in queryParameters ==> r.value == Parts(condition)[1]
    ensures r.Err? ==> r.error == IndexOutOfBounds
  {
    var parts := Parts(condition);
    if |parts| < 2 then Err(IndexOutOfBounds)
    else if parts[1] in queryParameters then Ok(ToText(queryParameters[parts[1]]))
    else Ok(parts[1])
  }

  /** The strings bound to positions 1, 2, ... in order; any condition that
      cannot be bound makes the whole list fail. */
  function Bindings(queryParameters: map<string, DbValue>, conditions: seq<string>): (r: Result<seq<string>>)
    ensures r.Ok? <==> forall i | 0 <= i < |conditions| :: Binding(queryParameters, conditions[i]).Ok?
    ensures r.Ok? ==> |r.value| == |conditions|
    ensures r.Ok? ==> forall i | 0 <= i < |conditions| :: r.value[i] == Binding(queryParameters, conditions[i]).value
    ensures r.Err? ==> r.error == IndexOutOfBounds
  {
    if forall i | 0 <= i < |conditions| :: Binding(queryParameters, conditions[i]).Ok? then
      Ok(seq(|conditions|, i requires 0 <= i < |conditions| && Binding(queryParameters, conditions[i]).Ok? =>
                              Binding(queryParameters, conditions[i]).value))
    else Err(IndexOutOfBounds)
  }

  /** Whenever every position can be bound, the query can be built, and it
      has as many placeholders as there are bound strings (given no "?" in
      the table name or conditions). */
  lemma BindingsFitQuery(queryParameters: map<string, DbValue>, tableName: string, parameters: string)
    requires Bindings(queryParameters, Split(parameters, ',')).Ok?
    ensures ParameterizedQuery(tableName, parameters).Ok?
    ensures '?' !in tableName && '?' !in parameters ==>
      Occurrences(ParameterizedQuery(tableName, parameters).value, '?')
      == |Bindings(queryParameters, Split(parameters, ',')).value|
  {
    if '?' !in tableName && '?' !in parameters {
      PlaceholderPerCondition(tableName, parameters);
    }
  }

  /** A condition without a value, such as "a" or "a=", cannot be bound. */
  lemma MissingValue(queryParameters: map<string, DbValue>, column: string)
    requires column != [] && !IsTrimmable(column[0]) && !IsTrimmable(column[|column| - 1])
    requires '=' !in column
    ensures Binding(queryParameters, column).Err?
    ensures Binding(queryParameters, column + "=").Err?
  {
    TrimUntrimmed(column);
    var withSep := column + "=";
    assert withSep[0] == column[0];
    TrimUntrimmed(withSep);
    PiecesBeforeSep(column, '=');
    assert DropTrailingEmpty([column, ""]) == [column] by {
      assert [column, ""][..1] == [column];
    }
  }

  /** Appending the next clause to the text built so far. */
  lemma AppendClause(head: string, done: seq<string>, c: string)
    ensures (if done == [] then head else head + Join(done, " AND ") + " AND ") + c
         == head + Join(done + [c], " AND ")
  {
    if done == [] {
      assert done + [c] == [c];
    } else {
      JoinSnoc(done, c, " AND ");
      assert head + Join(done, " AND ") + " AND " + c == head + (Join(done, " AND ") + " AND " + c);
    }
  }

  lemma CollectedClauses(conditions: seq<string>, done: seq<string>)
    requires |done| == |conditions|
    requires forall j | 0 <= j < |conditions| :: Clause(conditions[j]) == Ok(done[j])
    ensures Clauses(conditions) == Ok(done)
  {
    assert Clauses(conditions).Ok?;
    assert forall j | 0 <= j < |conditions| :: Clauses(conditions).value[j] == done[j];
    assert Clauses(conditions).value == done;
  }

  lemma CollectedBindings(queryParameters: map<string, DbValue>, conditions: seq<string>, bound: seq<string>)
    requires |bound| == |conditions|
    requires forall j | 0 <= j < |conditions| :: Binding(queryParameters, conditions[j]) == Ok(bound[j])
    ensures Bindings(queryParameters, conditions) == Ok(bound)
  {
    assert Bindings(queryParameters, conditions).Ok?;
    assert forall j | 0 <= j < |conditions| :: Bindings(queryParameters, conditions).value[j] == bound[j];
    assert Bindings(queryParameters, conditions).value == bound;
  }

  lemma ClauseAdded(conditions: seq<string>, done: seq<string>, c: string)
    requires |done| < |conditions|
    requires forall j | 0 <= j < |done| :: Clause(conditions[j]) == Ok(done[j])
    requires Clause(conditions[|done|]) == Ok(c)
    ensures forall j | 0 <= j < |done| + 1 :: Clause(conditions[j]) == Ok((done + [c])[j])
  {
  }

  lemma BindingAdded(queryParameters: map<string, DbValue>, conditions: seq<string>, bound: seq<string>, v: string)
    requires |bound| < |conditions|
    requires forall j | 0 <= j < |bound| :: Binding(queryParameters, conditions[j]) == Ok(bound[j])
    requires Binding(queryParameters, conditions[|bound|]) == Ok(v)
    ensures forall j | 0 <= j < |bound| + 1 :: Binding(queryParameters, conditions[j]) == Ok((bound + [v])[j])
  {
  }

  class DbStepDefinitions {
    var queryParameters: map<string, DbValue>

    constructor()
      ensures queryParameters == map[]
    {
      queryParameters := map[];
    }

    method StringParameterSet(key: string, value: string)
      modifies this
      ensures queryParameters == old(queryParameters)[key := Text(value)]
    {
      queryParameters := queryParameters[key := Text(value)];
    }

    method SetIntParameter(key: string, value: Int32)
      modifies this
      ensures queryParameters == old(queryParameters)[key := Number(value)]
    {
      queryParameters := queryParameters[key := Number(value)];
    }

    /** buildParameterizedQuery, appending clause by clause. */
    method BuildParameterizedQuery(tableName: string, parameters: string) returns (r: Result<string>)
      ensures r == ParameterizedQuery(tableName, parameters)
    {
      var conditions := Split(parameters, ',');
      ghost var head := QueryHead(tableName);
      var sql := QueryHead(tableName);
      ghost var done: seq<string> := [];
      var i := 0;
      while i < |conditions|
        invariant 0 <= i <= |conditions| && |done| == i
        invariant forall j | 0 <= j < i :: Clause(conditions[j]) == Ok(done[j])
        invariant i == 0 ==> sql == head
        invariant 0 < i < |conditions| ==> sql == head + Join(done, " AND ") + " AND "
        invariant 0 < i == |conditions| ==> sql == head + Join(done, " AND ")
        invariant done == [] <==> i == 0
      {
        var clause := ClauseFor(conditions[i]);
        if clause.Err? {
          return Err(clause.error);
        }
        var c := clause.value;
        AppendClause(head, done, c);
        ClauseAdded(conditions, done, c);
        sql := sql + c;
        if i < |conditions| - 1 {
          sql := sql + " AND ";
        }
        done := done + [c];
        i := i + 1;
      }
      CollectedClauses(conditions, done);
      if conditions == [] {
        assert Join(done, " AND ") == "";
        assert sql == head + Join(done, " AND ");
      }
      return Ok(sql);
    }

    /** One round of buildParameterizedQuery: the text appended for one
        condition, before any " AND ". */
    method ClauseFor(condition: string) returns (r: Result<string>)
      ensures r == Clause(condition)
    {
      var parts := Split(Trim(condition), '=');
      if |parts| == 0 {
        return Err(IndexOutOfBounds);
      }
      return Ok(parts[0] + " = ?");
    }

    /** setParameters, as the list of strings bound to positions 1, 2, ... */
    method SetParameters(parameters: string) returns (r: Result<seq<string>>)
      ensures r == Bindings(queryParameters, Split(parameters, ','))
    {
      var conditions := Split(parameters, ',');
      var bound: seq<string> := [];
      var i := 0;
      while i < |conditions|
        invariant 0 <= i <= |conditions| && |bound| == i
        invariant forall j | 0 <= j < i :: Binding(queryParameters, conditions[j]) == Ok(bound[j])
      {
        var value := BindCondition(conditions[i]);
        if value.Err? {
          return Err(value.error);
        }
        BindingAdded(queryParameters, conditions, bound, value.value);
        bound := bound + [value.value];
        i := i + 1;
      }
      CollectedBindings(queryParameters, conditions, bound);
      return Ok(bound);
    }

    /** One round of setParameters: the string bound for one condition. */
    method BindCondition(condition: string) returns (r: Result<string>)
      ensures r == Binding(queryParameters, condition)
    {
      var parts := Split(Trim(condition), '=');
      if |parts| < 2 {
        return Err(IndexOutOfBounds);
      }
      var value := parts[1];
      if value in queryParameters {
        value := ToText(queryParameters[value]);
      }
      return Ok(value);
    }
  }
}
