/** The query assembly inside the `Jobs` persistence class (models/job.js):
the filtered listing query of `findAll` and the partial `UPDATE` statement of
`update`. Executing a statement is left to a caller-supplied database
function; only the text and the positional arguments are modelled. */
module Jobs {
  import opened Outcomes
  import opened Decimal
  import opened Placeholders
  import opened Sql

  // ---------------------------------------------------------------------
  // findAll

  /** The `equity` filter as the code distinguishes it: absent (`null` or
      `undefined`), exactly the string `"0"`, or any other value. */
  datatype EquityFilter = NoEquity | EquityStringZero | EquityOther

  /** The listing filters. An empty `title` stands for a falsy or missing
      title; `minSalary` is any value other than `null`/`undefined` when
      present, zero included. */
  datatype Filters<+V> = Filters(title: string, minSalary: Option<V>, equity: EquityFilter)

  /** A bound parameter of the listing query: the title text or the
      minimum salary value. */
  datatype Param<+V> = Text(text: string) | Value(value: V)

  /** Query text under construction and the parameters bound so far. */
  datatype Query<+P> = Query(text: string, params: seq<P>)

  /** `n` spaces: the indentation inside the `findAll` and `update`
      template literals. */
  function Indent(n: nat): (s: string)
    ensures |s| == n && '$' !in s
  {
    seq(n, _ => ' ')
  }

  /** The listing query before any filter, line by line as in the template
      literal: `SELECT id, title, salary, equity, company_handle FROM jobs`. */
  const BaseQuery: string :=
    "\n" + Indent(12) + "SELECT id,\n"
    + Indent(20) + "title,\n"
    + Indent(19) + "salary,\n"
    + Indent(19) + "equity,\n"
    + Indent(19) + "company_handle\n"
    + Indent(12) + "FROM jobs"

  /** The title filter, whose placeholder is the literal `$1`. */
  const TitleCondition: string := TitleBefore + "$1" + TitleAfter
  const TitleBefore: string := " WHERE title ILIKE '%' || "
  const TitleAfter: string := " || '%'"
  const SalaryCondition: string := " salary >= "
  const EquityCondition: string := " equity = 0"

  /** ` WHERE` when nothing is bound yet, otherwise ` AND`. */
  function Keyword<P>(params: seq<P>): (r: string)
    ensures r == " WHERE" || r == " AND"
    ensures r == " WHERE" <==> |params| == 0
  {
    if |params| == 0 then " WHERE" else " AND"
  }

  /** A non-empty title adds the substring match on the literal `$1` and binds
      the title. */
  function AddTitle<V>(q: Query<Param<V>>, title: string): (r: Query<Param<V>>)
    ensures q.text <= r.text && (r.text == q.text <==> title == "")
    ensures q.params <= r.params && |r.params| == |q.params| + (if title == "" then 0 else 1)
    ensures title != "" ==> r.params[|q.params|] == Text(title)
  {
    if title != "" then Query(q.text + TitleCondition, q.params + [Text(title)]) else q
  }

  /** A present minimum salary adds a lower bound on the next placeholder and
      binds it. */
  function AddMinSalary<V>(q: Query<Param<V>>, minSalary: Option<V>): (r: Query<Param<V>>)
    ensures q.text <= r.text && (r.text == q.text <==> minSalary.None?)
    ensures q.params <= r.params && |r.params| == |q.params| + (if minSalary.None? then 0 else 1)
    ensures minSalary.Some? ==> r.params[|q.params|] == Value(minSalary.value)
  {
    match minSalary
    case None => q
    case Some(m) =>
      Query(q.text + Keyword(q.params) + SalaryCondition + Placeholder(|q.params| + 1), q.params + [Value(m)])
  }

  /** A present equity filter adds `equity = 0` and binds nothing; only the
      string `"0"` gets a keyword in front. */
  function AddEquity<V>(q: Query<Param<V>>, equity: EquityFilter): (r: Query<Param<V>>)
    ensures q.text <= r.text && (r.text == q.text <==> equity == NoEquity)
    ensures r.params == q.params
  {
    match equity
    case NoEquity => q
    case EquityStringZero => Query(q.text + Keyword(q.params) + EquityCondition, q.params)
    case EquityOther => Query(q.text + EquityCondition, q.params)
  }

  /** The listing query for optional filters `data`. It extends the base
      query; it binds the title first and the minimum salary last, and
      nothing else; it is the bare base query exactly when no filter is
      present. */
  function FindAll<V>(data: Option<Filters<V>>): (q: Query<Param<V>>)
    ensures BaseQuery <= q.text
    ensures data.None? ==> q.params == []
    ensures data.Some? ==>
              |q.params| == (if data.value.title != "" then 1 else 0) + (if data.value.minSalary.Some? then 1 else 0)
    ensures data.Some? && data.value.title != "" ==> q.params[0] == Text(data.value.title)
    ensures data.Some? && data.value.minSalary.Some? ==> q.params[|q.params| - 1] == Value(data.value.minSalary.value)
    ensures q == Query(BaseQuery, []) <==> (data.None? || data.value == Filters("", None, NoEquity))
  {
    var q0 := Query(BaseQuery, []);
    match data
    case None => q0
    case Some(f) => AddEquity(AddMinSalary(AddTitle(q0, f.title), f.minSalary), f.equity)
  }

  /** The title condition holds the single placeholder `$1`. */
  lemma TitleConditionScan()
    ensures Scan(TitleCondition) == [1]
  {
    assert Placeholder(1) == "$1" by {
      assert NatToString(1) == "1";
    }
    ScanSingleMarker(TitleBefore, 1, TitleAfter);
  }

  /** The title step always contributes placeholder 1, however many
      parameters are already bound: it is numbered correctly only because it
      runs first. */
  lemma TitlePlaceholderIsOne<V>(q: Query<Param<V>>, title: string)
    requires title != ""
    ensures Scan(AddTitle(q, title).text) == Scan(q.text) + [1]
    ensures |AddTitle(q, title).params| == |q.params| + 1
  {
    TitleConditionScan();
    assert TitleCondition[0] == ' ';
    ScanAppend(q.text, TitleCondition);
  }

  /** The salary condition after either keyword holds just the placeholder. */
  lemma SalaryConditionScan(keyword: string, k: nat)
    requires keyword == " WHERE" || keyword == " AND"
    ensures Scan(keyword + SalaryCondition + Placeholder(k)) == [k]
  {
    var before := keyword + SalaryCondition;
    assert '$' !in before;
    ScanNoDollar(before);
    ScanAround(before, k, "");
    assert before + Placeholder(k) + "" == keyword + SalaryCondition + Placeholder(k);
  }

  /** The salary step contributes the placeholder numbered one past the
      parameters already bound. */
  lemma MinSalaryPlaceholder<V>(q: Query<Param<V>>, m: V)
    ensures Scan(AddMinSalary(q, Some(m)).text) == Scan(q.text) + [|q.params| + 1]
    ensures |AddMinSalary(q, Some(m)).params| == |q.params| + 1
  {
    var k := |q.params| + 1;
    var added := Keyword(q.params) + SalaryCondition + Placeholder(k);
    calc {
      Scan(AddMinSalary(q, Some(m)).text);
      { assert AddMinSalary(q, Some(m)).text == q.text + added; }
      Scan(q.text + added);
      { assert added[0] == ' ';
        ScanAppend(q.text, added); }
      Scan(q.text) + Scan(added);
      { SalaryConditionScan(Keyword(q.params), k); }
      Scan(q.text) + [k];
    }
  }

  /** The equity step adds no placeholder and binds nothing. */
  lemma EquityAddsNoPlaceholder<V>(q: Query<Param<V>>, equity: EquityFilter)
    ensures Scan(AddEquity(q, equity).text) == Scan(q.text)
    ensures AddEquity(q, equity).params == q.params
  {
    var added := match equity
      case NoEquity => ""
      case EquityStringZero => Keyword(q.params) + EquityCondition
      case EquityOther => EquityCondition;
    assert AddEquity(q, equity).text == q.text + added;
    ScanNoDollar(added);
    ScanAppend(q.text, added);
  }

  /** Every placeholder of the listing query is numbered `1 .. |params|`,
      each once and in order, so `$k` binds the `k`-th parameter. */
  lemma FindAllPlaceholders<V>(data: Option<Filters<V>>)
    ensures Scan(FindAll(data).text) == Upto(1, |FindAll(data).params|)
  {
    var q0: Query<Param<V>> := Query(BaseQuery, []);
    assert Scan(q0.text) == [] by {
      BaseQueryFixedText();
      ScanNoDollar(BaseQuery);
    }
    if data.Some? {
      var f := data.value;
      var q1 := AddTitle(q0, f.title);
      assert Scan(q1.text) == Upto(1, |q1.params|) by {
        if f.title != "" {
          TitlePlaceholderIsOne(q0, f.title);
        }
      }
      var q2 := AddMinSalary(q1, f.minSalary);
      assert Scan(q2.text) == Upto(1, |q2.params|) by {
        if f.minSalary.Some? {
          MinSalaryPlaceholder(q1, f.minSalary.value);
          assert Upto(1, |q2.params|) == Upto(1, |q1.params|) + [|q1.params| + 1];
        }
      }
      EquityAddsNoPlaceholder(q2, f.equity);
      assert FindAll(data) == AddEquity(q2, f.equity);
    }
  }

  /** The base query contains no `$`. */
  lemma BaseQueryFixedText()
    ensures '$' !in BaseQuery
  {
  }

  /** The listing query written out case by case, with the keywords and
      placeholder numbers spelled literally. */
  function ReferenceText<V>(f: Filters<V>): string {
    var hasTitle := f.title != "";
    var hasMin := f.minSalary.Some?;
    BaseQuery
    + (if hasTitle then TitleCondition else "")
    + (if hasMin && hasTitle then " AND" + SalaryCondition + "$2"
       else if hasMin then " WHERE" + SalaryCondition + "$1"
       else "")
    + (match f.equity
       case NoEquity => ""
       case EquityOther => EquityCondition
       case EquityStringZero => (if hasTitle || hasMin then " AND" else " WHERE") + EquityCondition)
  }

  function ReferenceParams<V>(f: Filters<V>): seq<Param<V>> {
    (if f.title != "" then [Text(f.title)] else [])
    + (match f.minSalary case None => [] case Some(m) => [Value(m)])
  }

  /** The salary step after at most one bound parameter, spelled out. */
  lemma MinSalaryText<V>(q: Query<Param<V>>, m: V)
    requires |q.params| <= 1
    ensures AddMinSalary(q, Some(m)).text
         == q.text + (if |q.params| == 1 then " AND" + SalaryCondition + "$2" else " WHERE" + SalaryCondition + "$1")
  {
    if |q.params| == 1 {
      assert Placeholder(2) == "$2" by {
        assert NatToString(2) == "2";
      }
    } else {
      assert Placeholder(1) == "$1" by {
        assert NatToString(1) == "1";
      }
    }
  }

  /** `findAll` agrees with the case-by-case text: the keyword before the
      salary bound is ` WHERE` exactly when no title is given, an equity
      value other than `"0"` yields ` equity = 0` with no keyword at all, and
      the parameters are the title then the minimum salary. */
  lemma FindAllMatchesReference<V>(f: Filters<V>)
    ensures FindAll(Some(f)) == Query(ReferenceText(f), ReferenceParams(f))
  {
    var hasTitle := f.title != "";
    var hasMin := f.minSalary.Some?;
    var q0: Query<Param<V>> := Query(BaseQuery, []);
    var q1 := AddTitle(q0, f.title);
    var q2 := AddMinSalary(q1, f.minSalary);
    var titlePart := if hasTitle then TitleCondition else "";
    var minPart :=
      if hasMin && hasTitle then " AND" + SalaryCondition + "$2"
      else if hasMin then " WHERE" + SalaryCondition + "$1"
      else "";
    var equityPart :=
      match f.equity
      case NoEquity => ""
      case EquityOther => EquityCondition
      case EquityStringZero => (if hasTitle || hasMin then " AND" else " WHERE") + EquityCondition;
    assert q1.text == BaseQuery + titlePart;
    assert q2.text == BaseQuery + titlePart + minPart by {
      if hasMin {
        MinSalaryText(q1, f.minSalary.value);
      }
    }
    assert q2.params == ReferenceParams(f);
    assert AddEquity(q2, f.equity).text == q2.text + equityPart by {
      assert (|q2.params| == 0) == (!hasTitle && !hasMin);
    }
  }

  // ---------------------------------------------------------------------
  // update

  /** The fixed field map `update` passes: every job field maps to the
      column of the same name. */
  const JobFieldMap: map<string, string> := map["title" := "title", "salary" := "salary", "equity" := "equity"]

  /** The pieces of the `UPDATE` template literal around `${setCols}` and
      `${handleVarIdx}`. */
  const UpdateHead: string := "UPDATE jobs \n" + Indent(22) + "SET "
  const UpdateWhereId: string := " \n" + Indent(22) + "WHERE id = "
  const UpdateReturning: string :=
    " \n" + Indent(22) + "RETURNING \n"
    + Indent(32) + "title, \n"
    + Indent(32) + "salary, \n"
    + Indent(32) + "equity,\n"
    + Indent(32) + "id,\n"
    + Indent(32) + "company_handle"

  /** A statement ready for the database: text and positional arguments. */
  datatype Statement<+V> = Statement(text: string, args: seq<V>)

  /** The `UPDATE` statement for job `id`: the payload's `SET` list followed
      by `WHERE id = $n+1`. An empty payload throws before any statement
      exists; otherwise the arguments are the payload values in order and
      then the id, last. */
  function UpdateStatement<V>(id: V, data: seq<Field<V>>): (r: Result<Statement<V>>)
    ensures r.Err? <==> |data| == 0
    ensures r.Err? ==> r.error == BadRequest(NoDataMessage)
    ensures r.Ok? ==> |r.value.args| == |data| + 1 && r.value.args[|data|] == id
    ensures r.Ok? ==> forall i :: 0 <= i < |data| ==> r.value.args[i] == data[i].value
  {
    match SqlForPartialUpdate(data, JobFieldMap)
    case Err(e) => Err(e)
    case Ok(u) =>
      var handleVarIdx := Placeholder(|u.values| + 1);
      Ok(Statement(UpdateHead + u.setCols + UpdateWhereId + handleVarIdx + UpdateReturning, u.values + [id]))
  }

  /** Numbering continues across the two fragments of the statement: the
      `SET` list, after the fixed head, holds `$1 .. $n` for the `n` payload
      values, and the rest holds the single marker `$n+1` right after
      `WHERE id = `, which is the position of the id in the arguments. So the
      whole statement's placeholders are `1 .. |args|` in order. Holds when
      no payload key contains a `$`. */
  lemma UpdatePlaceholders<V>(id: V, data: seq<Field<V>>)
    requires |data| > 0
    requires forall i :: 0 <= i < |data| ==> DollarFree(data[i].key)
    ensures UpdateStatement(id, data).Ok?
    ensures var u := SqlForPartialUpdate(data, JobFieldMap).value;
            var s := UpdateStatement(id, data).value;
            && s.text == UpdateHead + u.setCols + UpdateWhereId + Placeholder(|s.args|) + UpdateReturning
            && Scan(UpdateHead + u.setCols) == Upto(1, |data|)
            && Scan(UpdateWhereId + Placeholder(|s.args|) + UpdateReturning) == [|s.args|]
            && s.args[|s.args| - 1] == id
            && forall i :: 0 <= i < |data| ==> s.args[i] == u.values[i]
    ensures var s := UpdateStatement(id, data).value;
            Scan(s.text) == Upto(1, |s.args|)
  {
    forall i | 0 <= i < |data|
      ensures DollarFree(ColumnFor(JobFieldMap, data[i].key))
    {
      JobColumnsAreKeys(data[i].key);
    }
    var u := SqlForPartialUpdate(data, JobFieldMap).value;
    var s := UpdateStatement(id, data).value;
    UpdateFixedText();
    calc {
      Scan(UpdateHead + u.setCols);
      { ScanAppend(UpdateHead, u.setCols); }
      Scan(UpdateHead) + Scan(u.setCols);
      { ScanNoDollar(UpdateHead); assert [] + Scan(u.setCols) == Scan(u.setCols); }
      Scan(u.setCols);
      { SetClausePlaceholders(data, JobFieldMap); }
      Upto(1, |data|);
    }
    ScanSingleMarker(UpdateWhereId, |s.args|, UpdateReturning);
    ScanNumbered(s.text, UpdateHead + u.setCols, UpdateWhereId + Placeholder(|s.args|) + UpdateReturning, |s.args|);
  }

  /** The job field map renames nothing: every key is its own column. */
  lemma JobColumnsAreKeys(key: string)
    ensures ColumnFor(JobFieldMap, key) == key
  {
  }

  /** A text made of a part numbered `1 .. k-1` and a part holding just `$k`
      is numbered `1 .. k`. */
  lemma ScanNumbered(text: string, numbered: string, last: string, k: nat)
    requires k >= 1 && text == numbered + last
    requires |last| > 0 && !IsDigit(last[0])
    requires Scan(numbered) == Upto(1, k - 1) && Scan(last) == [k]
    ensures Scan(text) == Upto(1, k)
  {
    calc {
      Scan(text);
      { ScanAppend(numbered, last); }
      Scan(numbered) + Scan(last);
      Upto(1, k - 1) + [k];
      { UptoSnoc(1, k - 1); }
      Upto(1, k);
    }
  }

  /** The fixed parts of the `UPDATE` template contain no `$` and do not
      start with a digit. */
  lemma UpdateFixedText()
    ensures '$' !in UpdateHead && '$' !in UpdateWhereId && '$' !in UpdateReturning
    ensures UpdateWhereId[0] == ' ' && UpdateReturning[0] == ' '
  {
  }

  /** Placeholders of a statement assembled from `$`-free fixed text around a
      fragment and one marker. */
  lemma ScanStatement(head: string, fragment: string, middle: string, k: nat, tail: string)
    requires '$' !in head && '$' !in middle && '$' !in tail
    requires |fragment| > 0 && !IsDigit(fragment[0])
    requires |middle| > 0 && !IsDigit(middle[0])
    requires |tail| > 0 && !IsDigit(tail[0])
    ensures Scan(head + fragment + middle + Placeholder(k) + tail) == Scan(fragment) + [k]
  {
    calc {
      Scan(head + fragment + middle + Placeholder(k) + tail);
      { ScanAround(head + fragment + middle, k, tail); }
      Scan(head + fragment + middle) + [k] + Scan(tail);
      { ScanNoDollar(tail); }
      Scan(head + fragment + middle) + [k];
      { ScanFixedAppend(head + fragment, middle); }
      Scan(head + fragment) + [k];
      { ScanAppend(head, fragment);
        ScanNoDollar(head);
        assert [] + Scan(fragment) == Scan(fragment); }
      Scan(fragment) + [k];
    }
  }

  /** What one call of `update` did: the statements it sent to the database
      and what it returned or threw. */
  datatype UpdateRun<+V, +R> = UpdateRun(issued: seq<Statement<V>>, result: Result<R>)

  const NotFoundMessage := "No jobs found"

  /** `update` against a database `db` that maps a statement to the rows it
      returns. An empty payload throws `BadRequestError` and sends nothing;
      otherwise exactly one statement is sent, binding the id last, and the
      call throws `NotFoundError` exactly when no row comes back, else returns
      the first row. */
  function Update<V, R>(id: V, data: seq<Field<V>>, db: Statement<V> -> seq<R>): (run: UpdateRun<V, R>)
    ensures |data| == 0 ==> run == UpdateRun([], Err(BadRequest(NoDataMessage)))
    ensures |data| > 0 ==> |run.issued| == 1 && UpdateStatement(id, data) == Ok(run.issued[0])
    ensures |data| > 0 ==> |run.issued[0].args| == |data| + 1 && run.issued[0].args[|data|] == id
    ensures |data| > 0 ==> (run.result.Err? <==> |db(run.issued[0])| == 0)
    ensures |data| > 0 && run.result.Err? ==> run.result.error == NotFound(NotFoundMessage)
    ensures |data| > 0 && run.result.Ok? ==> run.result.value == db(run.issued[0])[0]
  {
    match UpdateStatement(id, data)
    case Err(e) => UpdateRun([], Err(e))
    case Ok(statement) =>
      var rows := db(statement);
      if |rows| == 0 then UpdateRun([statement], Err(NotFound(NotFoundMessage)))
      else UpdateRun([statement], Ok(rows[0]))
  }
}
