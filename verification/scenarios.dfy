/** Concrete instances of the composers: the repository's own unit test of the
partial-update helper and the worked cases of the listing and update
queries, each checked against the general model. */
module Scenarios {
  import opened Outcomes
  import opened Decimal
  import opened Placeholders
  import opened Sql
  import opened Jobs

  /** The mixed values the examples bind. */
  datatype Scalar = Str(s: string) | Num(n: int)

  function NoSalaryFilters(title: string, equity: EquityFilter): Filters<Scalar> {
    Filters(title, None, equity)
  }

  /** The unit test of the helper: a map of empty strings maps every key to
      itself, and the three keys are numbered `$1`, `$2`, `$3`. */
  lemma PartialUpdateTestCase()
    ensures SqlForPartialUpdate(
              [Field("name", Str("test")), Field("lastName", Str("user")), Field("age", Num(31))],
              map["name" := "", "lastName" := "", "age" := ""])
         == Ok(PartialUpdate("\"name\"=$1, \"lastName\"=$2, \"age\"=$3", [Str("test"), Str("user"), Num(31)]))
  {
    var data := [Field("name", Str("test")), Field("lastName", Str("user")), Field("age", Num(31))];
    var jsToSql := map["name" := "", "lastName" := "", "age" := ""];
    var c1, c2, c3 := "\"name\"=$1", "\"lastName\"=$2", "\"age\"=$3";
    calc {
      SqlForPartialUpdate(data, jsToSql);
      { ThreeFields(data, jsToSql); }
      Ok(PartialUpdate(Condition(ColumnFor(jsToSql, "name"), 1) + Separator
                       + Condition(ColumnFor(jsToSql, "lastName"), 2) + Separator
                       + Condition(ColumnFor(jsToSql, "age"), 3),
                       [Str("test"), Str("user"), Num(31)]));
      Ok(PartialUpdate(Condition("name", 1) + Separator + Condition("lastName", 2) + Separator + Condition("age", 3),
                       [Str("test"), Str("user"), Num(31)]));
      { TestConditions(); }
      Ok(PartialUpdate(c1 + Separator + c2 + Separator + c3, [Str("test"), Str("user"), Num(31)]));
      { assert c1 + Separator + c2 + Separator + c3 == "\"name\"=$1, \"lastName\"=$2, \"age\"=$3"; }
      Ok(PartialUpdate("\"name\"=$1, \"lastName\"=$2, \"age\"=$3", [Str("test"), Str("user"), Num(31)]));
    }
  }

  /** The three conditions of the unit test, spelled out. */
  lemma TestConditions()
    ensures Condition("name", 1) == "\"name\"=$1"
    ensures Condition("lastName", 2) == "\"lastName\"=$2"
    ensures Condition("age", 3) == "\"age\"=$3"
  {
    assert Placeholder(1) == "$1" by { assert NatToString(1) == "1"; }
    assert Placeholder(2) == "$2" by { assert NatToString(2) == "2"; }
    assert Placeholder(3) == "$3" by { assert NatToString(3) == "3"; }
  }

  /** A three-field payload, written out. */
  lemma ThreeFields<V>(data: seq<Field<V>>, jsToSql: map<string, string>)
    requires |data| == 3
    ensures SqlForPartialUpdate(data, jsToSql)
         == Ok(PartialUpdate(Condition(ColumnFor(jsToSql, data[0].key), 1) + Separator
                             + Condition(ColumnFor(jsToSql, data[1].key), 2) + Separator
                             + Condition(ColumnFor(jsToSql, data[2].key), 3),
                             [data[0].value, data[1].value, data[2].value]))
  {
    var conds := Conditions(Columns(data, jsToSql), 1);
    assert conds == [conds[0], conds[1], conds[2]];
    JoinThree(conds[0], conds[1], conds[2], Separator);
    var values := Values(data);
    assert values == [values[0], values[1], values[2]];
  }

  lemma JoinThree(a: string, b: string, c: string, sep: string)
    ensures Join([a, b, c], sep) == a + sep + b + sep + c
  {
    assert [b, c][1..] == [c];
    assert Join([b, c], sep) == b + sep + c;
    assert [a, b, c][1..] == [b, c];
  }

  /** A key missing from the map is its own column. */
  lemma UnmappedKeyFallback()
    ensures SqlForPartialUpdate([Field("age", Num(5))], map[]) == Ok(PartialUpdate("\"age\"=$1", [Num(5)]))
  {
    assert Placeholder(1) == "$1" by { assert NatToString(1) == "1"; }
    var cols := Columns([Field("age", Num(5))], map[]);
    assert cols[0] == "age";
    assert Condition("age", 1) == "\"age\"=$1";
    assert Conditions(cols, 1) == ["\"age\"=$1"];
    assert Join(["\"age\"=$1"], Separator) == "\"age\"=$1";
    assert Values([Field("age", Num(5))]) == [Num(5)];
  }

  /** Title and minimum salary: ` WHERE` for the first, ` AND` for the second,
      parameters in that order. */
  lemma TitleAndMinSalary()
    ensures FindAll(Some(Filters("eng", Some(Num(50000)), NoEquity)))
         == Query(BaseQuery + TitleCondition + " AND" + SalaryCondition + "$2", [Text("eng"), Value(Num(50000))])
  {
    FindAllMatchesReference(Filters("eng", Some(Num(50000)), NoEquity));
  }

  /** A minimum salary of zero is a filter, not an absent one. */
  lemma MinSalaryZero()
    ensures FindAll(Some(Filters("", Some(Num(0)), NoEquity)))
         == Query(BaseQuery + " WHERE" + SalaryCondition + "$1", [Value(Num(0))])
  {
    FindAllMatchesReference(Filters("", Some(Num(0)), NoEquity));
  }

  /** An equity value other than the string `"0"`, alone, is appended with no
      keyword after `FROM jobs`. */
  lemma EquityOtherHasNoKeyword()
    ensures FindAll(Some(NoSalaryFilters("", EquityOther))) == Query(BaseQuery + EquityCondition, [])
  {
    FindAllMatchesReference(NoSalaryFilters("", EquityOther));
  }

  /** A two-field update binds the id third and refers to it as `$3`. */
  lemma TwoFieldUpdate()
    ensures var r := UpdateStatement(Num(7), [Field("title", Str("dev")), Field("salary", Num(1))]);
            && r.Ok?
            && r.value.args == [Str("dev"), Num(1), Num(7)]
            && Scan(r.value.text) == [1, 2, 3]
  {
    var data := [Field("title", Str("dev")), Field("salary", Num(1))];
    assert DollarFree(data[0].key) && DollarFree(data[1].key);
    TwoFields(Num(7), data);
  }

  /** A two-field update, written out: three arguments, three placeholders. */
  lemma TwoFields<V>(id: V, data: seq<Field<V>>)
    requires |data| == 2 && DollarFree(data[0].key) && DollarFree(data[1].key)
    ensures var r := UpdateStatement(id, data);
            && r.Ok?
            && r.value.args == [data[0].value, data[1].value, id]
            && Scan(r.value.text) == [1, 2, 3]
  {
    var r := UpdateStatement(id, data).value;
    calc {
      Scan(r.text);
      { UpdatePlaceholders(id, data); }
      Upto(1, |r.args|);
      Upto(1, 3);
      { assert Upto(1, 3) == [1, 2, 3]; }
      [1, 2, 3];
    }
    assert r.args == [r.args[0], r.args[1], r.args[2]];
  }
}
