/** The partial-update helper `sqlForPartialUpdate` (helpers/sql.js): from an
ordered update payload and a field-to-column map it builds the text of a SQL
`SET` list, `"col1"=$1, "col2"=$2, ...`, and the parallel list of values
bound to those placeholders.

Besides the operation itself the module holds a parser for the `SET` text it
emits; the round-trip lemma `SetClauseRoundTrip` reads the columns and the
placeholder numbers back out of the text and matches them with the values. */
module Sql {
  import opened Outcomes
  import opened Decimal
  import opened Placeholders

  /** One key of the update payload with its new value. The payload is the
      sequence of its fields in enumeration order. */
  datatype Field<+V> = Field(key: string, value: V)

  /** The helper's result: the `SET` text and the values, `$k` binding the
      `k`-th value. */
  datatype PartialUpdate<+V> = PartialUpdate(setCols: string, values: seq<V>)

  /** One `"column"=$index` condition read back from a `SET` text. */
  datatype Assignment = Assignment(column: string, index: nat)

  const Separator := ", "
  const NoDataMessage := "No data"

  /** `jsToSql[key] || key`: the mapped column name when the map holds a
      non-empty string for the key, otherwise the key itself; an empty
      mapping never empties the column of a non-empty key. */
  function ColumnFor(jsToSql: map<string, string>, key: string): (c: string)
    ensures c == key || (key in jsToSql && c == jsToSql[key])
    ensures key in jsToSql && jsToSql[key] != "" ==> c == jsToSql[key]
    ensures c == "" ==> key == ""
  {
    if key in jsToSql && jsToSql[key] != "" then jsToSql[key] else key
  }

  /** One condition: the double-quoted column, `=`, and the placeholder. */
  function Condition(column: string, index: nat): string {
    "\"" + column + "\"=" + Placeholder(index)
  }

  /** The column name of every payload key, in payload order. */
  function Columns<V>(data: seq<Field<V>>, jsToSql: map<string, string>): (cols: seq<string>)
    ensures |cols| == |data|
  {
    seq(|data|, i requires 0 <= i < |data| => ColumnFor(jsToSql, data[i].key))
  }

  /** `Object.values`: the payload values, in payload order. */
  function Values<V>(data: seq<Field<V>>): (values: seq<V>)
    ensures |values| == |data|
  {
    seq(|data|, i requires 0 <= i < |data| => data[i].value)
  }

  /** The conditions for `columns`, numbered consecutively from `first`. */
  function Conditions(columns: seq<string>, first: nat): (conds: seq<string>)
    ensures |conds| == |columns|
  {
    seq(|columns|, i requires 0 <= i < |columns| => Condition(columns[i], first + i))
  }

  /** `Array.prototype.join`: the parts with `sep` between neighbours; the
      result opens with the first part. */
  function Join(parts: seq<string>, sep: string): (r: string)
    ensures |parts| > 0 ==> parts[0] <= r
    decreases |parts|
  {
    if |parts| == 0 then ""
    else if |parts| == 1 then parts[0]
    else parts[0] + sep + Join(parts[1..], sep)
  }

  /** A join of parts opens with the first part and closes with the last
      part: no separator leads or trails. For non-empty parts, in
      particular, its first and last characters are those of the first and
      last parts. */
  lemma {:induction false} JoinEnds(parts: seq<string>, sep: string)
    requires |parts| > 0
    requires forall i :: 0 <= i < |parts| ==> |parts[i]| > 0
    ensures parts[0] <= Join(parts, sep)
    ensures var r, last := Join(parts, sep), parts[|parts| - 1];
            |last| <= |r| && r[|r| - |last|..] == last
    ensures |Join(parts, sep)| > 0
    ensures Join(parts, sep)[0] == parts[0][0]
    ensures Join(parts, sep)[|Join(parts, sep)| - 1] == parts[|parts| - 1][|parts[|parts| - 1]| - 1]
    decreases |parts|
  {
    var r, last := Join(parts, sep), parts[|parts| - 1];
    if |parts| > 1 {
      var rest := Join(parts[1..], sep);
      JoinEnds(parts[1..], sep);
      assert r == parts[0] + sep + rest;
      assert r[|r| - |rest|..] == rest;
      assert r[|r| - |last|..] == rest[|rest| - |last|..];
    }
    assert r[|r| - |last|..][|last| - 1] == last[|last| - 1];
  }

  /** The helper. An empty payload throws `BadRequestError("No data")`;
      otherwise the `i`-th value is the `i`-th payload value and the text is a
      non-empty list of conditions that opens with a quote and closes with a
      placeholder digit. */
  function SqlForPartialUpdate<V>(dataToUpdate: seq<Field<V>>, jsToSql: map<string, string>): (r: Result<PartialUpdate<V>>)
    ensures r.Err? <==> |dataToUpdate| == 0
    ensures r.Err? ==> r.error == BadRequest(NoDataMessage)
    ensures r.Ok? ==> |r.value.values| == |dataToUpdate|
    ensures r.Ok? ==> forall i :: 0 <= i < |dataToUpdate| ==> r.value.values[i] == dataToUpdate[i].value
    ensures r.Ok? ==> |r.value.setCols| > 0 && r.value.setCols[0] == '"'
    ensures r.Ok? ==> IsDigit(r.value.setCols[|r.value.setCols| - 1])
  {
    if |dataToUpdate| == 0 then Err(BadRequest(NoDataMessage))
    else
      var conds := Conditions(Columns(dataToUpdate, jsToSql), 1);
      JoinEnds(conds, Separator);
      Ok(PartialUpdate(Join(conds, Separator), Values(dataToUpdate)))
  }

  // ---------------------------------------------------------------------
  // Reading a SET text back

  /** Position of the first `c` in `s`, or `|s|` when there is none. */
  function IndexOf(s: string, c: char): (k: nat)
    ensures k <= |s|
    ensures forall i :: 0 <= i < k ==> s[i] != c
    ensures k < |s| ==> s[k] == c
    decreases |s|
  {
    if |s| == 0 then 0 else if s[0] == c then 0 else 1 + IndexOf(s[1..], c)
  }

  /** Reads `=$n` from the front of `s`, returning `n` with the text after
      it; the digit run after `$` is maximal and has no leading zero, as
      the helper never writes one. */
  function ParseIndex(s: string): (r: Option<(nat, string)>)
    ensures r.Some? ==> |r.value.1| < |s|
  {
    if |s| < 2 || s[0] != '=' || s[1] != '$' then None
    else
      var n := DigitRun(s[2..]);
      if n == 0 || (n > 1 && s[2] == '0') then None
      else
        assert s[2..n + 2] == s[2..][..n];
        Some((ParseDigits(s[2..n + 2]), s[n + 2..]))
  }

  /** Reads one `"column"=$n` from the front of `s`, returning it with the
      text after it. */
  function ParseCondition(s: string): (r: Option<(Assignment, string)>)
    ensures r.Some? ==> |r.value.1| < |s|
  {
    if |s| == 0 || s[0] != '"' then None
    else
      var k := IndexOf(s[1..], '"');
      if k + 1 == |s| then None
      else
        match ParseIndex(s[k + 2..])
        case None => None
        case Some((n, rest)) => Some((Assignment(s[1..k + 1], n), rest))
  }

  /** Reads a whole `SET` text: one or more conditions separated by `, `. */
  function ParseSetClause(s: string): (r: Option<seq<Assignment>>)
    ensures r.Some? ==> |r.value| > 0
    decreases |s|
  {
    match ParseCondition(s)
    case None => None
    case Some((a, rest)) =>
      if |rest| == 0 then Some([a])
      else if |rest| >= 2 && rest[..2] == Separator then
        match ParseSetClause(rest[2..])
        case None => None
        case Some(more) => Some([a] + more)
      else None
  }

  /** The assignments `Conditions(columns, first)` stands for. */
  function Assignments(columns: seq<string>, first: nat): (a: seq<Assignment>)
    ensures |a| == |columns|
  {
    seq(|columns|, i requires 0 <= i < |columns| => Assignment(columns[i], first + i))
  }

  /** The `SET` text that lists `assignments`, in the helper's format. */
  function Render(assignments: seq<Assignment>): string {
    Join(seq(|assignments|, i requires 0 <= i < |assignments| =>
                Condition(assignments[i].column, assignments[i].index)), Separator)
  }

  predicate QuoteFree(s: string) {
    '"' !in s
  }

  predicate DollarFree(s: string) {
    '$' !in s
  }

  /** The first quote after a quote-free prefix is the one that ends it. */
  lemma IndexOfAfter(prefix: string, s: string)
    requires QuoteFree(prefix)
    requires |s| > 0 && s[0] == '"'
    ensures IndexOf(prefix + s, '"') == |prefix|
  {
    var t := prefix + s;
    var k := IndexOf(t, '"');
    assert t[|prefix|] == '"';
    assert forall i :: 0 <= i < |prefix| ==> t[i] == prefix[i];
  }

  /** `=$k` parses back to `k` when the text after it does not continue the
      number. */
  lemma ParseIndexOf(index: nat, suffix: string)
    requires |suffix| == 0 || !IsDigit(suffix[0])
    ensures ParseIndex("=" + Placeholder(index) + suffix) == Some((index, suffix))
  {
    var d := NatToString(index);
    var s := "=" + Placeholder(index) + suffix;
    assert s[..2] == "=$";
    assert s[2..] == d + suffix;
    DigitRunAppend(d, suffix);
    DigitRunAll(d);
    assert s[2..|d| + 2] == d;
    assert s[|d| + 2..] == suffix;
    ParseNatToString(index);
  }

  /** A condition parses back to its column and number, leaving the text after
      it untouched, provided the column has no quote and that text does not
      continue the number. */
  lemma ParseConditionOf(column: string, index: nat, suffix: string)
    requires QuoteFree(column)
    requires |suffix| == 0 || !IsDigit(suffix[0])
    ensures ParseCondition(Condition(column, index) + suffix) == Some((Assignment(column, index), suffix))
  {
    var tail := "=" + Placeholder(index) + suffix;
    var s := Condition(column, index) + suffix;
    assert s == "\"" + (column + ("\"" + tail));
    assert s[1..] == column + ("\"" + tail);
    IndexOfAfter(column, "\"" + tail);
    assert s[|column| + 2..] == tail;
    assert s[1..|column| + 1] == column;
    ParseIndexOf(index, suffix);
  }

  lemma ConditionsTail(columns: seq<string>, first: nat)
    requires |columns| > 0
    ensures Conditions(columns, first)[0] == Condition(columns[0], first)
    ensures Conditions(columns, first)[1..] == Conditions(columns[1..], first + 1)
  {
  }

  lemma AssignmentsTail(columns: seq<string>, first: nat)
    requires |columns| > 0
    ensures Assignments(columns, first) == [Assignment(columns[0], first)] + Assignments(columns[1..], first + 1)
  {
  }

  /** A condition, the separator and a parsable text parse as that condition
      followed by what the text parses to. */
  lemma ParseSetClauseCons(column: string, index: nat, tail: string)
    requires QuoteFree(column)
    requires ParseSetClause(tail).Some?
    ensures ParseSetClause(Condition(column, index) + Separator + tail)
         == Some([Assignment(column, index)] + ParseSetClause(tail).value)
  {
    var rest := Separator + tail;
    assert Condition(column, index) + Separator + tail == Condition(column, index) + rest;
    ParseConditionOf(column, index, rest);
    assert rest[..2] == Separator;
    assert rest[2..] == tail;
  }

  /** Parsing a joined list of conditions gives back every column with its
      number, in order. */
  lemma {:induction false} ParseJoin(columns: seq<string>, first: nat)
    requires |columns| > 0
    requires forall i :: 0 <= i < |columns| ==> QuoteFree(columns[i])
    ensures ParseSetClause(Join(Conditions(columns, first), Separator)) == Some(Assignments(columns, first))
    decreases |columns|
  {
    var conds := Conditions(columns, first);
    if |columns| == 1 {
      ConditionsTail(columns, first);
      assert Join(conds, Separator) == Condition(columns[0], first) + "";
      ParseConditionOf(columns[0], first, "");
      assert Assignments(columns, first) == [Assignment(columns[0], first)];
    } else {
      ConditionsTail(columns, first);
      ParseJoin(columns[1..], first + 1);
      var tail := Join(conds[1..], Separator);
      assert Join(conds, Separator) == Condition(columns[0], first) + Separator + tail;
      ParseSetClauseCons(columns[0], first, tail);
      AssignmentsTail(columns, first);
    }
  }

  /** A condition holds exactly its own placeholder when its column has no `$`. */
  lemma ScanCondition(column: string, index: nat)
    requires DollarFree(column)
    ensures Scan(Condition(column, index)) == [index]
  {
    var head := "\"" + column + "\"=";
    ScanNoDollar(head);
    ScanAround(head, index, "");
    assert head + Placeholder(index) + "" == Condition(column, index);
  }

  /** Scanning a condition, the separator and a text that opens with a quote. */
  lemma ScanCons(column: string, index: nat, tail: string)
    requires DollarFree(column)
    requires |tail| > 0 && tail[0] == '"'
    ensures Scan(Condition(column, index) + Separator + tail) == [index] + Scan(tail)
  {
    var c := Condition(column, index);
    calc {
      Scan(c + Separator + tail);
      { assert c + Separator + tail == c + (Separator + tail);
        ScanAppend(c, Separator + tail); }
      Scan(c) + Scan(Separator + tail);
      { ScanCondition(column, index); }
      [index] + Scan(Separator + tail);
      { ScanAppend(Separator, tail);
        ScanNoDollar(Separator);
        assert [] + Scan(tail) == Scan(tail); }
      [index] + Scan(tail);
    }
  }

  /** Scanning a joined list of conditions finds the numbers `first, first + 1,
      ...`, one per condition, provided no column contains a `$`. */
  lemma {:induction false} ScanJoin(columns: seq<string>, first: nat)
    requires forall i :: 0 <= i < |columns| ==> DollarFree(columns[i])
    ensures Scan(Join(Conditions(columns, first), Separator)) == Upto(first, |columns|)
    decreases |columns|
  {
    if |columns| == 1 {
      ConditionsTail(columns, first);
      ScanCondition(columns[0], first);
    } else if |columns| > 1 {
      ScanJoin(columns[1..], first + 1);
      ScanJoinStep(columns, first);
    }
  }

  /** One step of `ScanJoin`: the first condition contributes `first`, the
      rest whatever the join of the remaining conditions contributes. */
  lemma ScanJoinStep(columns: seq<string>, first: nat)
    requires |columns| > 1 && DollarFree(columns[0])
    requires Scan(Join(Conditions(columns[1..], first + 1), Separator)) == Upto(first + 1, |columns| - 1)
    ensures Scan(Join(Conditions(columns, first), Separator)) == Upto(first, |columns|)
  {
    var conds := Conditions(columns, first);
    ConditionsTail(columns, first);
    var tail := Join(conds[1..], Separator);
    assert |tail| > 0 && tail[0] == '"' by {
      JoinEnds(conds[1..], Separator);
      assert conds[1..][0] == Condition(columns[1], first + 1);
    }
    calc {
      Scan(Join(conds, Separator));
      { assert Join(conds, Separator) == Condition(columns[0], first) + Separator + tail; }
      Scan(Condition(columns[0], first) + Separator + tail);
      { ScanCons(columns[0], first, tail); }
      [first] + Scan(tail);
      [first] + Upto(first + 1, |columns| - 1);
      Upto(first, |columns|);
    }
  }

  /** Round trip: parsing the text of a non-empty update yields exactly one
      condition per payload key, in payload order; the `i`-th names the
      key's mapped column, or the key itself when the map has no non-empty
      entry for it, and carries placeholder `$i+1`, which binds that key's
      value. Holds when no column name contains a double quote (the helper
      does not escape them). */
  lemma SetClauseRoundTrip<V>(dataToUpdate: seq<Field<V>>, jsToSql: map<string, string>)
    requires |dataToUpdate| > 0
    requires forall i :: 0 <= i < |dataToUpdate| ==> QuoteFree(ColumnFor(jsToSql, dataToUpdate[i].key))
    ensures SqlForPartialUpdate(dataToUpdate, jsToSql).Ok?
    ensures var u := SqlForPartialUpdate(dataToUpdate, jsToSql).value;
            var parsed := ParseSetClause(u.setCols);
            && parsed.Some?
            && |parsed.value| == |dataToUpdate| == |u.values|
            && forall i :: 0 <= i < |dataToUpdate| ==>
                 && parsed.value[i].column ==
                      (if dataToUpdate[i].key in jsToSql && jsToSql[dataToUpdate[i].key] != ""
                       then jsToSql[dataToUpdate[i].key] else dataToUpdate[i].key)
                 && parsed.value[i].index == i + 1
                 && u.values[parsed.value[i].index - 1] == dataToUpdate[i].value
  {
    var columns := Columns(dataToUpdate, jsToSql);
    var u := SqlForPartialUpdate(dataToUpdate, jsToSql).value;
    assert u.setCols == Join(Conditions(columns, 1), Separator);
    ParseJoin(columns, 1);
    var parsed := Assignments(columns, 1);
    assert forall i :: 0 <= i < |dataToUpdate| ==> parsed[i] == Assignment(columns[i], i + 1);
  }

  /** The placeholders of the text are exactly `$1 ... $n` for an `n`-key
      payload, in order, so they match the value list one to one. Holds when
      no column name contains a `$`. */
  lemma SetClausePlaceholders<V>(dataToUpdate: seq<Field<V>>, jsToSql: map<string, string>)
    requires |dataToUpdate| > 0
    requires forall i :: 0 <= i < |dataToUpdate| ==> DollarFree(ColumnFor(jsToSql, dataToUpdate[i].key))
    ensures SqlForPartialUpdate(dataToUpdate, jsToSql).Ok?
    ensures var u := SqlForPartialUpdate(dataToUpdate, jsToSql).value;
            Scan(u.setCols) == Upto(1, |u.values|)
  {
    var columns := Columns(dataToUpdate, jsToSql);
    assert SqlForPartialUpdate(dataToUpdate, jsToSql).value.setCols == Join(Conditions(columns, 1), Separator);
    ScanJoin(columns, 1);
  }

  /** `=$n` is read back only from exactly the text `Placeholder(n)` writes:
      the parser accepts no other spelling of a number. */
  lemma ParseIndexInverse(s: string)
    requires ParseIndex(s).Some?
    ensures s == "=" + Placeholder(ParseIndex(s).value.0) + ParseIndex(s).value.1
  {
    var t := s[2..];
    var n := DigitRun(t);
    var d := t[..n];
    var rest := s[n + 2..];
    assert d == s[2..n + 2] && ParseIndex(s).value == (ParseDigits(d), rest);
    calc {
      s;
      { assert s == s[..2] + d + rest; }
      "=$" + d + rest;
      { NatToStringParse(d); }
      "=" + Placeholder(ParseDigits(d)) + rest;
    }
  }

  /** A condition is read back only from exactly the text `Condition` writes
      for it, and its column has no quote. */
  lemma ParseConditionInverse(s: string)
    requires ParseCondition(s).Some?
    ensures var (a, rest) := ParseCondition(s).value;
            QuoteFree(a.column) && s == Condition(a.column, a.index) + rest
  {
    var k := IndexOf(s[1..], '"');
    var column := s[1..k + 1];
    var after := s[k + 2..];
    var n := ParseIndex(after).value.0;
    var rest := ParseIndex(after).value.1;
    assert ParseCondition(s).value == (Assignment(column, n), rest);
    assert QuoteFree(column) by {
      assert column == s[1..][..k];
    }
    SplitAtQuote(s, k);
    ParseIndexInverse(after);
    ConditionText(column, n, rest);
  }

  /** A text that opens with a quote and has another at `k + 1`. */
  lemma SplitAtQuote(s: string, k: nat)
    requires k + 1 < |s| && s[0] == '"' && s[k + 1] == '"'
    ensures s == "\"" + s[1..k + 1] + "\"" + s[k + 2..]
  {
    assert s == [s[0]] + s[1..k + 1] + [s[k + 1]] + s[k + 2..];
  }

  /** A condition with its text after it, regrouped. */
  lemma ConditionText(column: string, n: nat, rest: string)
    ensures "\"" + column + "\"" + ("=" + Placeholder(n) + rest) == Condition(column, n) + rest
  {
  }

  /** The `SET` text with one more condition in front. */
  lemma RenderCons(a: Assignment, more: seq<Assignment>)
    requires |more| > 0
    ensures Render([a] + more) == Condition(a.column, a.index) + Separator + Render(more)
  {
    var all := [a] + more;
    var conds := seq(|all|, i requires 0 <= i < |all| => Condition(all[i].column, all[i].index));
    var tail := seq(|more|, i requires 0 <= i < |more| => Condition(more[i].column, more[i].index));
    assert conds[1..] == tail;
  }

  /** The parser is injective: whatever `SET` text it accepts is exactly the
      rendering of what it returns. Together with `SetClauseRoundTrip` this
      pins the helper's text down completely. */
  lemma {:induction false} ParseSetClauseInverse(s: string)
    requires ParseSetClause(s).Some?
    ensures s == Render(ParseSetClause(s).value)
    decreases |s|
  {
    var (a, rest) := ParseCondition(s).value;
    ParseConditionInverse(s);
    if |rest| == 0 {
      assert ParseSetClause(s).value == [a];
      assert s == Condition(a.column, a.index) + "";
    } else {
      var more := ParseSetClause(rest[2..]).value;
      assert ParseSetClause(s).value == [a] + more;
      ParseSetClauseInverse(rest[2..]);
      ParseSetClauseStep(s, a, rest, more);
    }
  }

  /** `ParseSetClauseInverse` for a condition followed by more, given it for
      the more. */
  lemma ParseSetClauseStep(s: string, a: Assignment, rest: string, more: seq<Assignment>)
    requires s == Condition(a.column, a.index) + rest
    requires |rest| >= 2 && rest[..2] == Separator
    requires |more| > 0 && rest[2..] == Render(more)
    ensures s == Render([a] + more)
  {
    var c := Condition(a.column, a.index);
    calc {
      s;
      c + rest;
      { assert rest == Separator + rest[2..]; }
      c + Separator + rest[2..];
      c + Separator + Render(more);
      { RenderCons(a, more); }
      Render([a] + more);
    }
  }

  /** Every column the parser reads back is quote-free. */
  lemma {:induction false} ParseSetClauseQuoteFree(s: string)
    requires ParseSetClause(s).Some?
    ensures forall a :: a in ParseSetClause(s).value ==> QuoteFree(a.column)
    decreases |s|
  {
    ParseConditionInverse(s);
    var rest := ParseCondition(s).value.1;
    if |rest| > 0 {
      ParseSetClauseQuoteFree(rest[2..]);
    }
  }

  /** Two texts the parser reads as the same conditions are the same text. */
  lemma ParseSetClauseInjective(s: string, t: string)
    requires ParseSetClause(s).Some? && ParseSetClause(s) == ParseSetClause(t)
    ensures s == t
  {
    ParseSetClauseInverse(s);
    ParseSetClauseInverse(t);
  }
}
