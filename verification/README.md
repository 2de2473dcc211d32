# Jobly SQL composers in Dafny

Jobly is a small job-board API. Its persistence layer hand-assembles
parameterized SQL in two places, and this project models both of them.

- **`sqlForPartialUpdate`** (`helpers/sql.js`) turns an ordered update
  payload and a field-to-column map into two things: a `SET` list
  `"col1"=$1, "col2"=$2, ...`, and the values those placeholders bind, in
  the same order.
- **`Jobs.findAll`** (`models/job.js`) extends a fixed `SELECT ... FROM jobs`
  with up to three optional filters:
  - a title substring;
  - a minimum salary;
  - an equity flag.

  Each filter that takes a parameter pushes it onto a positional parameter
  list.
- **`Jobs.update`** (`models/job.js`) puts the helper's `SET` list into an
  `UPDATE jobs ... WHERE id = $n+1 RETURNING ...` statement. It binds the
  payload values and then the id. It throws `NotFoundError` when no row
  comes back.

The model is pure:
- A payload is a sequence of `Field(key, value)` in enumeration order.
- Thrown errors are `Err(BadRequest(..))` and `Err(NotFound(..))` of a
  `Result`.
- The database is a function parameter from a statement to the rows it
  returns.

Two definitions, independent of the code, are what the composers are
checked against:

- `Placeholders.Scan` reads the `$N` markers out of any SQL text, left to
  right. For the `SET` list, the listing query and the `UPDATE` statement,
  the lemmas prove that the markers are exactly `$1 .. $k`, in order, where
  `k` is the number of bound values. So `$i` always refers to the `i`-th
  bound value.
- `Sql.ParseSetClause` parses a `SET` list back into `(column, index)`
  pairs. `Jobs.ReferenceText` and `Jobs.ReferenceParams` write out, case by
  case, the text and parameters `findAll` should produce for each
  combination of filters.

The listing query has three quirks. The model keeps them as the code
behaves, and states each one as a property:

- the title condition always uses the literal `$1`. This is right only
  because the title step runs first (`Jobs.TitlePlaceholderIsOne`);
- the keyword for the salary and the `"0"` equity filters is chosen from
  the number of parameters bound so far. It is not chosen from whether
  some condition was already emitted. The two agree only because the equity
  filter binds nothing and comes last;
- any present equity value adds ` equity = 0`. Only the string `"0"` gets a
  ` WHERE`/` AND` in front; any other value gets no keyword
  (`Scenarios.EquityOtherHasNoKeyword`).

The model does not replace the parameter count with a "some condition already
emitted" rule. It also does not restrict the equity filter to `"0"`. Both
would be cleaner designs, but neither is what the code does.

## Model

| member | source | states |
|---|---|---|
| Decimal.ParseNatToString | helpers/sql.js:21 | The decimal rendering of a placeholder number (`${idx + 1}`) parses back to the same number. |
| Decimal.NatToString | helpers/sql.js:21 | The number in `$${idx + 1}` and `"$" + (values.length + 1)` is rendered as a non-empty run of decimal digits, with no leading zero except for `0` itself. |
| Decimal.NatToStringParse | helpers/sql.js:21 | Every digit run without a leading zero is the rendering of its own value, so rendering and reading back agree in both directions. |
| Decimal.NatToStringInjective | models/job.js:162 | Distinct placeholder numbers render as distinct numerals, so the `$n+1` marker never collides with `$1 .. $n`. |
| Sql.SqlForPartialUpdate | helpers/sql.js:15-28 | An empty payload, and only an empty payload, throws `BadRequest("No data")`. Otherwise there is one value per key, the `i`-th being the `i`-th payload value, and the `SET` text is non-empty, opens with a quote and closes with a placeholder digit: no separator before or after. |
| Sql.ColumnFor | helpers/sql.js:21 | `jsToSql[key] \|\| key`: the column is the mapped name whenever the map holds a non-empty string for the key. Otherwise it is the key itself. An empty mapping never leaves a non-empty key with an empty column. |
| Sql.Join | helpers/sql.js:25 | `cols.join(", ")` opens with the first part. |
| Sql.JoinEnds | helpers/sql.js:25 | The join opens with the whole first part and closes with the whole last part, so no separator leads or trails. For non-empty parts, its first and last characters are those of the first and last parts. |
| Sql.SetClauseRoundTrip | helpers/sql.js:16-26 | Parsing the `SET` text gives exactly one condition per payload key, in payload order. Its column is `jsToSql[key]` when that is a non-empty string, and the key itself otherwise. Its index is `i+1`, and it selects that key's value from `values`. Assumes no column contains `"`. |
| Sql.SetClausePlaceholders | helpers/sql.js:20-26 | The placeholders of the `SET` text are exactly `$1 .. $n` for an `n`-key payload, in order: one per value. Assumes no column contains `$`. |
| Sql.ParseSetClauseInverse | helpers/sql.js:20-25 | The parser accepts only texts in the helper's exact format. Whatever it reads is the rendering, `"column"=$index` joined by `, `, of the conditions it returns. In particular, no spelling of a number other than the helper's own, such as `$01`, is accepted. |
| Sql.ParseSetClauseInjective | helpers/sql.js:20-25 | Two texts read as the same conditions are the same text. With `Sql.SetClauseRoundTrip`, the `SET` text is fixed exactly by its columns and numbers. |
| Sql.ParseSetClauseQuoteFree | helpers/sql.js:21 | Every column read back from a `SET` text is quote-free. |
| Jobs.Keyword | models/job.js:63-67 | The keyword before a condition is ` WHERE` exactly when no parameter is bound yet, and ` AND` otherwise. |
| Jobs.AddTitle | models/job.js:57-60 | A title changes the text exactly when it is non-empty. It then binds exactly one more parameter, the title. |
| Jobs.AddMinSalary | models/job.js:62-71 | A minimum salary changes the text exactly when it is present, zero included. It then binds exactly one more parameter, the salary. |
| Jobs.AddEquity | models/job.js:73-84 | Equity changes the text exactly when it is present, and never binds a parameter. |
| Jobs.FindAll | models/job.js:45-88 | The query extends the base `SELECT`. No filters means no parameters. The parameters are the title if given, then the minimum salary if given. The query is the bare base query exactly when no filter is present. |
| Jobs.TitlePlaceholderIsOne | models/job.js:57-60 | The title step always contributes placeholder 1, whatever is already bound. |
| Jobs.MinSalaryPlaceholder | models/job.js:62-71 | The salary step contributes the placeholder one past the parameters already bound. |
| Jobs.EquityAddsNoPlaceholder | models/job.js:73-84 | The equity step adds no placeholder and binds nothing. |
| Jobs.FindAllPlaceholders | models/job.js:45-88 | The listing query's placeholders are exactly `$1 .. $k` in order, where `k` is the number of bound parameters, for every combination of filters. |
| Jobs.MinSalaryText | models/job.js:62-71 | After zero or one bound parameter, the salary step appends ` WHERE salary >= $1` or ` AND salary >= $2` respectively. |
| Jobs.FindAllMatchesReference | models/job.js:45-88 | `findAll` equals the case-by-case reference text and parameters. The salary keyword is ` WHERE` exactly when no title is given. `"0"` equity gets ` WHERE` or ` AND`. Other equity values get ` equity = 0` with no keyword. |
| Jobs.JobColumnsAreKeys | models/job.js:155-161 | The field map `update` passes renames no key. |
| Jobs.UpdateStatement | models/job.js:155-174 | An empty payload, and only an empty payload, throws `BadRequest("No data")`. Otherwise the arguments are the payload values in order followed by the id, which comes last. |
| Jobs.UpdatePlaceholders | models/job.js:155-174 | The statement is the fixed head, then the helper's `SET` list, then ` WHERE id = ` with the marker `$\|args\|`, then the `RETURNING` tail. The head and `SET` list together hold exactly `$1 .. $n`. The rest holds only `$n+1`, and the argument at that position is the id. The whole statement's placeholders are `$1 .. $n+1` in order. Assumes no key contains `$`. |
| Jobs.Update | models/job.js:154-180 | An empty payload throws `BadRequest` and sends nothing. Otherwise exactly one statement is sent, that of `Jobs.UpdateStatement`, with the id last. `NotFound("No jobs found")` is thrown exactly when no row comes back; otherwise the first row is returned. |
| Scenarios.PartialUpdateTestCase | helpers/sql.test.js:4-21 | The unit test's payload `name, lastName, age` with a map of empty strings gives `"name"=$1, "lastName"=$2, "age"=$3` and `['test', 'user', 31]`. |
| Scenarios.TestConditions | helpers/sql.test.js:19 | The three conditions of the unit test are `"name"=$1`, `"lastName"=$2` and `"age"=$3`. |
| Scenarios.UnmappedKeyFallback | helpers/sql.js:21 | A key missing from the map is used as its own column. |
| Scenarios.TitleAndMinSalary | models/job.js:57-71 | Title `eng` and minimum salary 50000 give `... WHERE title ILIKE '%' \|\| $1 \|\| '%' AND salary >= $2` with parameters `eng`, `50000`. |
| Scenarios.MinSalaryZero | models/job.js:62-71 | A minimum salary of 0 still filters: ` WHERE salary >= $1`. |
| Scenarios.EquityOtherHasNoKeyword | models/job.js:73-84 | Equity other than `"0"`, given alone, appends ` equity = 0` straight after `FROM jobs` with no keyword. |
| Scenarios.TwoFields | models/job.js:155-174 | A two-field update binds the two values and then the id, and its placeholders are `$1, $2, $3`. |
| Scenarios.TwoFieldUpdate | models/job.js:155-174 | Updating title `dev` and salary 1 of job 7 binds `dev, 1, 7` against `$1, $2, $3`. |

## Left out

- Executing SQL: `db.query`, the `async`/`await` flow and the connection are not modelled. `Jobs.Update` takes the database as a function from a statement to its rows. `findAll` is modelled up to the query it sends.
- The other `Jobs` operations (`create`, `get`, `remove`): each is a single fixed statement with no composition logic.
- The error classes in `expressError` are not part of this model. Only their kind and message are kept.
- Object key order: a payload is an explicit sequence. JavaScript's rule that integer-like keys come first in `Object.keys` is not modelled.
- JavaScript truthiness: the title filter is a string, and `""` stands for every falsy or missing title. The minimum salary is `Some` for any value other than `null`/`undefined`. Equity is classified as absent, the string `"0"`, or anything else.
- `jsToSql[key]` prototype lookup: the map is a finite map, so keys such as `toString` find nothing inherited.
- `"` and `$` in column names: the helper does not escape them. `Sql.SetClauseRoundTrip` assumes columns without `"`, and the placeholder lemmas assume columns without `$`. Outside those assumptions, the parsed text need not match the payload.
- SQL semantics: whether the emitted text is valid SQL, or what the database does with it (for example the keyword-less ` equity = 0`), is not modelled. Only the text and the bound arguments are.
