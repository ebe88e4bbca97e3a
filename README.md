# pysnow query builder, modelled in Dafny

pysnow's `Query` is a fluent builder. It compiles chained `field(...)`,
condition and `AND()`/`OR()`/`NQ()` calls into the encoded filter string
that a ServiceNow-style record store takes, for example
`f1=val1^f2BETWEEN…@…^NQf3=val3`. This project models that builder and
proves properties of the model:

- the class `QueryBuilder.Query` holds the completed statements with their
  joins, the pending field and the pending logical operator. Its methods
  update them in place, as the chained Python calls do;
- the operand table `Statements.Accepts` says which operand kinds each
  condition takes;
- the pure serialiser `Statements.Render` with its decimal and
  timestamp helpers (`Decimal`, `Timestamps`);
- one client method per test case of `tests/test_query.py`
  (`QueryScenarios`). Each says the exact outcome the test expects.

The builder's own implementation file is not part of this model. Its
behaviour is taken from `tests/test_query.py`, which pins the rendered
string of every condition, the three join tokens, the operand type rules
and the four error kinds. Where the tests leave behaviour open, the
choice made is listed under Decisions.

## Decisions

- A Python call returns the builder or raises. Here it changes the object
  and returns `Pass` or `Fail(error)`. A failed call leaves the object
  unchanged.
- Errors raised by the offending call:
  - a condition with no field before it gives `QueryMissingField`;
  - a second condition on a statement that is already complete gives
    `QueryMultipleConditions`;
  - an operand the condition does not accept gives `QueryTypeError`.
  They are checked in that order.
- A logical operator with no completed statement before it gives
  `QueryMissingField` at that call. This covers an empty builder, two
  operators in a row, and a field without a condition.
- Errors raised by the serialisation (`ToString`, modelling `str(q)`):
  - `QueryEmpty` when no statement was completed. This includes a lone
    `field(...)`;
  - `QueryMissingField` when a logical operator is left dangling at the
    end, whether or not a `field` followed it.

  The tests wrap these chains in `str(...)`, so either timing passes them.
  A dangling operator can only be detected once the caller asks for the
  string.
- `field(name)` always just records the pending field. A logical operator
  clears it; a condition keeps it. So a `field` call right after a
  completed statement, with no logical operator between them, is silently
  dropped: `field('test').equals('test').field('test2')` serialises to
  `test=test`
  (`QueryScenarios.FieldAfterStatement`). After `AND()`, the same trailing
  `field('test2')` leaves the join dangling and gives `QueryMissingField`.
- Operands are `Str`, `Int`, `DateTime` (six wall-clock fields) or
  `Other`. `Other` stands for any other Python object, such as the
  `datetime` class the equals test passes.
  - `equals` and `not_equals` take a string or an integer;
  - `greater_than` and `less_than` take an integer;
  - `contains`, `not_contains`, `starts_with` and `ends_with` take a string;
  - `is_empty` takes no operand;
  - `between` takes two integers or two timestamps.
- Integers render in decimal, with `-` for negative values. Strings are
  rendered raw. A timestamp renders as
  `javascript:gs.dateGenerate("YYYY-MM-DD HH:MM:SS")`: the year is padded
  to four digits and the other fields to two. Fields are used as given,
  with no time-zone conversion.
- The wire format is not injective. After `AND()`, a field named `ORx`
  renders like `OR()` followed by field `x`. `Statements.SplitRender`
  therefore states what splitting at `^` recovers, namely segments, and not
  a full parse.

## Model

| member | source | states |
|---|---|---|
| `QueryBuilder.Query.constructor` | tests/test_query.py:22-27 | a new builder has no statement, no pending field and no pending join, and is awaiting a field |
| `QueryBuilder.Query.Field` | tests/test_query.py:15-20 | `field(name)` records the pending field; clauses and pending join are unchanged; a completed statement stays complete |
| `QueryBuilder.Query.AddCondition` | tests/test_query.py:29-34 | a condition fails with QueryMissingField when no field is pending, QueryMultipleConditions when the statement is already complete, QueryTypeError when the operand table rejects it, each leaving the builder unchanged; otherwise it appends the statement after the pending join and the statement becomes complete |
| `QueryBuilder.Query.Equals` | tests/test_query.py:139-150 | `equals` appends a `=` statement, and fails with a type error exactly when the value is neither a string nor an integer |
| `QueryBuilder.Query.NotEquals` | tests/test_query.py:152-163 | `not_equals` appends a `!=` statement; type error exactly when the value is neither a string nor an integer |
| `QueryBuilder.Query.GreaterThan` | tests/test_query.py:165-176 | `greater_than` appends a `>` statement; type error exactly when the value is not an integer |
| `QueryBuilder.Query.LessThan` | tests/test_query.py:178-189 | `less_than` appends a `<` statement; type error exactly when the value is not an integer |
| `QueryBuilder.Query.Contains` | tests/test_query.py:107-118 | `contains` appends a `LIKE` statement; type error exactly when the value is not a string |
| `QueryBuilder.Query.NotContains` | tests/test_query.py:120-131 | `not_contains` appends a `NOTLIKE` statement; type error exactly when the value is not a string |
| `QueryBuilder.Query.StartsWith` | tests/test_query.py:81-92 | `starts_with` appends a `STARTSWITH` statement; type error exactly when the value is not a string |
| `QueryBuilder.Query.EndsWith` | tests/test_query.py:94-105 | `ends_with` appends an `ENDSWITH` statement; type error exactly when the value is not a string |
| `QueryBuilder.Query.IsEmpty` | tests/test_query.py:133-137 | `is_empty` appends an `ISEMPTY` statement with no operand and never fails with a type error |
| `QueryBuilder.Query.Between` | tests/test_query.py:61-79 | `between` appends a `BETWEEN` statement; type error exactly when the two operands are not both integers or both timestamps |
| `QueryBuilder.Query.AddJoin` | tests/test_query.py:36-41 | a logical operator succeeds only right after a completed statement, then waits for a new field; otherwise QueryMissingField with the builder unchanged |
| `QueryBuilder.Query.And` | tests/test_query.py:43-47 | `AND()` sets the pending join to AND under the rule above |
| `QueryBuilder.Query.Or` | tests/test_query.py:49-53 | `OR()` sets the pending join to OR under the rule above |
| `QueryBuilder.Query.NQ` | tests/test_query.py:55-59 | `NQ()` sets the pending join to NQ under the rule above |
| `QueryBuilder.Query.ToString` | tests/test_query.py:8-41 | `str(q)` fails with QueryEmpty iff no statement was completed, with QueryMissingField iff a logical operator dangles, and otherwise succeeds with the rendering, which is never empty |
| `QueryBuilder.Query.Valid` | tests/test_query.py:8-59 | the builder invariant: every clause is accepted by the operand table, exactly the first clause has no join, a pending join follows a clause, and a complete statement keeps its field; every method's contract preserves it |
| `QueryBuilder.Query.State` | tests/test_query.py:8-59 | the cursor of the chain: awaiting a field, awaiting a condition on the pending field, or statement complete; `AddCondition`, `AddJoin` and `ToString` are stated in terms of it |
| `Statements.Accepts` | tests/test_query.py:61-189 | the operand table: `equals`/`not_equals` take one string or integer, `greater_than`/`less_than` one integer, the four `LIKE`-style conditions one string, `is_empty` nothing, `between` two integers or two timestamps; the type-error iff of each condition method is stated from it |
| `Statements.OperandText` | tests/test_query.py:61-189 | strings render raw, integers by `IntToString`, timestamps by `DateLiteral`; `OperandCaretFree` states that it adds no `^` |
| `Statements.StatementText` | tests/test_query.py:61-189 | the field, the condition token, then nothing (`is_empty`), the two operands around `@` (`between`) or the one operand; `StatementCaretFree` and the three `…ClauseText` lemmas state its shape |
| `Statements.JoinToken` | tests/test_query.py:43-59 | no token before the first statement, `^` for AND, `^OR` for OR, `^NQ` for NQ; `JoinTokenMarker` states that each is `^` followed by a `^`-free marker |
| `Statements.JoinTokenMarker` | tests/test_query.py:43-59 | every join token is the separator `^` followed by its marker, and the marker contains no `^` |
| `Statements.ClauseText` | tests/test_query.py:43-59 | a clause renders as its join token followed by its statement; `ClauseTextJoined` states that a joined clause renders as `^` and its segment |
| `Statements.ClauseTextJoined` | tests/test_query.py:43-59 | a clause with a join renders as `^` followed by its segment (marker and statement) |
| `Statements.Render` | tests/test_query.py:191-203 | the encoded query: the clause texts concatenated in order; `RenderAppend`, `RenderNonEmpty` and `SplitRender` state its properties |
| `Decimal.IntToString` | tests/test_query.py:165-189 | `%d` of an integer, with `-` for negative values; `ParseIntToString` states that it reads back as the integer |
| `Decimal.PadLeft` | tests/test_query.py:73-79 | zero padding to a minimum width; its ensures give at least `width` characters, exactly `width` when the number fits, and `ParsePadLeft` states that it reads back as the number |
| `Timestamps.Format` | tests/test_query.py:73-79 | `strftime('%Y-%m-%d %H:%M:%S')`; `FormatLayout` and `ParseFormat` state its layout and that it reads back as the timestamp |
| `Timestamps.DateLiteral` | tests/test_query.py:73-79 | the formatted timestamp inside `javascript:gs.dateGenerate("…")`; `DateLiteralCaretFree` states that it contains no `^` |
| `QueryScenarios.DateWrapper` | tests/test_query.py:76-79 | the date wrapper is exactly the text the tests expect, `javascript:gs.dateGenerate("` before the timestamp and `")` after it |
| `Statements.Token` | tests/test_query.py:81-189 | every condition token is non-empty and free of the separator `^` |
| `Statements.StrClauseText` | tests/test_query.py:81-163 | unfolds the rendering for one string operand: join token, field, condition token and the string |
| `Statements.IntClauseText` | tests/test_query.py:139-189 | unfolds the rendering for one integer operand: join token, field, condition token and `IntToString` of the integer |
| `Statements.BetweenClauseText` | tests/test_query.py:61-79 | unfolds the rendering for a `between` operand pair: join token, field, `BETWEEN`, then the two operand texts around `@` |
| `Statements.RenderAppend` | tests/test_query.py:43-59 | appending a clause appends its join token and its statement text to the rendering: statements are concatenated in order |
| `Statements.RenderNonEmpty` | tests/test_query.py:8-27 | a query with at least one statement renders to a non-empty string |
| `Statements.StatementCaretFree` | tests/test_query.py:61-189 | no condition rendering introduces a `^` beyond those in the field name and string operands |
| `Statements.SplitRender` | tests/test_query.py:191-203 | with no `^` in field names or string operands, splitting the rendering at `^` gives exactly one segment per statement, in order: the first bare, each later one prefixed by nothing (AND), `OR` or `NQ` |
| `Decimal.NatToString` | tests/test_query.py:69-71 | the decimal rendering is non-empty and starts with `0` exactly when the number is 0 |
| `Decimal.ParseIntToString` | tests/test_query.py:69-71 | the integer rendering is a well-formed decimal literal that reads back as the integer |
| `Decimal.ParsePadLeft` | tests/test_query.py:73-79 | zero padding reads back as the padded number |
| `Timestamps.FormatLayout` | tests/test_query.py:73-79 | an in-range timestamp formats to 19 characters with `-`, `-`, space, `:` and `:` in fixed positions and digit fields equal to its own fields |
| `Timestamps.ParseFormat` | tests/test_query.py:73-79 | parsing the formatted timestamp gives back the timestamp: wall-clock fields are rendered verbatim |
| `QueryScenarios.NoField` | tests/test_query.py:8-13 | a condition before any field fails with QueryMissingField, and the builder stays empty |
| `QueryScenarios.NoCondition` | tests/test_query.py:15-20 | a field without a condition serialises to QueryEmpty |
| `QueryScenarios.NoQuery` | tests/test_query.py:22-27 | an empty builder serialises to QueryEmpty |
| `QueryScenarios.MultipleConditions` | tests/test_query.py:29-34 | `equals` then `between` on one statement fails with QueryMultipleConditions and keeps `test=test` |
| `QueryScenarios.UnfinishedLogical` | tests/test_query.py:36-41 | a trailing `AND()` serialises to QueryMissingField |
| `QueryScenarios.LogicalAnd` | tests/test_query.py:43-47 | renders `test=test^test2=test` |
| `QueryScenarios.LogicalOr` | tests/test_query.py:49-53 | renders `test=test^ORtest2=test` |
| `QueryScenarios.LogicalNQ` | tests/test_query.py:55-59 | renders `test=test^NQtest2=test` |
| `QueryScenarios.CondBetween` | tests/test_query.py:61-79 | string operands give QueryTypeError; integers render `testBETWEEN1@2`; the two 1970 dates render as their date literals around `@` |
| `QueryScenarios.CondStartsWith` | tests/test_query.py:81-92 | an integer gives QueryTypeError; `'val'` renders `testSTARTSWITHval` |
| `QueryScenarios.CondEndsWith` | tests/test_query.py:94-105 | an integer gives QueryTypeError; `'val'` renders `testENDSWITHval` |
| `QueryScenarios.CondContains` | tests/test_query.py:107-118 | an integer gives QueryTypeError; `'val'` renders `testLIKEval` |
| `QueryScenarios.CondNotContains` | tests/test_query.py:120-131 | an integer gives QueryTypeError; `'val'` renders `testNOTLIKEval` |
| `QueryScenarios.CondIsEmpty` | tests/test_query.py:133-137 | renders `testISEMPTY` |
| `QueryScenarios.CondEquals` | tests/test_query.py:139-150 | the `datetime` class gives QueryTypeError; `'test'` renders `test=test` |
| `QueryScenarios.CondNotEquals` | tests/test_query.py:152-163 | the `datetime` class gives QueryTypeError; `'test'` renders `test!=test` |
| `QueryScenarios.CondGreaterThan` | tests/test_query.py:165-176 | a string gives QueryTypeError; `1` renders `test>1` |
| `QueryScenarios.CondLessThan` | tests/test_query.py:178-189 | a string gives QueryTypeError; `1` renders `test<1` |
| `QueryScenarios.ComplexQuery` | tests/test_query.py:191-203 | the AND/NQ chain renders `f1=val1^f2BETWEEN<2016-02-01>@<2016-02-10>^NQf3=val3`; a rejected extra condition afterwards changes nothing, and serialising again gives the same string |
| `QueryScenarios.FieldAfterStatement` | tests/test_query.py:15-41 | a `field` call right after a completed statement is dropped (`test=test`), while after `AND()` it leaves the join dangling (`QueryMissingField`) |

## Left out

- The rest of pysnow is left out: HTTP requests, authentication, resource paths, pagination and response handling. These only consume the finished string.
- Python's `datetime` library is left out, with its calendar validation and time zones. A timestamp is six natural-number fields, formatted without conversion. `InRange` bounds them only for the round-trip lemma.
- The year is padded to four digits, as `%Y` is documented. Some platforms' `strftime` do not pad years below 1000.
- Python's `bool` is a subclass of `int`, and floats exist. The model has no such operands: anything that is not a string, integer or timestamp is `Other`.
- Exceptions are modelled as `Outcome`/`Result` values. Returning `self` for chaining is modelled as calling the methods one after another on the same object.
- The `unittest` harness is left out. Its `assertFalse(q)` would also accept an empty result; the model always signals an error instead.
- The tests do not say whether an empty field name counts as a missing field. The model treats any name passed to `Field` as present.
