/**
 * The fluent query builder `pysnow.Query`: chained `field`, condition and
 * `AND`/`OR`/`NQ` calls accumulate joined statements, and `str(q)` renders them.
 *
 * Each Python call returns the builder itself or raises; here each call
 * updates the object in place and returns `Pass` or `Fail(error)`, and a
 * failed call leaves the object unchanged. Condition and join errors are
 * signalled by the offending call; `QueryEmpty`, and `QueryMissingField` for
 * a dangling logical operator, are signalled when the query is rendered.
 */
module QueryBuilder {
  import opened Wrappers
  import opened Statements

  datatype QueryError = QueryMissingField | QueryMultipleConditions | QueryEmpty | QueryTypeError

  datatype Outcome = Pass | Fail(error: QueryError)

  /** Which part of the statement under construction has been supplied. */
  datatype Cursor = AwaitingField | AwaitingCondition(field: string) | StatementComplete

  class Query {
    /** The completed statements, each with the join that precedes it. */
    var clauses: seq<Clause>
    /** The field named by the latest `field` call; cleared by a logical operator. */
    var pendingField: Option<string>
    /** The logical operator waiting for the next statement. */
    var pendingJoin: Option<Join>

    ghost predicate Valid()
      reads this
    {
      && WellTyped(clauses)
      && WellJoined(clauses)
      && (pendingJoin.Some? ==> clauses != [])
      && (clauses != [] && pendingJoin.None? ==> pendingField.Some?)
    }

    /** The statement under construction is complete once a condition was
        added and no logical operator followed it. */
    function State(): Cursor
      reads this
    {
      if clauses != [] && pendingJoin.None? then StatementComplete
      else if pendingField.Some? then AwaitingCondition(pendingField.value)
      else AwaitingField
    }

    constructor ()
      ensures Valid()
      ensures clauses == [] && pendingField == None && pendingJoin == None
      ensures State() == AwaitingField
    {
      clauses, pendingField, pendingJoin := [], None, None;
    }

    /** `field(name)`: names the field of the next condition. */
    method Field(name: string)
      requires Valid()
      modifies this
      ensures Valid()
      ensures pendingField == Some(name)
      ensures clauses == old(clauses) && pendingJoin == old(pendingJoin)
      ensures State() == if old(State()) == StatementComplete then StatementComplete else AwaitingCondition(name)
    {
      pendingField := Some(name);
    }

    twostate predicate Kept()
      reads this
    {
      clauses == old(clauses) && pendingField == old(pendingField) && pendingJoin == old(pendingJoin)
    }

    /** What a condition call does: the three errors, in the order they are
        checked, and otherwise the completed statement appended after the
        pending join. */
    twostate predicate Conditioned(op: Operator, args: seq<Operand>, outcome: Outcome)
      reads this
    {
      match old(State())
      case AwaitingField => outcome == Fail(QueryMissingField) && Kept()
      case StatementComplete => outcome == Fail(QueryMultipleConditions) && Kept()
      case AwaitingCondition(f) =>
        if Accepts(op, args) then
          && outcome == Pass
          && clauses == old(clauses) + [Clause(old(pendingJoin), Statement(f, op, args))]
          && pendingField == old(pendingField)
          && pendingJoin == None
        else
          outcome == Fail(QueryTypeError) && Kept()
    }

    method AddCondition(op: Operator, args: seq<Operand>) returns (outcome: Outcome)
      requires Valid()
      modifies this
      ensures Valid() && Conditioned(op, args, outcome)
      ensures outcome == Pass <==> old(State()).AwaitingCondition? && Accepts(op, args)
      ensures outcome == Pass ==> State() == StatementComplete
    {
      if pendingField.None? {
        return Fail(QueryMissingField);
      }
      if clauses != [] && pendingJoin.None? {
        return Fail(QueryMultipleConditions);
      }
      if !Accepts(op, args) {
        return Fail(QueryTypeError);
      }
      var c := Clause(pendingJoin, Statement(pendingField.value, op, args));
      clauses := clauses + [c];
      pendingJoin := None;
      outcome := Pass;
    }

    /** `equals(value)`: `field=value`, for a string or an integer. */
    method Equals(value: Operand) returns (outcome: Outcome)
      requires Valid()
      modifies this
      ensures Valid() && Conditioned(Operator.Equals, [value], outcome)
      ensures outcome == Fail(QueryTypeError) <==> old(State()).AwaitingCondition? && !(value.Str? || value.Int?)
    {
      outcome := AddCondition(Operator.Equals, [value]);
    }

    /** `not_equals(value)`: `field!=value`, for a string or an integer. */
    method NotEquals(value: Operand) returns (outcome: Outcome)
      requires Valid()
      modifies this
      ensures Valid() && Conditioned(Operator.NotEquals, [value], outcome)
      ensures outcome == Fail(QueryTypeError) <==> old(State()).AwaitingCondition? && !(value.Str? || value.Int?)
    {
      outcome := AddCondition(Operator.NotEquals, [value]);
    }

    /** `greater_than(value)`: `field>value`, for an integer only. */
    method GreaterThan(value: Operand) returns (outcome: Outcome)
      requires Valid()
      modifies this
      ensures Valid() && Conditioned(Operator.GreaterThan, [value], outcome)
      ensures outcome == Fail(QueryTypeError) <==> old(State()).AwaitingCondition? && !value.Int?
    {
      outcome := AddCondition(Operator.GreaterThan, [value]);
    }

    /** `less_than(value)`: `field<value`, for an integer only. */
    method LessThan(value: Operand) returns (outcome: Outcome)
      requires Valid()
      modifies this
      ensures Valid() && Conditioned(Operator.LessThan, [value], outcome)
      ensures outcome == Fail(QueryTypeError) <==> old(State()).AwaitingCondition? && !value.Int?
    {
      outcome := AddCondition(Operator.LessThan, [value]);
    }

    /** `contains(value)`: `fieldLIKEvalue`, for a string only. */
    method Contains(value: Operand) returns (outcome: Outcome)
      requires Valid()
      modifies this
      ensures Valid() && Conditioned(Operator.Contains, [value], outcome)
      ensures outcome == Fail(QueryTypeError) <==> old(State()).AwaitingCondition? && !value.Str?
    {
      outcome := AddCondition(Operator.Contains, [value]);
    }

    /** `not_contains(value)`: `fieldNOTLIKEvalue`, for a string only. */
    method NotContains(value: Operand) returns (outcome: Outcome)
      requires Valid()
      modifies this
      ensures Valid() && Conditioned(Operator.NotContains, [value], outcome)
      ensures outcome == Fail(QueryTypeError) <==> old(State()).AwaitingCondition? && !value.Str?
    {
      outcome := AddCondition(Operator.NotContains, [value]);
    }

    /** `starts_with(value)`: `fieldSTARTSWITHvalue`, for a string only. */
    method StartsWith(value: Operand) returns (outcome: Outcome)
      requires Valid()
      modifies this
      ensures Valid() && Conditioned(Operator.StartsWith, [value], outcome)
      ensures outcome == Fail(QueryTypeError) <==> old(State()).AwaitingCondition? && !value.Str?
    {
      outcome := AddCondition(Operator.StartsWith, [value]);
    }

    /** `ends_with(value)`: `fieldENDSWITHvalue`, for a string only. */
    method EndsWith(value: Operand) returns (outcome: Outcome)
      requires Valid()
      modifies this
      ensures Valid() && Conditioned(Operator.EndsWith, [value], outcome)
      ensures outcome == Fail(QueryTypeError) <==> old(State()).AwaitingCondition? && !value.Str?
    {
      outcome := AddCondition(Operator.EndsWith, [value]);
    }

    /** `is_empty()`: `fieldISEMPTY`; takes no operand, so it never has a type error. */
    method IsEmpty() returns (outcome: Outcome)
      requires Valid()
      modifies this
      ensures Valid() && Conditioned(Operator.IsEmpty, [], outcome)
      ensures outcome != Fail(QueryTypeError)
    {
      outcome := AddCondition(Operator.IsEmpty, []);
    }

    /** `between(start, end)`: `fieldBETWEENstart@end`, for two integers or two timestamps. */
    method Between(start: Operand, end: Operand) returns (outcome: Outcome)
      requires Valid()
      modifies this
      ensures Valid() && Conditioned(Operator.Between, [start, end], outcome)
      ensures outcome == Fail(QueryTypeError) <==>
        && old(State()).AwaitingCondition?
        && !((start.Int? && end.Int?) || (start.DateTime? && end.DateTime?))
    {
      outcome := AddCondition(Operator.Between, [start, end]);
    }

    /** What a logical operator call does: it needs a completed statement to
        follow, and then waits for the next field. */
    twostate predicate Joined(j: Join, outcome: Outcome)
      reads this
    {
      if old(State()) == StatementComplete then
        && outcome == Pass
        && clauses == old(clauses)
        && pendingJoin == Some(j)
        && pendingField == None
        && State() == AwaitingField
      else
        outcome == Fail(QueryMissingField) && Kept()
    }

    method AddJoin(j: Join) returns (outcome: Outcome)
      requires Valid()
      modifies this
      ensures Valid() && Joined(j, outcome)
    {
      if !(clauses != [] && pendingJoin.None?) {
        return Fail(QueryMissingField);
      }
      pendingJoin, pendingField := Some(j), None;
      outcome := Pass;
    }

    /** `AND()`: the next statement is rendered after `^`. */
    method And() returns (outcome: Outcome)
      requires Valid()
      modifies this
      ensures Valid() && Joined(Join.And, outcome)
    {
      outcome := AddJoin(Join.And);
    }

    /** `OR()`: the next statement is rendered after `^OR`. */
    method Or() returns (outcome: Outcome)
      requires Valid()
      modifies this
      ensures Valid() && Joined(Join.Or, outcome)
    {
      outcome := AddJoin(Join.Or);
    }

    /** `NQ()`: the next statement starts a new query, rendered after `^NQ`. */
    method NQ() returns (outcome: Outcome)
      requires Valid()
      modifies this
      ensures Valid() && Joined(Join.NQ, outcome)
    {
      outcome := AddJoin(Join.NQ);
    }

    /** `str(q)`: the encoded query, or the error that stops it. Never a
        string for a builder without a completed statement or with a
        dangling logical operator, and never the empty string. */
    function ToString(): (r: Result<string, QueryError>)
      reads this
      requires Valid()
      ensures r == Failure(QueryEmpty) <==> clauses == []
      ensures r == Failure(QueryMissingField) <==> clauses != [] && pendingJoin.Some?
      ensures r.Success? <==> State() == StatementComplete
      ensures r.Success? ==> r.value == Render(clauses) && |r.value| >= 1
    {
      if clauses == [] then Failure(QueryEmpty)
      else if pendingJoin.Some? then Failure(QueryMissingField)
      else RenderNonEmpty(clauses); Success(Render(clauses))
    }
  }
}
