/**
 * The builder's behavioural contract, one client method per test case of
 * tests/test_query.py: each builds its queries through the class and states
 * the exact outcome of every call the test checks.
 */
module QueryScenarios {
  import opened Wrappers
  import Decimal
  import opened Timestamps
  import opened Statements
  import opened QueryBuilder

  const Epoch := Timestamp(1970, 1, 1, 0, 0, 0)
  const EpochPlusDay := Timestamp(1970, 1, 2, 0, 0, 0)

  const Epoch1 := DateOpen + "1970-01-01 00:00:00" + DateClose
  const Epoch2 := DateOpen + "1970-01-02 00:00:00" + DateClose
  const Feb1 := DateOpen + "2016-02-01 00:00:00" + DateClose
  const Feb10 := DateOpen + "2016-02-10 00:00:00" + DateClose

  /** The expected literals are built from the wrapper the tests spell out. */
  lemma DateWrapper()
    ensures DateOpen == "javascript:gs.dateGenerate(\"" && DateClose == "\")"
  {
  }

  // The date literals of the tests' timestamps, each computed in a lemma of its own.

  /** The date literal of a midnight timestamp, given its padded date fields. */
  lemma MidnightLiteral(t: Timestamp, y: string, mo: string, d: string)
    requires t.hour == 0 && t.minute == 0 && t.second == 0
    requires Decimal.PadLeft(t.year, 4) == y && Decimal.PadLeft(t.month, 2) == mo && Decimal.PadLeft(t.day, 2) == d
    ensures DateLiteral(t) == DateOpen + Assemble(y, mo, d, "00", "00", "00") + DateClose
  {
    assert Decimal.PadLeft(0, 2) == "00";
  }

  lemma EpochLiteral()
    ensures DateLiteral(Epoch) == Epoch1
  {
    assert Decimal.PadLeft(1970, 4) == "1970" && Decimal.PadLeft(1, 2) == "01";
    MidnightLiteral(Epoch, "1970", "01", "01");
    assert Assemble("1970", "01", "01", "00", "00", "00") == "1970-01-01 00:00:00";
  }

  lemma EpochPlusDayLiteral()
    ensures DateLiteral(EpochPlusDay) == Epoch2
  {
    assert Decimal.PadLeft(1970, 4) == "1970" && Decimal.PadLeft(1, 2) == "01" && Decimal.PadLeft(2, 2) == "02";
    MidnightLiteral(EpochPlusDay, "1970", "01", "02");
    assert Assemble("1970", "01", "02", "00", "00", "00") == "1970-01-02 00:00:00";
  }

  lemma Feb1Literal()
    ensures DateLiteral(Timestamp(2016, 2, 1, 0, 0, 0)) == Feb1
  {
    assert Decimal.PadLeft(2016, 4) == "2016" && Decimal.PadLeft(2, 2) == "02" && Decimal.PadLeft(1, 2) == "01";
    MidnightLiteral(Timestamp(2016, 2, 1, 0, 0, 0), "2016", "02", "01");
    assert Assemble("2016", "02", "01", "00", "00", "00") == "2016-02-01 00:00:00";
  }

  lemma Feb10Literal()
    ensures DateLiteral(Timestamp(2016, 2, 10, 0, 0, 0)) == Feb10
  {
    assert Decimal.PadLeft(2016, 4) == "2016" && Decimal.PadLeft(2, 2) == "02" && Decimal.PadLeft(10, 2) == "10";
    MidnightLiteral(Timestamp(2016, 2, 10, 0, 0, 0), "2016", "02", "10");
    assert Assemble("2016", "02", "10", "00", "00", "00") == "2016-02-10 00:00:00";
  }

  lemma EpochBetweenClause()
    ensures ClauseText(Clause(None, Statement("test", Operator.Between, [DateTime(Epoch), DateTime(EpochPlusDay)])))
         == "testBETWEEN" + Epoch1 + "@" + Epoch2
  {
    EpochLiteral();
    EpochPlusDayLiteral();
    BetweenClauseText(None, "test", DateTime(Epoch), DateTime(EpochPlusDay));
    assert "" + "test" + "BETWEEN" == "testBETWEEN";
  }

  lemma ComplexClauses()
    ensures ClauseText(Clause(None, Statement("f1", Operator.Equals, [Str("val1")]))) == "f1=val1"
    ensures ClauseText(Clause(Some(Join.And), Statement("f2", Operator.Between,
              [DateTime(Timestamp(2016, 2, 1, 0, 0, 0)), DateTime(Timestamp(2016, 2, 10, 0, 0, 0))])))
         == "^f2BETWEEN" + Feb1 + "@" + Feb10
    ensures ClauseText(Clause(Some(Join.NQ), Statement("f3", Operator.Equals, [Str("val3")]))) == "^NQf3=val3"
  {
    Feb1Literal();
    Feb10Literal();
    BetweenClauseText(Some(Join.And), "f2", DateTime(Timestamp(2016, 2, 1, 0, 0, 0)), DateTime(Timestamp(2016, 2, 10, 0, 0, 0)));
    assert "^" + "f2" + "BETWEEN" == "^f2BETWEEN";
    StrClauseText(None, "f1", Operator.Equals, "val1");
    assert "" + "f1" + "=" + "val1" == "f1=val1";
    StrClauseText(Some(Join.NQ), "f3", Operator.Equals, "val3");
    assert "^NQ" + "f3" + "=" + "val3" == "^NQf3=val3";
  }

  lemma ComplexRender(c1: Clause, c2: Clause, c3: Clause)
    requires c1 == Clause(None, Statement("f1", Operator.Equals, [Str("val1")]))
    requires c2 == Clause(Some(Join.And), Statement("f2", Operator.Between,
                     [DateTime(Timestamp(2016, 2, 1, 0, 0, 0)), DateTime(Timestamp(2016, 2, 10, 0, 0, 0))]))
    requires c3 == Clause(Some(Join.NQ), Statement("f3", Operator.Equals, [Str("val3")]))
    ensures WellTyped([c1, c2, c3])
    ensures Render([c1, c2, c3]) == "f1=val1" + "^f2BETWEEN" + Feb1 + "@" + Feb10 + "^NQf3=val3"
  {
    Rendered3(c1, c2, c3);
    ComplexClauses();
  }

  // The renderings the tests expect, each proved apart from the builder.
  lemma EqualsRendered(c: Clause)
    requires c == Clause(None, Statement("test", Operator.Equals, [Str("test")]))
    ensures WellTyped([c]) && Render([c]) == "test=test"
  {
    Rendered1(c);
    StrClauseText(None, "test", Operator.Equals, "test");
    assert "" + "test" + "=" + "test" == "test=test";
  }

  lemma NotEqualsRendered(c: Clause)
    requires c == Clause(None, Statement("test", Operator.NotEquals, [Str("test")]))
    ensures WellTyped([c]) && Render([c]) == "test!=test"
  {
    Rendered1(c);
    StrClauseText(None, "test", Operator.NotEquals, "test");
    assert "" + "test" + "!=" + "test" == "test!=test";
  }

  lemma GreaterThanRendered(c: Clause)
    requires c == Clause(None, Statement("test", Operator.GreaterThan, [Int(1)]))
    ensures WellTyped([c]) && Render([c]) == "test>1"
  {
    Rendered1(c);
    IntClauseText(None, "test", Operator.GreaterThan, 1);
    assert Decimal.IntToString(1) == "1";
    assert "" + "test" + ">" + "1" == "test>1";
  }

  lemma LessThanRendered(c: Clause)
    requires c == Clause(None, Statement("test", Operator.LessThan, [Int(1)]))
    ensures WellTyped([c]) && Render([c]) == "test<1"
  {
    Rendered1(c);
    IntClauseText(None, "test", Operator.LessThan, 1);
    assert Decimal.IntToString(1) == "1";
    assert "" + "test" + "<" + "1" == "test<1";
  }

  lemma ContainsRendered(c: Clause)
    requires c == Clause(None, Statement("test", Operator.Contains, [Str("val")]))
    ensures WellTyped([c]) && Render([c]) == "testLIKEval"
  {
    Rendered1(c);
    StrClauseText(None, "test", Operator.Contains, "val");
    assert "" + "test" + "LIKE" + "val" == "testLIKEval";
  }

  lemma NotContainsRendered(c: Clause)
    requires c == Clause(None, Statement("test", Operator.NotContains, [Str("val")]))
    ensures WellTyped([c]) && Render([c]) == "testNOTLIKEval"
  {
    Rendered1(c);
    StrClauseText(None, "test", Operator.NotContains, "val");
    assert "" + "test" + "NOTLIKE" + "val" == "testNOTLIKEval";
  }

  lemma StartsWithRendered(c: Clause)
    requires c == Clause(None, Statement("test", Operator.StartsWith, [Str("val")]))
    ensures WellTyped([c]) && Render([c]) == "testSTARTSWITHval"
  {
    Rendered1(c);
    StrClauseText(None, "test", Operator.StartsWith, "val");
    assert "" + "test" + "STARTSWITH" + "val" == "testSTARTSWITHval";
  }

  lemma EndsWithRendered(c: Clause)
    requires c == Clause(None, Statement("test", Operator.EndsWith, [Str("val")]))
    ensures WellTyped([c]) && Render([c]) == "testENDSWITHval"
  {
    Rendered1(c);
    StrClauseText(None, "test", Operator.EndsWith, "val");
    assert "" + "test" + "ENDSWITH" + "val" == "testENDSWITHval";
  }

  lemma IsEmptyRendered(c: Clause)
    requires c == Clause(None, Statement("test", Operator.IsEmpty, []))
    ensures WellTyped([c]) && Render([c]) == "testISEMPTY"
  {
    Rendered1(c);
    assert ClauseText(c) == "" + "test" + "ISEMPTY" + "";
  }

  lemma BetweenIntsRendered(c: Clause)
    requires c == Clause(None, Statement("test", Operator.Between, [Int(1), Int(2)]))
    ensures WellTyped([c]) && Render([c]) == "testBETWEEN1@2"
  {
    Rendered1(c);
    BetweenClauseText(None, "test", Int(1), Int(2));
    assert Decimal.IntToString(1) == "1" && Decimal.IntToString(2) == "2";
    assert "" + "test" + "BETWEEN" + "1" + "@" + "2" == "testBETWEEN1@2";
  }

  lemma BetweenDatesRendered(c: Clause)
    requires c == Clause(None, Statement("test", Operator.Between, [DateTime(Epoch), DateTime(EpochPlusDay)]))
    ensures WellTyped([c]) && Render([c]) == "testBETWEEN" + Epoch1 + "@" + Epoch2
  {
    Rendered1(c);
    EpochBetweenClause();
  }

  lemma AndRendered(c1: Clause, c2: Clause)
    requires c1 == Clause(None, Statement("test", Operator.Equals, [Str("test")]))
    requires c2 == Clause(Some(Join.And), Statement("test2", Operator.Equals, [Str("test")]))
    ensures WellTyped([c1, c2]) && Render([c1, c2]) == "test=test^test2=test"
  {
    Rendered2(c1, c2);
    StrClauseText(None, "test", Operator.Equals, "test");
    StrClauseText(Some(Join.And), "test2", Operator.Equals, "test");
    assert "" + "test" + "=" + "test" == "test=test";
    assert "^" + "test2" + "=" + "test" == "^test2=test";
    assert "test=test" + "^test2=test" == "test=test^test2=test";
  }

  lemma OrRendered(c1: Clause, c2: Clause)
    requires c1 == Clause(None, Statement("test", Operator.Equals, [Str("test")]))
    requires c2 == Clause(Some(Join.Or), Statement("test2", Operator.Equals, [Str("test")]))
    ensures WellTyped([c1, c2]) && Render([c1, c2]) == "test=test^ORtest2=test"
  {
    Rendered2(c1, c2);
    StrClauseText(None, "test", Operator.Equals, "test");
    StrClauseText(Some(Join.Or), "test2", Operator.Equals, "test");
    assert "" + "test" + "=" + "test" == "test=test";
    assert "^OR" + "test2" + "=" + "test" == "^ORtest2=test";
    assert "test=test" + "^ORtest2=test" == "test=test^ORtest2=test";
  }

  lemma NQRendered(c1: Clause, c2: Clause)
    requires c1 == Clause(None, Statement("test", Operator.Equals, [Str("test")]))
    requires c2 == Clause(Some(Join.NQ), Statement("test2", Operator.Equals, [Str("test")]))
    ensures WellTyped([c1, c2]) && Render([c1, c2]) == "test=test^NQtest2=test"
  {
    Rendered2(c1, c2);
    StrClauseText(None, "test", Operator.Equals, "test");
    StrClauseText(Some(Join.NQ), "test2", Operator.Equals, "test");
    assert "" + "test" + "=" + "test" == "test=test";
    assert "^NQ" + "test2" + "=" + "test" == "^NQtest2=test";
    assert "test=test" + "^NQtest2=test" == "test=test^NQtest2=test";
  }

  /** A condition with no field before it. */
  method NoField() returns (outcome: Outcome, r: Result<string, QueryError>)
    ensures outcome == Fail(QueryMissingField)
    ensures r == Failure(QueryEmpty)
  {
    var q := new Query();
    outcome := q.Equals(Str("test"));
    r := q.ToString();
  }

  /** A field with no condition. */
  method NoCondition() returns (r: Result<string, QueryError>)
    ensures r == Failure(QueryEmpty)
  {
    var q := new Query();
    q.Field("test");
    r := q.ToString();
  }

  /** Nothing at all. */
  method NoQuery() returns (r: Result<string, QueryError>)
    ensures r == Failure(QueryEmpty)
  {
    var q := new Query();
    r := q.ToString();
  }

  /** Two conditions on one statement; the first one stays. */
  method MultipleConditions() returns (outcome: Outcome, r: Result<string, QueryError>)
    ensures outcome == Fail(QueryMultipleConditions)
    ensures r == Success("test=test")
  {
    var q := new Query();
    q.Field("test");
    var _ := q.Equals(Str("test"));
    outcome := q.Between(Int(1), Int(2));
    var c := Clause(None, Statement("test", Operator.Equals, [Str("test")]));
    assert q.clauses == [c];
    EqualsRendered(c);
    r := q.ToString();
  }

  /** A trailing logical operator. */
  method UnfinishedLogical() returns (r: Result<string, QueryError>)
    ensures r == Failure(QueryMissingField)
  {
    var q := new Query();
    q.Field("test");
    var _ := q.Equals(Str("test"));
    var _ := q.And();
    r := q.ToString();
  }

  method LogicalAnd() returns (r: Result<string, QueryError>)
    ensures r == Success("test=test^test2=test")
  {
    var q := new Query();
    q.Field("test");
    var _ := q.Equals(Str("test"));
    var _ := q.And();
    q.Field("test2");
    var _ := q.Equals(Str("test"));
    var c1 := Clause(None, Statement("test", Operator.Equals, [Str("test")]));
    var c2 := Clause(Some(Join.And), Statement("test2", Operator.Equals, [Str("test")]));
    assert q.clauses == [c1, c2];
    AndRendered(c1, c2);
    r := q.ToString();
  }

  method LogicalOr() returns (r: Result<string, QueryError>)
    ensures r == Success("test=test^ORtest2=test")
  {
    var q := new Query();
    q.Field("test");
    var _ := q.Equals(Str("test"));
    var _ := q.Or();
    q.Field("test2");
    var _ := q.Equals(Str("test"));
    var c1 := Clause(None, Statement("test", Operator.Equals, [Str("test")]));
    var c2 := Clause(Some(Join.Or), Statement("test2", Operator.Equals, [Str("test")]));
    assert q.clauses == [c1, c2];
    OrRendered(c1, c2);
    r := q.ToString();
  }

  method LogicalNQ() returns (r: Result<string, QueryError>)
    ensures r == Success("test=test^NQtest2=test")
  {
    var q := new Query();
    q.Field("test");
    var _ := q.Equals(Str("test"));
    var _ := q.NQ();
    q.Field("test2");
    var _ := q.Equals(Str("test"));
    var c1 := Clause(None, Statement("test", Operator.Equals, [Str("test")]));
    var c2 := Clause(Some(Join.NQ), Statement("test2", Operator.Equals, [Str("test")]));
    assert q.clauses == [c1, c2];
    NQRendered(c1, c2);
    r := q.ToString();
  }

  method CondBetween() returns (rejected: Outcome, ints: Result<string, QueryError>, dates: Result<string, QueryError>)
    ensures rejected == Fail(QueryTypeError)
    ensures ints == Success("testBETWEEN1@2")
    ensures dates == Success("testBETWEEN" + Epoch1 + "@" + Epoch2)
  {
    var q := new Query();
    q.Field("test");
    rejected := q.Between(Str("test"), Str("test"));

    var q1 := new Query();
    q1.Field("test");
    var _ := q1.Between(Int(1), Int(2));
    var c1 := Clause(None, Statement("test", Operator.Between, [Int(1), Int(2)]));
    assert q1.clauses == [c1];
    BetweenIntsRendered(c1);
    ints := q1.ToString();

    var q2 := new Query();
    q2.Field("test");
    var _ := q2.Between(DateTime(Epoch), DateTime(EpochPlusDay));
    var c2 := Clause(None, Statement("test", Operator.Between, [DateTime(Epoch), DateTime(EpochPlusDay)]));
    assert q2.clauses == [c2];
    BetweenDatesRendered(c2);
    dates := q2.ToString();
  }

  method CondStartsWith() returns (rejected: Outcome, r: Result<string, QueryError>)
    ensures rejected == Fail(QueryTypeError)
    ensures r == Success("testSTARTSWITHval")
  {
    var q := new Query();
    q.Field("test");
    rejected := q.StartsWith(Int(1));
    var q1 := new Query();
    q1.Field("test");
    var _ := q1.StartsWith(Str("val"));
    var c := Clause(None, Statement("test", Operator.StartsWith, [Str("val")]));
    assert q1.clauses == [c];
    StartsWithRendered(c);
    r := q1.ToString();
  }

  method CondEndsWith() returns (rejected: Outcome, r: Result<string, QueryError>)
    ensures rejected == Fail(QueryTypeError)
    ensures r == Success("testENDSWITHval")
  {
    var q := new Query();
    q.Field("test");
    rejected := q.EndsWith(Int(1));
    var q1 := new Query();
    q1.Field("test");
    var _ := q1.EndsWith(Str("val"));
    var c := Clause(None, Statement("test", Operator.EndsWith, [Str("val")]));
    assert q1.clauses == [c];
    EndsWithRendered(c);
    r := q1.ToString();
  }

  method CondContains() returns (rejected: Outcome, r: Result<string, QueryError>)
    ensures rejected == Fail(QueryTypeError)
    ensures r == Success("testLIKEval")
  {
    var q := new Query();
    q.Field("test");
    rejected := q.Contains(Int(1));
    var q1 := new Query();
    q1.Field("test");
    var _ := q1.Contains(Str("val"));
    var c := Clause(None, Statement("test", Operator.Contains, [Str("val")]));
    assert q1.clauses == [c];
    ContainsRendered(c);
    r := q1.ToString();
  }

  method CondNotContains() returns (rejected: Outcome, r: Result<string, QueryError>)
    ensures rejected == Fail(QueryTypeError)
    ensures r == Success("testNOTLIKEval")
  {
    var q := new Query();
    q.Field("test");
    rejected := q.NotContains(Int(1));
    var q1 := new Query();
    q1.Field("test");
    var _ := q1.NotContains(Str("val"));
    var c := Clause(None, Statement("test", Operator.NotContains, [Str("val")]));
    assert q1.clauses == [c];
    NotContainsRendered(c);
    r := q1.ToString();
  }

  method CondIsEmpty() returns (r: Result<string, QueryError>)
    ensures r == Success("testISEMPTY")
  {
    var q := new Query();
    q.Field("test");
    var _ := q.IsEmpty();
    var c := Clause(None, Statement("test", Operator.IsEmpty, []));
    assert q.clauses == [c];
    IsEmptyRendered(c);
    r := q.ToString();
  }

  /** `equals(dt)` passes the `datetime` class itself, which is `Other` here. */
  method CondEquals() returns (rejected: Outcome, r: Result<string, QueryError>)
    ensures rejected == Fail(QueryTypeError)
    ensures r == Success("test=test")
  {
    var q := new Query();
    q.Field("test");
    rejected := q.Equals(Other);
    var q1 := new Query();
    q1.Field("test");
    var _ := q1.Equals(Str("test"));
    var c := Clause(None, Statement("test", Operator.Equals, [Str("test")]));
    assert q1.clauses == [c];
    EqualsRendered(c);
    r := q1.ToString();
  }

  method CondNotEquals() returns (rejected: Outcome, r: Result<string, QueryError>)
    ensures rejected == Fail(QueryTypeError)
    ensures r == Success("test!=test")
  {
    var q := new Query();
    q.Field("test");
    rejected := q.NotEquals(Other);
    var q1 := new Query();
    q1.Field("test");
    var _ := q1.NotEquals(Str("test"));
    var c := Clause(None, Statement("test", Operator.NotEquals, [Str("test")]));
    assert q1.clauses == [c];
    NotEqualsRendered(c);
    r := q1.ToString();
  }

  method CondGreaterThan() returns (rejected: Outcome, r: Result<string, QueryError>)
    ensures rejected == Fail(QueryTypeError)
    ensures r == Success("test>1")
  {
    var q := new Query();
    q.Field("test");
    rejected := q.GreaterThan(Str("a"));
    var q1 := new Query();
    q1.Field("test");
    var _ := q1.GreaterThan(Int(1));
    var c := Clause(None, Statement("test", Operator.GreaterThan, [Int(1)]));
    assert q1.clauses == [c];
    GreaterThanRendered(c);
    r := q1.ToString();
  }

  method CondLessThan() returns (rejected: Outcome, r: Result<string, QueryError>)
    ensures rejected == Fail(QueryTypeError)
    ensures r == Success("test<1")
  {
    var q := new Query();
    q.Field("test");
    rejected := q.LessThan(Str("a"));
    var q1 := new Query();
    q1.Field("test");
    var _ := q1.LessThan(Int(1));
    var c := Clause(None, Statement("test", Operator.LessThan, [Int(1)]));
    assert q1.clauses == [c];
    LessThanRendered(c);
    r := q1.ToString();
  }

  /** Three statements joined by AND and NQ; a rejected extra condition
      afterwards leaves the rendering as it was. */
  method ComplexQuery() returns (r: Result<string, QueryError>, rejected: Outcome, again: Result<string, QueryError>)
    ensures r == Success("f1=val1" + "^f2BETWEEN" + Feb1 + "@" + Feb10 + "^NQf3=val3")
    ensures rejected == Fail(QueryMultipleConditions)
    ensures again == r
  {
    var start := Timestamp(2016, 2, 1, 0, 0, 0);
    var end := Timestamp(2016, 2, 10, 0, 0, 0);
    var q := new Query();
    q.Field("f1");
    var _ := q.Equals(Str("val1"));
    var _ := q.And();
    q.Field("f2");
    var _ := q.Between(DateTime(start), DateTime(end));
    var _ := q.NQ();
    q.Field("f3");
    var _ := q.Equals(Str("val3"));
    var c1 := Clause(None, Statement("f1", Operator.Equals, [Str("val1")]));
    var c2 := Clause(Some(Join.And), Statement("f2", Operator.Between, [DateTime(start), DateTime(end)]));
    var c3 := Clause(Some(Join.NQ), Statement("f3", Operator.Equals, [Str("val3")]));
    assert q.clauses == [c1, c2, c3];
    ComplexRender(c1, c2, c3);
    r := q.ToString();
    rejected := q.Equals(Int(4));
    again := q.ToString();
  }

  /** A field named after a completed statement, with no logical operator
      between them, is dropped: the query still renders its one statement.
      After a logical operator the same field leaves the join dangling. */
  method FieldAfterStatement() returns (dropped: Result<string, QueryError>, dangling: Result<string, QueryError>)
    ensures dropped == Success("test=test")
    ensures dangling == Failure(QueryMissingField)
  {
    var q := new Query();
    q.Field("test");
    var _ := q.Equals(Str("test"));
    q.Field("test2");
    var c := Clause(None, Statement("test", Operator.Equals, [Str("test")]));
    assert q.clauses == [c];
    EqualsRendered(c);
    dropped := q.ToString();

    var q1 := new Query();
    q1.Field("test");
    var _ := q1.Equals(Str("test"));
    var _ := q1.And();
    q1.Field("test2");
    dangling := q1.ToString();
  }
}
