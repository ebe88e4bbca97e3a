/**
 * Statements of an encoded query, the operand type table of each condition,
 * and the serialiser that renders a sequence of joined statements.
 */
module Statements {
  import opened Wrappers
  import opened Decimal
  import opened Timestamps

  /** A value passed to a condition. `Other` stands for any other Python
      object, such as the `datetime` class itself. */
  datatype Operand = Str(s: string) | Int(i: int) | DateTime(t: Timestamp) | Other

  datatype Operator =
    | Equals | NotEquals | GreaterThan | LessThan
    | Contains | NotContains | StartsWith | EndsWith
    | IsEmpty | Between

  /** The logical operator that joins a statement to the one before it. */
  datatype Join = And | Or | NQ

  /** One `field operator operand(s)` clause. */
  datatype Statement = Statement(field: string, op: Operator, args: seq<Operand>)

  /** A statement with the join that precedes it; only the first has none. */
  datatype Clause = Clause(join: Option<Join>, stmt: Statement)

  /** The operand table: which operands each condition accepts, and how many. */
  predicate Accepts(op: Operator, args: seq<Operand>)
  {
    match op
    case Equals | NotEquals => |args| == 1 && (args[0].Str? || args[0].Int?)
    case GreaterThan | LessThan => |args| == 1 && args[0].Int?
    case Contains | NotContains | StartsWith | EndsWith => |args| == 1 && args[0].Str?
    case IsEmpty => args == []
    case Between =>
      && |args| == 2
      && ((args[0].Int? && args[1].Int?) || (args[0].DateTime? && args[1].DateTime?))
  }

  function Token(op: Operator): (t: string)
    ensures |t| >= 1 && '^' !in t
  {
    match op
    case Equals => "="
    case NotEquals => "!="
    case GreaterThan => ">"
    case LessThan => "<"
    case Contains => "LIKE"
    case NotContains => "NOTLIKE"
    case StartsWith => "STARTSWITH"
    case EndsWith => "ENDSWITH"
    case IsEmpty => "ISEMPTY"
    case Between => "BETWEEN"
  }

  /** Strings are rendered raw, integers in decimal, timestamps as date literals. */
  function OperandText(v: Operand): string
    requires !v.Other?
  {
    match v
    case Str(s) => s
    case Int(i) => IntToString(i)
    case DateTime(t) => DateLiteral(t)
  }

  function StatementText(st: Statement): string
    requires Accepts(st.op, st.args)
  {
    st.field + Token(st.op) +
    match st.op
    case IsEmpty => ""
    case Between => OperandText(st.args[0]) + "@" + OperandText(st.args[1])
    case _ => OperandText(st.args[0])
  }

  function JoinToken(j: Option<Join>): string
  {
    match j
    case None => ""
    case Some(And) => "^"
    case Some(Or) => "^OR"
    case Some(NQ) => "^NQ"
  }

  /** What follows the separator in a join token. */
  function JoinMarker(j: Option<Join>): string
  {
    match j
    case None | Some(And) => ""
    case Some(Or) => "OR"
    case Some(NQ) => "NQ"
  }

  predicate WellTyped(cs: seq<Clause>)
  {
    forall i :: 0 <= i < |cs| ==> Accepts(cs[i].stmt.op, cs[i].stmt.args)
  }

  /** Exactly the first clause has no join. */
  predicate WellJoined(cs: seq<Clause>)
  {
    forall i :: 0 <= i < |cs| ==> (cs[i].join.None? <==> i == 0)
  }

  function ClauseText(c: Clause): string
    requires Accepts(c.stmt.op, c.stmt.args)
  {
    JoinToken(c.join) + StatementText(c.stmt)
  }

  /** The strings of a sequence, concatenated in order. */
  function Concat(ts: seq<string>): string
  {
    if ts == [] then "" else ts[0] + Concat(ts[1..])
  }

  lemma {:induction false} ConcatAppend(ts: seq<string>, t: string)
    ensures Concat(ts + [t]) == Concat(ts) + t
    decreases |ts|
  {
    if ts == [] {
      assert [t][1..] == [];
    } else {
      assert (ts + [t])[1..] == ts[1..] + [t];
      ConcatAppend(ts[1..], t);
    }
  }

  /** The text of each clause, in order. */
  function Texts(cs: seq<Clause>): seq<string>
    requires WellTyped(cs)
  {
    seq(|cs|, i requires 0 <= i < |cs| => ClauseText(cs[i]))
  }

  /** The encoded query: the clauses rendered in order and concatenated. */
  function Render(cs: seq<Clause>): string
    requires WellTyped(cs)
  {
    Concat(Texts(cs))
  }

  /** Appending a clause appends its join token and its statement to the rendering. */
  lemma RenderAppend(cs: seq<Clause>, c: Clause)
    requires WellTyped(cs) && Accepts(c.stmt.op, c.stmt.args)
    ensures WellTyped(cs + [c])
    ensures Render(cs + [c]) == Render(cs) + ClauseText(c)
  {
    assert Texts(cs + [c]) == Texts(cs) + [ClauseText(c)];
    ConcatAppend(Texts(cs), ClauseText(c));
  }

  lemma Rendered1(c: Clause)
    requires Accepts(c.stmt.op, c.stmt.args)
    ensures Render([c]) == ClauseText(c)
  {
    assert Texts([c]) == [] + [ClauseText(c)];
    ConcatAppend([], ClauseText(c));
  }

  lemma Rendered2(c1: Clause, c2: Clause)
    requires Accepts(c1.stmt.op, c1.stmt.args) && Accepts(c2.stmt.op, c2.stmt.args)
    ensures Render([c1, c2]) == ClauseText(c1) + ClauseText(c2)
  {
    Rendered1(c1);
    RenderAppend([c1], c2);
    assert [c1] + [c2] == [c1, c2];
  }

  lemma Rendered3(c1: Clause, c2: Clause, c3: Clause)
    requires Accepts(c1.stmt.op, c1.stmt.args) && Accepts(c2.stmt.op, c2.stmt.args)
    requires Accepts(c3.stmt.op, c3.stmt.args)
    ensures Render([c1, c2, c3]) == ClauseText(c1) + ClauseText(c2) + ClauseText(c3)
  {
    Rendered2(c1, c2);
    RenderAppend([c1, c2], c3);
    assert [c1, c2] + [c3] == [c1, c2, c3];
  }

  /** A condition on one string operand renders as its join token, the field,
      the operator token and the string itself. */
  lemma StrClauseText(j: Option<Join>, field: string, op: Operator, v: string)
    requires Accepts(op, [Str(v)])
    ensures ClauseText(Clause(j, Statement(field, op, [Str(v)]))) == JoinToken(j) + field + Token(op) + v
  {
  }

  /** A condition on one integer renders the integer in decimal. */
  lemma IntClauseText(j: Option<Join>, field: string, op: Operator, i: int)
    requires Accepts(op, [Int(i)])
    ensures ClauseText(Clause(j, Statement(field, op, [Int(i)]))) == JoinToken(j) + field + Token(op) + IntToString(i)
  {
  }

  /** `between` renders its two operands around '@'. */
  lemma BetweenClauseText(j: Option<Join>, field: string, lo: Operand, hi: Operand)
    requires Accepts(Between, [lo, hi])
    ensures ClauseText(Clause(j, Statement(field, Between, [lo, hi])))
         == JoinToken(j) + field + "BETWEEN" + OperandText(lo) + "@" + OperandText(hi)
  {
  }

  /** A non-empty query renders to a non-empty string. */
  lemma {:induction false} RenderNonEmpty(cs: seq<Clause>)
    requires WellTyped(cs) && cs != []
    ensures |Render(cs)| >= 1
  {
    assert Texts(cs)[0] == ClauseText(cs[0]);
    assert |StatementText(cs[0].stmt)| >= |Token(cs[0].stmt.op)|;
  }

  // ----- Splitting the rendering back at the join separators -----

  /** Splits a string at every '^'. */
  function Split(s: string): (parts: seq<string>)
    ensures |parts| >= 1
  {
    if s == [] then [""]
    else if s[0] == '^' then [""] + Split(s[1..])
    else var rest := Split(s[1..]); [[s[0]] + rest[0]] + rest[1..]
  }

  /** A prefix without '^' extends the first part only. */
  lemma {:induction false} SplitPlain(a: string, t: string)
    requires '^' !in a
    ensures Split(a + t) == [a + Split(t)[0]] + Split(t)[1..]
    decreases |a|
  {
    if a == [] {
      assert a + t == t;
      assert a + Split(t)[0] == Split(t)[0];
      assert Split(t) == [Split(t)[0]] + Split(t)[1..];
    } else {
      assert (a + t)[0] == a[0];
      assert (a + t)[1..] == a[1..] + t;
      SplitPlain(a[1..], t);
      assert [a[0]] + (a[1..] + Split(t)[0]) == a + Split(t)[0];
    }
  }

  lemma {:induction false} SplitCaret(t: string)
    ensures Split("^" + t) == [""] + Split(t)
  {
    assert ("^" + t)[0] == '^';
    assert ("^" + t)[1..] == t;
  }

  /** No field name and no string operand contains the separator '^'. */
  predicate CaretFree(st: Statement)
  {
    && '^' !in st.field
    && forall i :: 0 <= i < |st.args| ==> st.args[i].Str? ==> '^' !in st.args[i].s
  }

  lemma DigitsCaretFree(s: string)
    requires IsDigits(s)
    ensures '^' !in s
  {
  }

  lemma {:induction false} AssembleCaretFree(y: string, mo: string, d: string, h: string, mi: string, sec: string)
    requires '^' !in y && '^' !in mo && '^' !in d && '^' !in h && '^' !in mi && '^' !in sec
    ensures '^' !in Assemble(y, mo, d, h, mi, sec)
  {
  }

  lemma PadLeftCaretFree(n: nat, width: nat)
    ensures '^' !in PadLeft(n, width)
  {
    PadLeftDigits(n, width);
    DigitsCaretFree(PadLeft(n, width));
  }

  lemma DateLiteralCaretFree(t: Timestamp)
    ensures '^' !in DateLiteral(t)
  {
    PadLeftCaretFree(t.year, 4);
    PadLeftCaretFree(t.month, 2);
    PadLeftCaretFree(t.day, 2);
    PadLeftCaretFree(t.hour, 2);
    PadLeftCaretFree(t.minute, 2);
    PadLeftCaretFree(t.second, 2);
    AssembleCaretFree(PadLeft(t.year, 4), PadLeft(t.month, 2), PadLeft(t.day, 2),
                      PadLeft(t.hour, 2), PadLeft(t.minute, 2), PadLeft(t.second, 2));
    assert '^' !in DateOpen;
    assert '^' !in DateClose;
  }

  lemma {:induction false} OperandCaretFree(v: Operand)
    requires !v.Other? && (v.Str? ==> '^' !in v.s)
    ensures '^' !in OperandText(v)
  {
    match v
    case Str(_) =>
    case Int(i) =>
      NatToStringDigits(if i < 0 then -i else i);
      DigitsCaretFree(NatToString(if i < 0 then -i else i));
    case DateTime(t) =>
      DateLiteralCaretFree(t);
  }

  lemma {:induction false} StatementCaretFree(st: Statement)
    requires Accepts(st.op, st.args) && CaretFree(st)
    ensures '^' !in StatementText(st)
  {
    match st.op
    case IsEmpty =>
    case Between =>
      OperandCaretFree(st.args[0]);
      OperandCaretFree(st.args[1]);
    case _ =>
      OperandCaretFree(st.args[0]);
  }

  /** The text between two separators: the join's marker, then the statement. */
  function Segment(c: Clause): string
    requires Accepts(c.stmt.op, c.stmt.args)
  {
    JoinMarker(c.join) + StatementText(c.stmt)
  }

  function Segments(cs: seq<Clause>): seq<string>
    requires WellTyped(cs)
  {
    seq(|cs|, i requires 0 <= i < |cs| => Segment(cs[i]))
  }

  predicate AllCaretFree(cs: seq<Clause>)
  {
    forall i :: 0 <= i < |cs| ==> CaretFree(cs[i].stmt)
  }

  /** A clause without a join renders as its bare segment. */
  lemma ClauseTextFirst(c: Clause)
    requires Accepts(c.stmt.op, c.stmt.args) && c.join.None?
    ensures ClauseText(c) == Segment(c)
  {
    assert JoinToken(c.join) == "";
  }

  /** A clause with a join renders as the separator followed by its segment. */
  lemma ClauseTextJoined(c: Clause)
    requires Accepts(c.stmt.op, c.stmt.args) && c.join.Some?
    ensures ClauseText(c) == "^" + Segment(c)
  {
    JoinTokenMarker(c.join.value);
    var m, t := JoinMarker(c.join), StatementText(c.stmt);
    assert ("^" + m) + t == "^" + (m + t);
  }

  /** Every join token is the separator followed by the join's marker. */
  lemma JoinTokenMarker(j: Join)
    ensures JoinToken(Some(j)) == "^" + JoinMarker(Some(j))
    ensures '^' !in JoinMarker(Some(j))
  {
  }

  lemma {:induction false} SegmentCaretFree(c: Clause)
    requires Accepts(c.stmt.op, c.stmt.args) && CaretFree(c.stmt)
    ensures '^' !in Segment(c)
  {
    StatementCaretFree(c.stmt);
    assert '^' !in JoinMarker(c.join);
  }

  /** Texts that are each the separator followed by a '^'-free segment split
      into an empty first part and then those segments. */
  lemma {:induction false} SplitSeparated(ts: seq<string>, segs: seq<string>)
    requires |ts| == |segs|
    requires forall i :: 0 <= i < |ts| ==> ts[i] == "^" + segs[i]
    requires forall i :: 0 <= i < |segs| ==> '^' !in segs[i]
    ensures Split(Concat(ts)) == [""] + segs
    decreases |ts|
  {
    if ts != [] {
      var seg, rest := segs[0], Concat(ts[1..]);
      assert Concat(ts) == "^" + (seg + rest);
      SplitCaret(seg + rest);
      SplitPlain(seg, rest);
      SplitSeparated(ts[1..], segs[1..]);
      assert seg + Split(rest)[0] == seg;
      assert segs == [seg] + segs[1..];
    }
  }

  /** A '^'-free first text followed by separated segments splits into all the segments. */
  lemma {:induction false} SplitLeading(ts: seq<string>, segs: seq<string>)
    requires |ts| == |segs| >= 1 && ts[0] == segs[0]
    requires forall i :: 1 <= i < |ts| ==> ts[i] == "^" + segs[i]
    requires forall i :: 0 <= i < |segs| ==> '^' !in segs[i]
    ensures Split(Concat(ts)) == segs
  {
    var rest := Concat(ts[1..]);
    SplitPlain(segs[0], rest);
    SplitSeparated(ts[1..], segs[1..]);
    assert segs[0] + Split(rest)[0] == segs[0];
    assert segs == [segs[0]] + segs[1..];
  }

  /** Every clause after the first renders as the separator followed by its segment. */
  lemma TextsJoined(cs: seq<Clause>)
    requires WellTyped(cs) && WellJoined(cs)
    ensures forall i :: 1 <= i < |cs| ==> Texts(cs)[i] == "^" + Segments(cs)[i]
  {
    forall i | 1 <= i < |cs|
      ensures Texts(cs)[i] == "^" + Segments(cs)[i]
    {
      ClauseTextJoined(cs[i]);
    }
  }

  lemma SegmentsCaretFree(cs: seq<Clause>)
    requires WellTyped(cs) && AllCaretFree(cs)
    ensures forall i :: 0 <= i < |cs| ==> '^' !in Segments(cs)[i]
  {
    forall i | 0 <= i < |cs|
      ensures '^' !in Segments(cs)[i]
    {
      SegmentCaretFree(cs[i]);
    }
  }

  /** With no '^' inside field names or string operands, splitting the encoded
      query at '^' recovers exactly one segment per statement, in order: the
      first bare, each later one prefixed by "" (AND), "OR" or "NQ". */
  lemma SplitRender(cs: seq<Clause>)
    requires WellTyped(cs) && WellJoined(cs) && AllCaretFree(cs) && cs != []
    ensures Split(Render(cs)) == Segments(cs)
    ensures |Split(Render(cs))| == |cs|
  {
    assert cs[0].join.None?;
    ClauseTextFirst(cs[0]);
    TextsJoined(cs);
    SegmentsCaretFree(cs);
    SplitLeading(Texts(cs), Segments(cs));
  }
}
