/** The compile vectors of `driver/sql_query_builders_test.go`: each builder
    call sequence of the tests, compiled, gives the text and the argument list
    the tests expect. */
module CompileVectors {
  import opened Driver
  import opened Placeholders
  import opened QueryBuilder
  import opened Compiler
  import Decimal

  /** The text of a `$k` marker. */
  function Marker(k: nat): string {
    "$" + Decimal.DecimalString(k)
  }

  // ---------------------------------------------------------------------
  // Rendering helpers

  lemma Render5(a: Token, b: Token, c: Token, d: Token, e: Token)
    ensures Render([a, b, c, d, e]) == TokenText(a) + (TokenText(b) + (TokenText(c) + (TokenText(d) + TokenText(e))))
  {
    RenderCons(a, [b, c, d, e]);
    RenderCons(b, [c, d, e]);
    RenderCons(c, [d, e]);
    RenderCons(d, [e]);
    RenderCons(e, []);
    assert [a] + [b, c, d, e] == [a, b, c, d, e];
    assert [b] + [c, d, e] == [b, c, d, e];
    assert [c] + [d, e] == [c, d, e];
    assert [d] + [e] == [d, e];
    assert [e] + [] == [e];
    assert TokenText(e) + "" == TokenText(e);
  }

  lemma StringAssoc(a: string, b: string, c: string, d: string, e: string, f: string, g: string, h: string, i: string, j: string)
    ensures (a + (b + (c + (d + e)))) + (f + (g + (h + (i + j)))) == a + b + c + d + e + f + g + h + i + j
  {
  }

  lemma FragmentHalves(j: Join, k: nat)
    ensures JoinFragment(j, k) == [Lit(j.kind.Keyword() + " "), Ph(k + 2), Lit(" ON "), Ph(k), Lit(".")] + [Ph(k + 1), Lit(" = "), Ph(k + 2), Lit("."), Ph(k + 3)]
  {
  }

  /** A join's ON fragment reads `<KEYWORD> $k+2 ON $k.$k+1 = $k+2.$k+3`. */
  lemma RenderJoinFragment(j: Join, k: nat)
    ensures Render(JoinFragment(j, k)) == j.kind.Keyword() + " " + Marker(k + 2) + " ON " + Marker(k) + "." + Marker(k + 1) + " = " + Marker(k + 2) + "." + Marker(k + 3)
  {
    var left := [Lit(j.kind.Keyword() + " "), Ph(k + 2), Lit(" ON "), Ph(k), Lit(".")];
    var right := [Ph(k + 1), Lit(" = "), Ph(k + 2), Lit("."), Ph(k + 3)];
    FragmentHalves(j, k);
    RenderAppend(left, right);
    Render5(left[0], left[1], left[2], left[3], left[4]);
    Render5(right[0], right[1], right[2], right[3], right[4]);
    StringAssoc(j.kind.Keyword() + " ", Marker(k + 2), " ON ", Marker(k), ".", Marker(k + 1), " = ", Marker(k + 2), ".", Marker(k + 3));
  }

  // ---------------------------------------------------------------------
  // Compile helpers

  lemma RawLoop(q: string)
    ensures EmitSelection([Raw(q)], Emission([Lit("SELECT ")], [], 1)) == Emission([Lit("SELECT "), Lit(q), Lit(", ")], [], 1)
  {
    assert [Raw(q)][1..] == [];
    assert [Lit("SELECT ")] + ItemTokens(Raw(q), 1) + [Lit(", ")] == [Lit("SELECT "), Lit(q), Lit(", ")];
    assert [] + ItemArgs(Raw(q)) == [];
  }

  /** A single raw item: "SELECT <q>", no arguments. */
  lemma RawSelection(q: string)
    ensures CompileSelection([Raw(q)]) == Emission([Lit("SELECT "), Lit(q)], [], 1)
  {
    RawLoop(q);
    assert ", "[..0] == "";
    assert [Lit("SELECT "), Lit(q), Lit(", ")][..2] == [Lit("SELECT "), Lit(q)];
  }

  /** Without predicates the text ends with the from phase and the limit. */
  lemma CompileNoWhere(g: Generator)
    requires g.where == []
    ensures var e2 := EmitFrom(g, CompileSelection(g.selection));
      Compile(g).tokens == e2.tokens + LimitTokens(g.limit) && Compile(g).args == e2.args
  {
  }

  lemma NoLimit(limit: int)
    requires limit <= 0
    ensures LimitTokens(limit) == []
  {
  }

  lemma WhereOne(pr: Predicate, e: Emission, stride: nat)
    ensures EmitWhere([pr], 0, e, stride) == Emission(e.tokens + PredicateTokens(pr, e.next), e.args + [Text(pr.column), pr.value], e.next + stride)
  {
    assert [pr][1..] == [];
    assert e.tokens + AndSeparator(0) == e.tokens;
  }

  /** One predicate: " WHERE $k <op> $k+1" after the from phase. */
  lemma CompileOneWhere(g: Generator)
    requires |g.where| == 1
    ensures var e2 := EmitFrom(g, CompileSelection(g.selection));
      && Compile(g).tokens == e2.tokens + [Lit(" WHERE ")] + PredicateTokens(g.where[0], e2.next) + LimitTokens(g.limit)
      && Compile(g).args == e2.args + [Text(g.where[0].column), g.where[0].value]
  {
    var e2 := EmitFrom(g, CompileSelection(g.selection));
    assert g.where == [g.where[0]];
    WhereOne(g.where[0], e2.(tokens := e2.tokens + [Lit(" WHERE ")]), WrittenWhereStride);
  }

  /** A raw item and a plain from-table: "SELECT <q> FROM $1". */
  lemma PlainFrom(g: Generator, q: string)
    requires g.selection == [Raw(q)] && g.from != "" && g.joins == []
    ensures EmitFrom(g, CompileSelection(g.selection)) == Emission([Lit("SELECT "), Lit(q)] + [Lit(" FROM "), Ph(1)], [Text(g.from)], 2)
  {
    RawSelection(q);
  }

  lemma OneJoin(j: Join, from: string, k: nat)
    ensures EmitJoins([j], from, Emission([], [], k)) == Emission([Ph(k + 4), Lit(" ")] + JoinFragment(j, k), JoinArgs(j) + [Text(from)], k + 5)
  {
    assert [] + JoinArgs(j) == JoinArgs(j);
  }

  /** A raw item, a from-table and one join: "SELECT <q> FROM $5 <fragment>". */
  lemma SingleJoinFrom(g: Generator, q: string)
    requires g.selection == [Raw(q)] && g.from != "" && |g.joins| == 1
    ensures EmitFrom(g, CompileSelection(g.selection))
      == Emission([Lit("SELECT "), Lit(q), Lit(" FROM ")] + ([Ph(5), Lit(" ")] + JoinFragment(g.joins[0], 1)), JoinArgs(g.joins[0]) + [Text(g.from)], 6)
  {
    RawSelection(q);
    OneJoin(g.joins[0], g.from, 1);
    assert [Lit("SELECT "), Lit(q)] + [Lit(" FROM ")] == [Lit("SELECT "), Lit(q), Lit(" FROM ")];
  }

  lemma Markers()
    ensures Marker(1) == "$1" && Marker(2) == "$2" && Marker(3) == "$3" && Marker(4) == "$4" && Marker(5) == "$5"
    ensures Marker(6) == "$6" && Marker(7) == "$7" && Marker(8) == "$8" && Marker(9) == "$9"
  {
  }

  lemma TwoDigitMarkers()
    ensures Marker(10) == "$10" && Marker(11) == "$11" && Marker(12) == "$12" && Marker(13) == "$13"
    ensures Decimal.DecimalString(10) == "10"
  {
    assert Decimal.DecimalString(10) == Decimal.DecimalString(1) + [Decimal.DigitChar(0)];
    assert Decimal.DecimalString(11) == Decimal.DecimalString(1) + [Decimal.DigitChar(1)];
    assert Decimal.DecimalString(12) == Decimal.DecimalString(1) + [Decimal.DigitChar(2)];
    assert Decimal.DecimalString(13) == Decimal.DecimalString(1) + [Decimal.DigitChar(3)];
  }

  lemma PhText(k: nat)
    ensures TokenText(Ph(k)) == Marker(k)
  {
  }

  lemma Render2(a: Token, b: Token)
    ensures Render([a, b]) == TokenText(a) + TokenText(b)
  {
    RenderCons(a, [b]);
    RenderCons(b, []);
    assert [a] + [b] == [a, b];
    assert [b] + [] == [b];
    assert TokenText(b) + "" == TokenText(b);
  }

  lemma Render3(a: Token, b: Token, c: Token)
    ensures Render([a, b, c]) == TokenText(a) + (TokenText(b) + TokenText(c))
  {
    RenderCons(a, [b, c]);
    Render2(b, c);
    assert [a] + [b, c] == [a, b, c];
  }

  // ---------------------------------------------------------------------
  // The vectors

  /** `TestSQLSelectQueryGenerator_Compile` */
  lemma EmptyBuilderVector()
    ensures Compile(NewGenerator()).Text() == "SELECT"
    ensures Compile(NewGenerator()).args == []
  {
  }

  /** `TestSQLSelectQueryGenerator_SelectRaw` */
  lemma SelectRawVector()
    ensures Compile(SelectRaw(NewGenerator(), "1")).Text() == "SELECT 1"
    ensures Compile(SelectRaw(NewGenerator(), "1")).args == []
  {
    var g := Generator([], [Raw("1")], "", [], -1);
    assert SelectRaw(NewGenerator(), "1") == g;
    RawSelection("1");
    CompileNoWhere(g);
    NoLimit(-1);
    assert [Lit("SELECT "), Lit("1")] + [] == [Lit("SELECT "), Lit("1")];
    Render2(Lit("SELECT "), Lit("1"));
  }

  lemma FromText()
    ensures Render([Lit("SELECT "), Lit("1")] + [Lit(" FROM "), Ph(1)]) == "SELECT 1 FROM $1"
  {
    RenderAppend([Lit("SELECT "), Lit("1")], [Lit(" FROM "), Ph(1)]);
    Render2(Lit("SELECT "), Lit("1"));
    Render2(Lit(" FROM "), Ph(1));
    PhText(1);
    Markers();
  }

  /** `TestSQLSelectQueryGenerator_From` */
  lemma FromVector()
    ensures var c := Compile(From(SelectRaw(NewGenerator(), "1"), "test"));
      c.Text() == "SELECT 1 FROM $1" && c.args == [Text("test")]
  {
    var g := Generator([], [Raw("1")], "test", [], -1);
    assert From(SelectRaw(NewGenerator(), "1"), "test") == g;
    PlainFrom(g, "1");
    CompileNoWhere(g);
    NoLimit(-1);
    assert [Lit("SELECT "), Lit("1")] + [Lit(" FROM "), Ph(1)] + [] == [Lit("SELECT "), Lit("1")] + [Lit(" FROM "), Ph(1)];
    FromText();
  }

  lemma WhereGenerator()
    ensures Where(From(SelectRaw(NewGenerator(), "1"), "test"), "a", Equal.Text(), Text("b"))
      == Generator([], [Raw("1")], "test", [Predicate("a", "=", Text("b"))], -1)
  {
  }

  lemma OperatorTokens(column: string, op: WhereOperator, v: Value, k: nat)
    ensures PredicateTokens(Predicate(column, op.Text(), v), k) == [Ph(k), Lit(" " + op.Text() + " "), Ph(k + 1)]
    ensures " " + Equal.Text() + " " == " = " && " " + NotEqual.Text() + " " == " <> "
  {
  }

  lemma WhereTokens()
    ensures var c := Compile(Generator([], [Raw("1")], "test", [Predicate("a", "=", Text("b"))], -1));
      c.tokens == [Lit("SELECT "), Lit("1")] + [Lit(" FROM "), Ph(1)] + [Lit(" WHERE ")] + [Ph(2), Lit(" = "), Ph(3)]
      && c.args == [Text("test"), Text("a"), Text("b")]
  {
    var g := Generator([], [Raw("1")], "test", [Predicate("a", "=", Text("b"))], -1);
    PlainFrom(g, "1");
    CompileOneWhere(g);
    NoLimit(-1);
    OperatorTokens("a", Equal, Text("b"), 2);
  }

  lemma WhereChars()
    ensures "SELECT " + "1" + (" FROM " + "$1") + " WHERE " + ("$2" + (" = " + "$3")) == "SELECT 1 FROM $1 WHERE $2 = $3"
  {
  }

  lemma WhereText()
    ensures Render([Lit("SELECT "), Lit("1")] + [Lit(" FROM "), Ph(1)] + [Lit(" WHERE ")] + [Ph(2), Lit(" = "), Ph(3)]) == "SELECT 1 FROM $1 WHERE $2 = $3"
  {
    var a, b, c, d := [Lit("SELECT "), Lit("1")], [Lit(" FROM "), Ph(1)], [Lit(" WHERE ")], [Ph(2), Lit(" = "), Ph(3)];
    RenderAppend(a, b);
    RenderAppend(a + b, c);
    RenderAppend(a + b + c, d);
    Render2(a[0], a[1]);
    Render2(b[0], b[1]);
    RenderCons(c[0], []);
    assert c == [c[0]] + [];
    Render3(d[0], d[1], d[2]);
    PhText(1);
    PhText(2);
    PhText(3);
    Markers();
    WhereChars();
  }

  /** `TestSQLSelectQueryGenerator_Where` */
  lemma WhereVector()
    ensures var c := Compile(Where(From(SelectRaw(NewGenerator(), "1"), "test"), "a", Equal.Text(), Text("b")));
      c.Text() == "SELECT 1 FROM $1 WHERE $2 = $3" && c.args == [Text("test"), Text("a"), Text("b")]
  {
    WhereGenerator();
    WhereTokens();
    WhereText();
  }

  lemma LimitChars()
    ensures " LIMIT " + "10" == " LIMIT 10"
  {
  }

  lemma LimitTen()
    ensures LimitTokens(10) == [Lit(" LIMIT 10")]
  {
    TwoDigitMarkers();
    LimitChars();
  }

  lemma LimitTokensTen()
    ensures var g := Generator([], [Raw("1")], "", [], 10);
      Compile(g).tokens == [Lit("SELECT "), Lit("1")] + [Lit(" LIMIT 10")] && Compile(g).args == []
  {
    var g := Generator([], [Raw("1")], "", [], 10);
    RawSelection("1");
    CompileNoWhere(g);
    LimitTen();
  }

  lemma LimitText()
    ensures Render([Lit("SELECT "), Lit("1")] + [Lit(" LIMIT 10")]) == "SELECT 1 LIMIT 10"
  {
    RenderAppend([Lit("SELECT "), Lit("1")], [Lit(" LIMIT 10")]);
    Render2(Lit("SELECT "), Lit("1"));
    RenderCons(Lit(" LIMIT 10"), []);
    assert [Lit(" LIMIT 10")] == [Lit(" LIMIT 10")] + [];
    LimitTextChars();
  }

  lemma LimitTextChars()
    ensures "SELECT " + "1" + " LIMIT 10" == "SELECT 1 LIMIT 10"
  {
  }

  /** `TestSQLSelectQueryGenerator_Limit` */
  lemma LimitVector()
    ensures var c := Compile(Limit(SelectRaw(NewGenerator(), "1"), 10));
      c.Text() == "SELECT 1 LIMIT 10" && c.args == []
  {
    assert Limit(SelectRaw(NewGenerator(), "1"), 10) == Generator([], [Raw("1")], "", [], 10);
    LimitTokensTen();
    LimitText();
  }

  // The single-join tests

  /** The compiled single-join query: "SELECT 1 FROM $5 <fragment>". */
  lemma SingleJoinTokens(g: Generator)
    requires g.selection == [Raw("1")] && g.from != "" && |g.joins| == 1 && g.where == [] && g.limit <= 0
    ensures Compile(g).tokens == [Lit("SELECT "), Lit("1"), Lit(" FROM ")] + ([Ph(5), Lit(" ")] + JoinFragment(g.joins[0], 1))
    ensures Compile(g).args == JoinArgs(g.joins[0]) + [Text(g.from)]
  {
    SingleJoinFrom(g, "1");
    CompileNoWhere(g);
    NoLimit(g.limit);
  }

  lemma SingleJoinChars(kw: string)
    ensures "SELECT " + ("1" + " FROM ") + ("$5" + " " + (kw + " " + "$3" + " ON " + "$1" + "." + "$2" + " = " + "$3" + "." + "$4"))
      == "SELECT 1 FROM $5 " + kw + " $3 ON $1.$2 = $3.$4"
  {
  }

  lemma SingleJoinRenders(j: Join)
    ensures Render([Lit("SELECT "), Lit("1"), Lit(" FROM ")] + ([Ph(5), Lit(" ")] + JoinFragment(j, 1)))
      == "SELECT 1 FROM $5 " + j.kind.Keyword() + " $3 ON $1.$2 = $3.$4"
  {
    RenderAppend([Lit("SELECT "), Lit("1"), Lit(" FROM ")], [Ph(5), Lit(" ")] + JoinFragment(j, 1));
    RenderAppend([Ph(5), Lit(" ")], JoinFragment(j, 1));
    Render3(Lit("SELECT "), Lit("1"), Lit(" FROM "));
    Render2(Ph(5), Lit(" "));
    RenderJoinFragment(j, 1);
    PhText(5);
    Markers();
    SingleJoinChars(j.kind.Keyword());
  }

  /** A raw "1", from-table "testing" and one join of kind `k` on "test". */
  lemma SingleJoinVector(k: JoinKind, kw: string)
    requires kw == k.Keyword()
    ensures var c := Compile(Generator([Join(k, "test", "test", "test", "test")], [Raw("1")], "testing", [], -1));
      c.Text() == "SELECT 1 FROM $5 " + kw + " $3 ON $1.$2 = $3.$4" && |c.args| == 5
  {
    var g := Generator([Join(k, "test", "test", "test", "test")], [Raw("1")], "testing", [], -1);
    SingleJoinTokens(g);
    SingleJoinRenders(g.joins[0]);
  }

  lemma FullJoinChars()
    ensures "SELECT 1 FROM $5 " + "FULL OUTER JOIN" + " $3 ON $1.$2 = $3.$4" == "SELECT 1 FROM $5 FULL OUTER JOIN $3 ON $1.$2 = $3.$4"
  {
  }

  /** `TestSQLSelectQueryGenerator_FullJoin` */
  lemma FullJoinVector()
    ensures var c := Compile(FullJoin(From(SelectRaw(NewGenerator(), "1"), "testing"), "test", "test", "test", "test"));
      c.Text() == "SELECT 1 FROM $5 FULL OUTER JOIN $3 ON $1.$2 = $3.$4" && |c.args| == 5
  {
    var g := Generator([Join(Full, "test", "test", "test", "test")], [Raw("1")], "testing", [], -1);
    assert FullJoin(From(SelectRaw(NewGenerator(), "1"), "testing"), "test", "test", "test", "test") == g;
    SingleJoinVector(Full, "FULL OUTER JOIN");
    FullJoinChars();
  }

  lemma InnerJoinChars()
    ensures "SELECT 1 FROM $5 " + "INNER JOIN" + " $3 ON $1.$2 = $3.$4" == "SELECT 1 FROM $5 INNER JOIN $3 ON $1.$2 = $3.$4"
  {
  }

  /** `TestSQLSelectQueryGenerator_InnerJoin` */
  lemma InnerJoinVector()
    ensures var c := Compile(InnerJoin(From(SelectRaw(NewGenerator(), "1"), "testing"), "test", "test", "test", "test"));
      c.Text() == "SELECT 1 FROM $5 INNER JOIN $3 ON $1.$2 = $3.$4" && |c.args| == 5
  {
    var g := Generator([Join(Inner, "test", "test", "test", "test")], [Raw("1")], "testing", [], -1);
    assert InnerJoin(From(SelectRaw(NewGenerator(), "1"), "testing"), "test", "test", "test", "test") == g;
    SingleJoinVector(Inner, "INNER JOIN");
    InnerJoinChars();
  }

  lemma LeftJoinChars()
    ensures "SELECT 1 FROM $5 " + "LEFT JOIN" + " $3 ON $1.$2 = $3.$4" == "SELECT 1 FROM $5 LEFT JOIN $3 ON $1.$2 = $3.$4"
  {
  }

  /** `TestSQLSelectQueryGenerator_LeftJoin` */
  lemma LeftJoinVector()
    ensures var c := Compile(LeftJoin(From(SelectRaw(NewGenerator(), "1"), "testing"), "test", "test", "test", "test"));
      c.Text() == "SELECT 1 FROM $5 LEFT JOIN $3 ON $1.$2 = $3.$4" && |c.args| == 5
  {
    var g := Generator([Join(Left, "test", "test", "test", "test")], [Raw("1")], "testing", [], -1);
    assert LeftJoin(From(SelectRaw(NewGenerator(), "1"), "testing"), "test", "test", "test", "test") == g;
    SingleJoinVector(Left, "LEFT JOIN");
    LeftJoinChars();
  }

  lemma RightJoinChars()
    ensures "SELECT 1 FROM $5 " + "RIGHT JOIN" + " $3 ON $1.$2 = $3.$4" == "SELECT 1 FROM $5 RIGHT JOIN $3 ON $1.$2 = $3.$4"
  {
  }

  /** `TestSQLSelectQueryGenerator_RightJoin` */
  lemma RightJoinVector()
    ensures var c := Compile(RightJoin(From(SelectRaw(NewGenerator(), "1"), "testing"), "test", "test", "test", "test"));
      c.Text() == "SELECT 1 FROM $5 RIGHT JOIN $3 ON $1.$2 = $3.$4" && |c.args| == 5
  {
    var g := Generator([Join(Right, "test", "test", "test", "test")], [Raw("1")], "testing", [], -1);
    assert RightJoin(From(SelectRaw(NewGenerator(), "1"), "testing"), "test", "test", "test", "test") == g;
    SingleJoinVector(Right, "RIGHT JOIN");
    RightJoinChars();
  }

  // ---------------------------------------------------------------------
  // A right join followed by a predicate

  lemma RightWhereGenerator()
    ensures Where(RightJoin(From(SelectRaw(NewGenerator(), "1"), "testing"), "test", "test", "test", "test"), "testing", NotEqual.Text(), Text("a"))
      == Generator([Join(Right, "test", "test", "test", "test")], [Raw("1")], "testing", [Predicate("testing", "<>", Text("a"))], -1)
  {
  }

  lemma RightWhereTokens()
    ensures var g := Generator([Join(Right, "test", "test", "test", "test")], [Raw("1")], "testing", [Predicate("testing", "<>", Text("a"))], -1);
      && Compile(g).tokens == [Lit("SELECT "), Lit("1"), Lit(" FROM ")] + ([Ph(5), Lit(" ")] + JoinFragment(g.joins[0], 1)) + [Lit(" WHERE ")] + [Ph(6), Lit(" <> "), Ph(7)]
      && Compile(g).args == JoinArgs(g.joins[0]) + [Text("testing"), Text("testing"), Text("a")]
  {
    var g := Generator([Join(Right, "test", "test", "test", "test")], [Raw("1")], "testing", [Predicate("testing", "<>", Text("a"))], -1);
    SingleJoinFrom(g, "1");
    CompileOneWhere(g);
    NoLimit(-1);
    OperatorTokens("testing", NotEqual, Text("a"), 6);
  }

  lemma NotEqualChars()
    ensures "$6" + (" <> " + "$7") == "$6 <> $7"
  {
  }

  lemma RightWhereTail()
    ensures "SELECT 1 FROM $5 RIGHT JOIN $3 ON $1.$2 = $3.$4" + " WHERE " + "$6 <> $7"
      == "SELECT 1 FROM $5 RIGHT JOIN $3 ON $1.$2 = $3.$4 WHERE $6 <> $7"
  {
  }

  lemma RightWhereChars()
    ensures "SELECT 1 FROM $5 " + "RIGHT JOIN" + " $3 ON $1.$2 = $3.$4" + " WHERE " + ("$6" + (" <> " + "$7"))
      == "SELECT 1 FROM $5 RIGHT JOIN $3 ON $1.$2 = $3.$4 WHERE $6 <> $7"
  {
    RightJoinChars();
    NotEqualChars();
    RightWhereTail();
  }

  lemma RightWhereText(j: Join)
    requires j.kind == Right
    ensures Render([Lit("SELECT "), Lit("1"), Lit(" FROM ")] + ([Ph(5), Lit(" ")] + JoinFragment(j, 1)) + [Lit(" WHERE ")] + [Ph(6), Lit(" <> "), Ph(7)])
      == "SELECT 1 FROM $5 RIGHT JOIN $3 ON $1.$2 = $3.$4 WHERE $6 <> $7"
  {
    var a := [Lit("SELECT "), Lit("1"), Lit(" FROM ")] + ([Ph(5), Lit(" ")] + JoinFragment(j, 1));
    var w, p := [Lit(" WHERE ")], [Ph(6), Lit(" <> "), Ph(7)];
    RenderAppend(a, w);
    RenderAppend(a + w, p);
    SingleJoinRenders(j);
    RenderCons(w[0], []);
    assert w == [w[0]] + [];
    Render3(p[0], p[1], p[2]);
    PhText(6);
    PhText(7);
    Markers();
    RightWhereChars();
  }

  /** `TestSQLSelectQueryGenerator_SelectColumn` */
  lemma RightJoinWhereVector()
    ensures var c := Compile(Where(RightJoin(From(SelectRaw(NewGenerator(), "1"), "testing"), "test", "test", "test", "test"), "testing", NotEqual.Text(), Text("a")));
      c.Text() == "SELECT 1 FROM $5 RIGHT JOIN $3 ON $1.$2 = $3.$4 WHERE $6 <> $7" && |c.args| == 7
  {
    RightWhereGenerator();
    RightWhereTokens();
    RightWhereText(Join(Right, "test", "test", "test", "test"));
  }

  // ---------------------------------------------------------------------
  // Three joins, nested to the left

  /** A later join wraps what is already there in parentheses. */
  lemma MultiWrap(j: Join, from: string, t: seq<Token>, args: seq<Value>, k: nat)
    requires t != []
    ensures EmitJoins([j], from, Emission(t, args, k)) == Emission([Lit("(")] + t + [Lit(") ")] + JoinFragment(j, k), args + JoinArgs(j), k + 4)
  {
  }

  lemma MultiJoinLoop(j1: Join, j2: Join, j3: Join, from: string)
    ensures var t1 := [Ph(5), Lit(" ")] + JoinFragment(j1, 1);
      var t2 := [Lit("(")] + t1 + [Lit(") ")] + JoinFragment(j2, 6);
      var t3 := [Lit("(")] + t2 + [Lit(") ")] + JoinFragment(j3, 10);
      EmitJoins([j1, j2, j3], from, Emission([], [], 1)) == Emission(t3, JoinArgs(j1) + [Text(from)] + JoinArgs(j2) + JoinArgs(j3), 14)
  {
    var s1 := EmitJoins([j1], from, Emission([], [], 1));
    OneJoin(j1, from, 1);
    assert [j1, j2, j3][1..] == [j2, j3];
    assert [j2, j3][1..] == [j3];
    assert EmitJoins([j1, j2, j3], from, Emission([], [], 1)) == EmitJoins([j2, j3], from, s1);
    MultiWrap(j2, from, s1.tokens, s1.args, 6);
    var s2 := EmitJoins([j2], from, s1);
    assert EmitJoins([j2, j3], from, s1) == EmitJoins([j3], from, s2);
    MultiWrap(j3, from, s2.tokens, s2.args, 10);
  }

  lemma MultiJoinTokens(j1: Join, j2: Join, j3: Join)
    ensures var t1 := [Ph(5), Lit(" ")] + JoinFragment(j1, 1);
      var t2 := [Lit("(")] + t1 + [Lit(") ")] + JoinFragment(j2, 6);
      var t3 := [Lit("(")] + t2 + [Lit(") ")] + JoinFragment(j3, 10);
      var c := Compile(Generator([j1, j2, j3], [Raw("1")], "testing", [], 10));
      c.tokens == [Lit("SELECT "), Lit("1")] + [Lit(" FROM ")] + t3 + [Lit(" LIMIT 10")]
      && c.args == JoinArgs(j1) + [Text("testing")] + JoinArgs(j2) + JoinArgs(j3)
  {
    var g := Generator([j1, j2, j3], [Raw("1")], "testing", [], 10);
    RawSelection("1");
    MultiJoinLoop(j1, j2, j3, "testing");
    CompileNoWhere(g);
    LimitTen();
  }

  /** `Render` of a wrapped join: "(" + inner + ") " + fragment. */
  lemma MultiWrapRender(t: seq<Token>, f: seq<Token>)
    ensures Render([Lit("(")] + t + [Lit(") ")] + f) == "(" + Render(t) + ") " + Render(f)
  {
    RenderAppend([Lit("(")], t);
    RenderAppend([Lit("(")] + t, [Lit(") ")]);
    RenderAppend([Lit("(")] + t + [Lit(") ")], f);
    RenderCons(Lit("("), []);
    RenderCons(Lit(") "), []);
    assert [Lit("(")] == [Lit("(")] + [];
    assert [Lit(") ")] == [Lit(") ")] + [];
  }

  lemma MultiFirstChars()
    ensures "LEFT JOIN" + " " + "$3" + " ON " + "$1" + "." + "$2" + " = " + "$3" + "." + "$4" == "LEFT JOIN $3 ON $1.$2 = $3.$4"
  {
  }

  lemma MultiSecondChars()
    ensures "FULL OUTER JOIN" + " " + "$8" + " ON " + "$6" + "." + "$7" + " = " + "$8" + "." + "$9" == "FULL OUTER JOIN $8 ON $6.$7 = $8.$9"
  {
  }

  lemma MultiThirdChars()
    ensures "RIGHT JOIN" + " " + "$12" + " ON " + "$10" + "." + "$11" + " = " + "$12" + "." + "$13" == "RIGHT JOIN $12 ON $10.$11 = $12.$13"
  {
  }

  /** The innermost join, after the from-table marker. */
  lemma MultiFirstFragment(j: Join)
    requires j.kind == Left
    ensures Render([Ph(5), Lit(" ")] + JoinFragment(j, 1)) == "$5 " + "LEFT JOIN $3 ON $1.$2 = $3.$4"
  {
    RenderAppend([Ph(5), Lit(" ")], JoinFragment(j, 1));
    Render2(Ph(5), Lit(" "));
    PhText(5);
    RenderJoinFragment(j, 1);
    Markers();
    MultiFirstChars();
  }

  lemma MultiSecondFragment(j: Join)
    requires j.kind == Full
    ensures Render(JoinFragment(j, 6)) == "FULL OUTER JOIN $8 ON $6.$7 = $8.$9"
  {
    RenderJoinFragment(j, 6);
    Markers();
    MultiSecondChars();
  }

  lemma MultiThirdFragment(j: Join)
    requires j.kind == Right
    ensures Render(JoinFragment(j, 10)) == "RIGHT JOIN $12 ON $10.$11 = $12.$13"
  {
    RenderJoinFragment(j, 10);
    TwoDigitMarkers();
    MultiThirdChars();
  }

  lemma MultiStringAssoc(a: string, b: string, x1: string, x2: string, x3: string, tail: string)
    ensures a + b + " FROM " + ("(" + ("(" + x1 + ") " + x2) + ") " + x3) + tail
      == (a + b + " FROM " + "(" + "(") + x1 + (") " + x2) + (") " + x3) + tail
  {
  }

  lemma MultiHeadChars()
    ensures "SELECT " + "1" + " FROM " + "(" + "(" == "SELECT 1 FROM (("
    ensures "$5 " + "LEFT JOIN $3 ON $1.$2 = $3.$4" == "$5 LEFT JOIN $3 ON $1.$2 = $3.$4"
  {
  }

  lemma MultiWrapChars()
    ensures ") " + "FULL OUTER JOIN $8 ON $6.$7 = $8.$9" == ") FULL OUTER JOIN $8 ON $6.$7 = $8.$9"
  {
  }

  lemma MultiLastWrapChars()
    ensures ") " + "RIGHT JOIN $12 ON $10.$11 = $12.$13" == ") RIGHT JOIN $12 ON $10.$11 = $12.$13"
  {
  }

  lemma MultiChars(x1: string, x2: string, x3: string)
    requires x1 == "$5 " + "LEFT JOIN $3 ON $1.$2 = $3.$4"
    requires x2 == "FULL OUTER JOIN $8 ON $6.$7 = $8.$9"
    requires x3 == "RIGHT JOIN $12 ON $10.$11 = $12.$13"
    ensures "SELECT " + "1" + " FROM " + ("(" + ("(" + x1 + ") " + x2) + ") " + x3) + " LIMIT 10"
      == "SELECT 1 FROM ((" + "$5 LEFT JOIN $3 ON $1.$2 = $3.$4" + ") FULL OUTER JOIN $8 ON $6.$7 = $8.$9" + ") RIGHT JOIN $12 ON $10.$11 = $12.$13" + " LIMIT 10"
  {
    MultiStringAssoc("SELECT ", "1", x1, x2, x3, " LIMIT 10");
    MultiHeadChars();
    MultiWrapChars();
    MultiLastWrapChars();
  }

  /** The shape of the three-join text, whatever the fragments render to. */
  lemma MultiHeadRender(t3: seq<Token>)
    ensures Render([Lit("SELECT "), Lit("1")] + [Lit(" FROM ")] + t3 + [Lit(" LIMIT 10")])
      == "SELECT " + "1" + " FROM " + Render(t3) + " LIMIT 10"
  {
    var head := [Lit("SELECT "), Lit("1")] + [Lit(" FROM ")];
    RenderAppend(head, t3);
    RenderAppend(head + t3, [Lit(" LIMIT 10")]);
    RenderAppend([Lit("SELECT "), Lit("1")], [Lit(" FROM ")]);
    Render2(Lit("SELECT "), Lit("1"));
    RenderCons(Lit(" FROM "), []);
    RenderCons(Lit(" LIMIT 10"), []);
    assert [Lit(" FROM ")] == [Lit(" FROM ")] + [];
    assert [Lit(" LIMIT 10")] == [Lit(" LIMIT 10")] + [];
  }

  lemma MultiRender(t1: seq<Token>, f2: seq<Token>, f3: seq<Token>)
    ensures var t3 := [Lit("(")] + ([Lit("(")] + t1 + [Lit(") ")] + f2) + [Lit(") ")] + f3;
      Render([Lit("SELECT "), Lit("1")] + [Lit(" FROM ")] + t3 + [Lit(" LIMIT 10")])
        == "SELECT " + "1" + " FROM " + ("(" + ("(" + Render(t1) + ") " + Render(f2)) + ") " + Render(f3)) + " LIMIT 10"
  {
    var t2 := [Lit("(")] + t1 + [Lit(") ")] + f2;
    var t3 := [Lit("(")] + t2 + [Lit(") ")] + f3;
    MultiHeadRender(t3);
    MultiWrapRender(t1, f2);
    MultiWrapRender(t2, f3);
  }


  lemma MultiText(j1: Join, j2: Join, j3: Join)
    requires j1.kind == Left && j2.kind == Full && j3.kind == Right
    ensures var t1 := [Ph(5), Lit(" ")] + JoinFragment(j1, 1);
      var t2 := [Lit("(")] + t1 + [Lit(") ")] + JoinFragment(j2, 6);
      var t3 := [Lit("(")] + t2 + [Lit(") ")] + JoinFragment(j3, 10);
      Render([Lit("SELECT "), Lit("1")] + [Lit(" FROM ")] + t3 + [Lit(" LIMIT 10")])
        == "SELECT 1 FROM ((" + "$5 LEFT JOIN $3 ON $1.$2 = $3.$4" + ") FULL OUTER JOIN $8 ON $6.$7 = $8.$9" + ") RIGHT JOIN $12 ON $10.$11 = $12.$13" + " LIMIT 10"
  {
    var t1 := [Ph(5), Lit(" ")] + JoinFragment(j1, 1);
    MultiRender(t1, JoinFragment(j2, 6), JoinFragment(j3, 10));
    MultiFirstFragment(j1);
    MultiSecondFragment(j2);
    MultiThirdFragment(j3);
    MultiChars(Render(t1), Render(JoinFragment(j2, 6)), Render(JoinFragment(j3, 10)));
  }

  lemma MultiGenerator()
    ensures Limit(RightJoin(FullJoin(LeftJoin(From(SelectRaw(NewGenerator(), "1"), "testing"),
        "test", "test", "test", "test"), "test", "test", "test", "test"), "test", "test", "test", "test"), 10)
      == Generator([Join(Left, "test", "test", "test", "test"), Join(Full, "test", "test", "test", "test"), Join(Right, "test", "test", "test", "test")], [Raw("1")], "testing", [], 10)
  {
  }

  /** `TestNewSQLSelectQueryGenerator_MultiJoin`; the expected query is
      written in five pieces: the head, the innermost join and the two
      joins that wrap it, and the limit. */
  lemma MultiJoinVector()
    ensures var c := Compile(Limit(RightJoin(FullJoin(LeftJoin(From(SelectRaw(NewGenerator(), "1"), "testing"),
        "test", "test", "test", "test"), "test", "test", "test", "test"), "test", "test", "test", "test"), 10));
      c.Text() == "SELECT 1 FROM ((" + "$5 LEFT JOIN $3 ON $1.$2 = $3.$4" + ") FULL OUTER JOIN $8 ON $6.$7 = $8.$9" + ") RIGHT JOIN $12 ON $10.$11 = $12.$13" + " LIMIT 10"
      && |c.args| == 13
  {
    var j1, j2, j3 := Join(Left, "test", "test", "test", "test"), Join(Full, "test", "test", "test", "test"), Join(Right, "test", "test", "test", "test");
    MultiGenerator();
    MultiJoinTokens(j1, j2, j3);
    MultiText(j1, j2, j3);
  }

  // ---------------------------------------------------------------------
  // Two predicates: the where counter's advance shows

  lemma EmptySelection()
    ensures CompileSelection([]) == Emission([Lit("SELECT")], [], 1)
  {
    assert "SELECT "[..|"SELECT "| - 1] == "SELECT";
  }

  lemma TwoWhere(p1: Predicate, p2: Predicate, e: Emission, stride: nat)
    ensures EmitWhere([p1, p2], 0, e, stride)
      == Emission(e.tokens + PredicateTokens(p1, e.next) + [Lit(" AND ")] + PredicateTokens(p2, e.next + stride),
                  e.args + [Text(p1.column), p1.value] + [Text(p2.column), p2.value], e.next + 2 * stride)
  {
    var e1 := Emission(e.tokens + PredicateTokens(p1, e.next), e.args + [Text(p1.column), p1.value], e.next + stride);
    var e2 := Emission(e1.tokens + [Lit(" AND ")] + PredicateTokens(p2, e1.next), e1.args + [Text(p2.column), p2.value], e1.next + stride);
    assert [p1, p2][1..] == [p2];
    assert e.tokens + AndSeparator(0) == e.tokens;
    assert EmitWhere([p1, p2], 0, e, stride) == EmitWhere([p2], 1, e1, stride);
    assert [p2][1..] == [];
    assert EmitWhere([p2], 1, e1, stride) == EmitWhere([], 2, e2, stride);
  }

  /** "a" = 1 and then "b" = 2 on a fresh builder. */
  function TwoPredicates(): Generator {
    Generator([], [], "", [Predicate("a", "=", Integer(1)), Predicate("b", "=", Integer(2))], -1)
  }

  lemma TwoPredicateTokens(stride: nat)
    ensures var c := CompileWith(TwoPredicates(), stride);
      && c.tokens == [Lit("SELECT"), Lit(" WHERE ")] + [Ph(1), Lit(" = "), Ph(2)] + [Lit(" AND ")] + [Ph(1 + stride), Lit(" = "), Ph(2 + stride)]
      && c.args == [Text("a"), Integer(1), Text("b"), Integer(2)]
  {
    var g := TwoPredicates();
    EmptySelection();
    assert g.where == [g.where[0], g.where[1]];
    var e := Emission([Lit("SELECT"), Lit(" WHERE ")], [], 1);
    assert [Lit("SELECT")] + [Lit(" WHERE ")] == e.tokens;
    assert " " + g.where[0].op + " " == " = " && " " + g.where[1].op + " " == " = ";
    assert WherePhase(g.where, Emission([Lit("SELECT")], [], 1), stride) == EmitWhere(g.where, 0, e, stride);
    TwoWhere(g.where[0], g.where[1], e, stride);
    NoLimit(-1);
  }

  lemma TwoPredicateRender(a: Token, b: Token, c: Token, d: Token)
    ensures Render([Lit("SELECT"), Lit(" WHERE ")] + [a, Lit(" = "), b] + [Lit(" AND ")] + [c, Lit(" = "), d])
      == "SELECT" + " WHERE " + (TokenText(a) + (" = " + TokenText(b))) + " AND " + (TokenText(c) + (" = " + TokenText(d)))
  {
    var s, p, n, q := [Lit("SELECT"), Lit(" WHERE ")], [a, Lit(" = "), b], [Lit(" AND ")], [c, Lit(" = "), d];
    RenderAppend(s, p);
    RenderAppend(s + p, n);
    RenderAppend(s + p + n, q);
    Render2(s[0], s[1]);
    Render3(p[0], p[1], p[2]);
    RenderCons(n[0], []);
    assert n == [n[0]] + [];
    Render3(q[0], q[1], q[2]);
  }

  lemma TwoPredicateChars()
    ensures "SELECT" + " WHERE " + ("$1" + (" = " + "$2")) + " AND " + ("$4" + (" = " + "$5")) == "SELECT WHERE $1 = $2 AND $4 = $5"
  {
  }

  lemma TwoPredicateCorrectedChars()
    ensures "SELECT" + " WHERE " + ("$1" + (" = " + "$2")) + " AND " + ("$3" + (" = " + "$4")) == "SELECT WHERE $1 = $2 AND $3 = $4"
  {
  }

  lemma TwoPredicateGenerator()
    ensures Where(Where(NewGenerator(), "a", Equal.Text(), Integer(1)), "b", Equal.Text(), Integer(2)) == TwoPredicates()
  {
  }

  /** As written, the second predicate reads `$4 = $5` against four
      arguments, so its value marker names no argument. */
  lemma TwoPredicateVector()
    ensures var c := Compile(Where(Where(NewGenerator(), "a", Equal.Text(), Integer(1)), "b", Equal.Text(), Integer(2)));
      c.Text() == "SELECT WHERE $1 = $2 AND $4 = $5" && |c.args| == 4 && Bind(c.tokens, c.args).None?
  {
    TwoPredicateGenerator();
    TwoPredicateTokens(WrittenWhereStride);
    var c := Compile(TwoPredicates());
    TwoPredicateRender(Ph(1), Ph(2), Ph(4), Ph(5));
    PhText(1);
    PhText(2);
    PhText(4);
    PhText(5);
    Markers();
    TwoPredicateChars();
    BindOutOfRange(c.tokens, c.args, 8);
  }

  /** With the counter advancing by two, the same calls give `$3 = $4`. */
  lemma TwoPredicateCorrected()
    ensures var c := CompileCorrected(Where(Where(NewGenerator(), "a", Equal.Text(), Integer(1)), "b", Equal.Text(), Integer(2)));
      c.Text() == "SELECT WHERE $1 = $2 AND $3 = $4" && c.args == [Text("a"), Integer(1), Text("b"), Integer(2)]
  {
    TwoPredicateGenerator();
    TwoPredicateTokens(IntendedWhereStride);
    TwoPredicateRender(Ph(1), Ph(2), Ph(3), Ph(4));
    PhText(1);
    PhText(2);
    PhText(3);
    PhText(4);
    Markers();
    TwoPredicateCorrectedChars();
  }
}
