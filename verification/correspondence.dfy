/** What compiled text means: a reference rendering of a generator with every
    argument written in place, and the proof that `Compile`'s markers and
    argument list together spell exactly that. */
module Correspondence {
  import opened Wrappers
  import opened Driver
  import opened Placeholders
  import opened QueryBuilder
  import opened Compiler
  import Decimal

  // ---------------------------------------------------------------------
  // Reference rendering: no counter, arguments in place

  function ItemPieces(item: SelectionItem): seq<Piece> {
    match item
    case Raw(q) => [Fixed(q)]
    case Column(t, c) => [Bound(Text(t)), Fixed("."), Bound(Text(c))]
  }

  /** Items separated by ", ". */
  function ItemList(items: seq<SelectionItem>): seq<Piece> {
    if items == [] then []
    else if |items| == 1 then ItemPieces(items[0])
    else ItemPieces(items[0]) + [Fixed(", ")] + ItemList(items[1..])
  }

  function IntendedSelection(items: seq<SelectionItem>): seq<Piece> {
    if items == [] then [Fixed("SELECT")] else [Fixed("SELECT ")] + ItemList(items)
  }

  /** `<KEYWORD> joining ON from.fromKey = joining.joiningKey` */
  function FragmentPieces(j: Join): seq<Piece> {
    [Fixed(j.kind.Keyword() + " "), Bound(Text(j.joiningTable)), Fixed(" ON "), Bound(Text(j.fromTable)), Fixed("."),
     Bound(Text(j.fromTableKey)), Fixed(" = "), Bound(Text(j.joiningTable)), Fixed("."), Bound(Text(j.joiningTableKey))]
  }

  /** The left-deep join expression: the from-table and the first join bare,
      each later join applied to the parenthesised expression before it. */
  function NestedJoins(joins: seq<Join>, from: string): (r: seq<Piece>)
    requires |joins| > 0
    ensures |r| > 0
    decreases |joins|
  {
    if |joins| == 1 then [Bound(Text(from)), Fixed(" ")] + FragmentPieces(joins[0])
    else [Fixed("(")] + NestedJoins(joins[..|joins| - 1], from) + [Fixed(") ")] + FragmentPieces(joins[|joins| - 1])
  }

  function IntendedFrom(g: Generator): seq<Piece> {
    if g.from == "" then []
    else [Fixed(" FROM ")] + (if g.joins == [] then [Bound(Text(g.from))] else NestedJoins(g.joins, g.from))
  }

  function PredicatePieces(p: Predicate): seq<Piece> {
    [Bound(Text(p.column)), Fixed(" " + p.op + " "), Bound(p.value)]
  }

  /** Predicates separated by " AND ". */
  function AndChain(preds: seq<Predicate>): seq<Piece> {
    if preds == [] then []
    else if |preds| == 1 then PredicatePieces(preds[0])
    else PredicatePieces(preds[0]) + [Fixed(" AND ")] + AndChain(preds[1..])
  }

  function IntendedWhere(preds: seq<Predicate>): seq<Piece> {
    if preds == [] then [] else [Fixed(" WHERE ")] + AndChain(preds)
  }

  function IntendedLimit(limit: int): seq<Piece> {
    if limit > 0 then [Fixed(" LIMIT " + Decimal.DecimalString(limit))] else []
  }

  /** The query a generator describes, with every argument in its place. */
  function Intended(g: Generator): seq<Piece> {
    IntendedSelection(g.selection) + IntendedFrom(g) + IntendedWhere(g.where) + IntendedLimit(g.limit)
  }

  // Reference argument order

  function ColumnArgs(items: seq<SelectionItem>): seq<Value> {
    if items == [] then []
    else (if items[0].Column? then [Text(items[0].table), Text(items[0].column)] else []) + ColumnArgs(items[1..])
  }

  /** Each join's (from-table, from-key, joining-table, joining-key), in call order. */
  function FlatJoinArgs(joins: seq<Join>): seq<Value> {
    if joins == [] then []
    else JoinArgs(joins[0]) + FlatJoinArgs(joins[1..])
  }

  /** With joins, the from-table comes right after the first join's four values. */
  function JoinPhaseArgs(joins: seq<Join>, from: string): seq<Value> {
    if joins == [] then [] else
      FlatJoinArgs(joins[..1]) + [Text(from)] + FlatJoinArgs(joins[1..])
  }

  function FromArgs(g: Generator): seq<Value> {
    if g.from == "" then []
    else if g.joins == [] then [Text(g.from)]
    else JoinPhaseArgs(g.joins, g.from)
  }

  function WhereArgs(preds: seq<Predicate>): seq<Value> {
    if preds == [] then [] else [Text(preds[0].column), preds[0].value] + WhereArgs(preds[1..])
  }

  /** The argument list a generator calls for: selected columns, then the
      from/join values, then the predicates' columns and values. */
  function ReferenceArgs(g: Generator): seq<Value> {
    ColumnArgs(g.selection) + FromArgs(g) + WhereArgs(g.where)
  }

  // ---------------------------------------------------------------------
  // Phase by phase

  lemma Extend(e: Emission, ts: seq<Token>, more: seq<Value>, p: seq<Piece>, q: seq<Piece>)
    requires Bind(e.tokens, e.args) == Some(p)
    requires Bind(ts, e.args + more) == Some(q)
    ensures Bind(e.tokens + ts, e.args + more) == Some(p + q)
  {
    BindExtend(e.tokens, e.args, more, p);
    BindAppend(e.tokens, ts, e.args + more, p, q);
  }

  lemma BindPrefix(ts: seq<Token>, args: seq<Value>, p: seq<Piece>, n: nat)
    requires Bind(ts, args) == Some(p) && n <= |ts|
    ensures |p| == |ts| && Bind(ts[..n], args) == Some(p[..n])
  {
    BindMeaning(ts, args);
    assert forall i :: 0 <= i < n ==> ts[..n][i] == ts[i] && p[..n][i] == p[i];
    BindPointwise(ts[..n], args, p[..n]);
  }

  /** Each item followed by ", ", as the selection loop emits them. */
  function SeparatedItems(items: seq<SelectionItem>): seq<Piece> {
    if items == [] then [] else ItemPieces(items[0]) + [Fixed(", ")] + SeparatedItems(items[1..])
  }

  lemma {:induction false} SeparatedItemsList(items: seq<SelectionItem>)
    requires items != []
    ensures SeparatedItems(items) == ItemList(items) + [Fixed(", ")]
  {
    if |items| > 1 {
      SeparatedItemsList(items[1..]);
    }
  }

  lemma RawBinds(q: string, args: seq<Value>)
    ensures Bind([Lit(q), Lit(", ")], args) == Some([Fixed(q), Fixed(", ")])
  {
    BindPointwise([Lit(q), Lit(", ")], args, [Fixed(q), Fixed(", ")]);
  }

  lemma ColumnBinds(k: nat, args: seq<Value>, t: string, c: string)
    requires 1 <= k && k + 1 <= |args| && args[k - 1] == Text(t) && args[k] == Text(c)
    ensures Bind([Ph(k), Lit("."), Ph(k + 1), Lit(", ")], args) == Some([Bound(Text(t)), Fixed("."), Bound(Text(c)), Fixed(", ")])
  {
    BindPointwise([Ph(k), Lit("."), Ph(k + 1), Lit(", ")], args, [Bound(Text(t)), Fixed("."), Bound(Text(c)), Fixed(", ")]);
  }

  lemma RawItemBinds(q: string, pre: seq<Value>)
    ensures Bind(ItemTokens(Raw(q), |pre| + 1) + [Lit(", ")], pre + ItemArgs(Raw(q))) == Some(ItemPieces(Raw(q)) + [Fixed(", ")])
  {
    assert ItemTokens(Raw(q), |pre| + 1) + [Lit(", ")] == [Lit(q), Lit(", ")];
    assert pre + ItemArgs(Raw(q)) == pre;
    RawBinds(q, pre);
    assert ItemPieces(Raw(q)) + [Fixed(", ")] == [Fixed(q), Fixed(", ")];
  }

  lemma ColumnItemBinds(t: string, c: string, pre: seq<Value>)
    ensures Bind(ItemTokens(Column(t, c), |pre| + 1) + [Lit(", ")], pre + ItemArgs(Column(t, c))) == Some(ItemPieces(Column(t, c)) + [Fixed(", ")])
  {
    var k := |pre| + 1;
    var args := pre + ItemArgs(Column(t, c));
    assert ItemTokens(Column(t, c), k) + [Lit(", ")] == [Ph(k), Lit("."), Ph(k + 1), Lit(", ")];
    assert args[k - 1] == Text(t) && args[k] == Text(c);
    ColumnBinds(k, args, t, c);
    assert ItemPieces(Column(t, c)) + [Fixed(", ")] == [Bound(Text(t)), Fixed("."), Bound(Text(c)), Fixed(", ")];
  }

  /** One selection item followed by its separator binds to its pieces. */
  lemma ItemBinds(item: SelectionItem, pre: seq<Value>)
    ensures Bind(ItemTokens(item, |pre| + 1) + [Lit(", ")], pre + ItemArgs(item)) == Some(ItemPieces(item) + [Fixed(", ")])
  {
    match item
    case Raw(q) => RawItemBinds(q, pre);
    case Column(t, c) => ColumnItemBinds(t, c, pre);
  }

  lemma SelectionStep(item: SelectionItem, e: Emission, p: seq<Piece>)
    requires Aligned(e) && Bind(e.tokens, e.args) == Some(p)
    ensures var e' := Emission(e.tokens + ItemTokens(item, e.next) + [Lit(", ")], e.args + ItemArgs(item), e.next + |ItemArgs(item)|);
      Aligned(e') && Bind(e'.tokens, e'.args) == Some(p + (ItemPieces(item) + [Fixed(", ")]))
  {
    var step := ItemTokens(item, e.next) + [Lit(", ")];
    assert e.tokens + ItemTokens(item, e.next) + [Lit(", ")] == e.tokens + step;
    ItemBinds(item, e.args);
    Extend(e, step, ItemArgs(item), p, ItemPieces(item) + [Fixed(", ")]);
  }

  lemma EmitSelectionUnfold(items: seq<SelectionItem>, e: Emission)
    requires items != []
    ensures var item := items[0];
      var e' := Emission(e.tokens + ItemTokens(item, e.next) + [Lit(", ")], e.args + ItemArgs(item), e.next + |ItemArgs(item)|);
      EmitSelection(items, e) == EmitSelection(items[1..], e')
  {
  }

  lemma ColumnArgsUnfold(items: seq<SelectionItem>, args: seq<Value>)
    requires items != []
    ensures args + ItemArgs(items[0]) + ColumnArgs(items[1..]) == args + ColumnArgs(items)
  {
    var a := ItemArgs(items[0]);
    assert a == (if items[0].Column? then [Text(items[0].table), Text(items[0].column)] else []);
    assert ColumnArgs(items) == a + ColumnArgs(items[1..]);
    assert args + a + ColumnArgs(items[1..]) == args + (a + ColumnArgs(items[1..]));
  }

  lemma {:induction false} SelectionLoop(items: seq<SelectionItem>, e: Emission, p: seq<Piece>)
    requires Aligned(e) && Bind(e.tokens, e.args) == Some(p)
    ensures var r := EmitSelection(items, e);
      Aligned(r) && r.args == e.args + ColumnArgs(items) && Bind(r.tokens, r.args) == Some(p + SeparatedItems(items))
  {
    if items != [] {
      var item := items[0];
      var e' := Emission(e.tokens + ItemTokens(item, e.next) + [Lit(", ")], e.args + ItemArgs(item), e.next + |ItemArgs(item)|);
      SelectionStep(item, e, p);
      SelectionLoop(items[1..], e', p + (ItemPieces(item) + [Fixed(", ")]));
      EmitSelectionUnfold(items, e);
      PiecesAssoc(p, ItemPieces(item), [Fixed(", ")], SeparatedItems(items[1..]));
      ColumnArgsUnfold(items, e.args);
    } else {
      assert p + [] == p;
      assert e.args + [] == e.args;
    }
  }

  /** With no items only "SELECT" is left. */
  lemma EmptySelectionBinds()
    ensures var r := CompileSelection([]);
      Aligned(r) && r.args == [] && Bind(r.tokens, r.args) == Some([Fixed("SELECT")])
  {
    assert "SELECT "[..6] == "SELECT";
    assert CompileSelection([]).tokens == [Lit("SELECT")];
    BindPointwise([Lit("SELECT")], [], [Fixed("SELECT")]);
  }

  /** Dropping the final ", " token of the selection loop's output. */
  lemma SelectionTrim(items: seq<SelectionItem>)
    requires items != []
    ensures var e := EmitSelection(items, Emission([Lit("SELECT ")], [], 1));
      TrimEnd(e.tokens, 2) == e.tokens[..|e.tokens| - 1]
  {
    var e := EmitSelection(items, Emission([Lit("SELECT ")], [], 1));
    assert e.tokens[|e.tokens| - 1].text[..0] == "";
  }

  lemma SelectionPieces(items: seq<SelectionItem>)
    requires items != []
    ensures var whole := [Fixed("SELECT ")] + SeparatedItems(items);
      |whole| > 0 && whole[..|whole| - 1] == IntendedSelection(items)
  {
    SeparatedItemsList(items);
    var whole := [Fixed("SELECT ")] + ItemList(items) + [Fixed(", ")];
    assert whole[..|whole| - 1] == [Fixed("SELECT ")] + ItemList(items);
  }

  lemma SelectionPhase(items: seq<SelectionItem>)
    ensures var r := CompileSelection(items);
      Aligned(r) && r.args == ColumnArgs(items) && Bind(r.tokens, r.args) == Some(IntendedSelection(items))
  {
    if items == [] {
      EmptySelectionBinds();
    } else {
      var start := Emission([Lit("SELECT ")], [], 1);
      BindPointwise(start.tokens, start.args, [Fixed("SELECT ")]);
      var e := EmitSelection(items, start);
      SelectionLoop(items, start, [Fixed("SELECT ")]);
      SelectionTrim(items);
      var whole := [Fixed("SELECT ")] + SeparatedItems(items);
      BindPrefix(e.tokens, e.args, whole, |e.tokens| - 1);
      SelectionPieces(items);
      assert |whole| == |e.tokens|;
      assert [] + ColumnArgs(items) == ColumnArgs(items);
    }
  }

  lemma FragmentBindsAt(kw: string, k: nat, args: seq<Value>, ft: string, fk: string, jt: string, jk: string)
    requires 1 <= k && k + 3 <= |args|
    requires args[k - 1] == Text(ft) && args[k] == Text(fk) && args[k + 1] == Text(jt) && args[k + 2] == Text(jk)
    ensures Bind([Lit(kw), Ph(k + 2), Lit(" ON "), Ph(k), Lit("."), Ph(k + 1), Lit(" = "), Ph(k + 2), Lit("."), Ph(k + 3)], args)
      == Some([Fixed(kw), Bound(Text(jt)), Fixed(" ON "), Bound(Text(ft)), Fixed("."), Bound(Text(fk)), Fixed(" = "), Bound(Text(jt)), Fixed("."), Bound(Text(jk))])
  {
    BindPointwise([Lit(kw), Ph(k + 2), Lit(" ON "), Ph(k), Lit("."), Ph(k + 1), Lit(" = "), Ph(k + 2), Lit("."), Ph(k + 3)], args,
      [Fixed(kw), Bound(Text(jt)), Fixed(" ON "), Bound(Text(ft)), Fixed("."), Bound(Text(fk)), Fixed(" = "), Bound(Text(jt)), Fixed("."), Bound(Text(jk))]);
  }

  lemma JoinArgsAt(j: Join, pre: seq<Value>)
    ensures var args := pre + JoinArgs(j); var k := |pre| + 1;
      args[k - 1] == Text(j.fromTable) && args[k] == Text(j.fromTableKey) && args[k + 1] == Text(j.joiningTable) && args[k + 2] == Text(j.joiningTableKey)
  {
  }

  /** One join's ON fragment binds to its pieces once its four values are appended. */
  lemma FragmentBinds(j: Join, pre: seq<Value>)
    ensures Bind(JoinFragment(j, |pre| + 1), pre + JoinArgs(j)) == Some(FragmentPieces(j))
  {
    JoinArgsAt(j, pre);
    FragmentBindsAt(j.kind.Keyword() + " ", |pre| + 1, pre + JoinArgs(j), j.fromTable, j.fromTableKey, j.joiningTable, j.joiningTableKey);
  }

  /** The step `addJoin` takes for the first join. */
  function JoinStep(j: Join, from: string, s: Emission): Emission {
    AddJoin(from, JoinFragment(j, s.next), Emission(s.tokens, s.args + JoinArgs(j), s.next + 4))
  }

  lemma JoinStartStep(j: Join, from: string, s: Emission)
    requires Aligned(s) && s.tokens == []
    ensures var s2 := JoinStep(j, from, s);
      Aligned(s2) && s2.args == s.args + JoinArgs(j) + [Text(from)] && Bind(s2.tokens, s2.args) == Some(NestedJoins([j], from))
  {
    var k := s.next;
    var fragment := JoinFragment(j, k);
    var args' := s.args + JoinArgs(j);
    var args := args' + [Text(from)];
    FragmentBinds(j, s.args);
    assert args[k + 3] == Text(from);
    BindPointwise([Ph(k + 4), Lit(" ")], args, [Bound(Text(from)), Fixed(" ")]);
    BindExtend(fragment, args', [Text(from)], FragmentPieces(j));
    BindAppend([Ph(k + 4), Lit(" ")], fragment, args, [Bound(Text(from)), Fixed(" ")], FragmentPieces(j));
  }

  lemma WrapBinds(ts: seq<Token>, fragment: seq<Token>, args: seq<Value>, p: seq<Piece>, q: seq<Piece>)
    requires Bind(ts, args) == Some(p) && Bind(fragment, args) == Some(q)
    ensures Bind([Lit("(")] + ts + [Lit(") ")] + fragment, args) == Some([Fixed("(")] + p + [Fixed(") ")] + q)
  {
    BindPointwise([Lit("(")], args, [Fixed("(")]);
    BindPointwise([Lit(") ")], args, [Fixed(") ")]);
    BindAppend([Lit("(")], ts, args, [Fixed("(")], p);
    BindAppend([Lit("(")] + ts, [Lit(") ")], args, [Fixed("(")] + p, [Fixed(") ")]);
    BindAppend([Lit("(")] + ts + [Lit(") ")], fragment, args, [Fixed("(")] + p + [Fixed(") ")], q);
  }

  lemma NestedJoinsSnoc(done: seq<Join>, j: Join, from: string)
    requires done != []
    ensures NestedJoins(done + [j], from) == [Fixed("(")] + NestedJoins(done, from) + [Fixed(") ")] + FragmentPieces(j)
  {
    assert (done + [j])[..|done|] == done;
  }

  lemma JoinWrapStep(done: seq<Join>, j: Join, from: string, s: Emission)
    requires Aligned(s) && done != [] && Bind(s.tokens, s.args) == Some(NestedJoins(done, from))
    ensures var s2 := JoinStep(j, from, s);
      Aligned(s2) && s2.args == s.args + JoinArgs(j) && Bind(s2.tokens, s2.args) == Some(NestedJoins(done + [j], from))
  {
    BindMeaning(s.tokens, s.args);
    FragmentBinds(j, s.args);
    BindExtend(s.tokens, s.args, JoinArgs(j), NestedJoins(done, from));
    WrapBinds(s.tokens, JoinFragment(j, s.next), s.args + JoinArgs(j), NestedJoins(done, from), FragmentPieces(j));
    NestedJoinsSnoc(done, j, from);
  }

  lemma EmitJoinsUnfold(joins: seq<Join>, from: string, s: Emission)
    requires joins != []
    ensures EmitJoins(joins, from, s) == EmitJoins(joins[1..], from, JoinStep(joins[0], from, s))
  {
  }

  lemma JoinPhaseArgsUnfold(joins: seq<Join>, from: string, args: seq<Value>)
    requires joins != []
    ensures args + JoinArgs(joins[0]) + [Text(from)] + FlatJoinArgs(joins[1..]) == args + JoinPhaseArgs(joins, from)
  {
    assert FlatJoinArgs(joins[..1]) == JoinArgs(joins[0]) + FlatJoinArgs([]);
  }

  lemma FlatJoinArgsUnfold(joins: seq<Join>, args: seq<Value>)
    requires joins != []
    ensures args + JoinArgs(joins[0]) + FlatJoinArgs(joins[1..]) == args + FlatJoinArgs(joins)
  {
  }

  lemma JoinsAssoc(done: seq<Join>, rest: seq<Join>)
    requires rest != []
    ensures done + [rest[0]] + rest[1..] == done + rest
  {
  }

  /** The join loop builds the left-deep nesting of every join so far. */
  lemma {:induction false} JoinLoop(done: seq<Join>, rest: seq<Join>, from: string, s: Emission)
    requires Aligned(s)
    requires done == [] ==> s.tokens == []
    requires done != [] ==> Bind(s.tokens, s.args) == Some(NestedJoins(done, from))
    ensures var r := EmitJoins(rest, from, s);
      && Aligned(r)
      && r.args == s.args + (if done == [] then JoinPhaseArgs(rest, from) else FlatJoinArgs(rest))
      && (done + rest != [] ==> Bind(r.tokens, r.args) == Some(NestedJoins(done + rest, from)))
    decreases |rest|
  {
    if rest == [] {
      assert done + rest == done;
      assert s.args + [] == s.args;
    } else {
      var j := rest[0];
      var s2 := JoinStep(j, from, s);
      if done == [] {
        JoinStartStep(j, from, s);
        assert [] + [j] == [j];
      } else {
        JoinWrapStep(done, j, from, s);
      }
      JoinLoop(done + [j], rest[1..], from, s2);
      EmitJoinsUnfold(rest, from, s);
      JoinsAssoc(done, rest);
      if done == [] {
        JoinPhaseArgsUnfold(rest, from, s.args);
      } else {
        FlatJoinArgsUnfold(rest, s.args);
      }
    }
  }

  lemma SingleFromBinds(e: Emission, from: string, p: seq<Piece>)
    requires Aligned(e) && Bind(e.tokens, e.args) == Some(p)
    ensures Bind(e.tokens + [Lit(" FROM "), Ph(e.next)], e.args + [Text(from)]) == Some(p + [Fixed(" FROM "), Bound(Text(from))])
  {
    var args := e.args + [Text(from)];
    assert args[e.next - 1] == Text(from);
    BindPointwise([Lit(" FROM "), Ph(e.next)], args, [Fixed(" FROM "), Bound(Text(from))]);
    Extend(e, [Lit(" FROM "), Ph(e.next)], [Text(from)], p, [Fixed(" FROM "), Bound(Text(from))]);
  }

  lemma JoinedFromBinds(g: Generator, e: Emission, p: seq<Piece>)
    requires Aligned(e) && Bind(e.tokens, e.args) == Some(p) && g.from != "" && g.joins != []
    ensures var s := EmitJoins(g.joins, g.from, Emission([], e.args, e.next));
      Aligned(s) && s.args == e.args + JoinPhaseArgs(g.joins, g.from)
      && Bind(e.tokens + [Lit(" FROM ")] + s.tokens, s.args) == Some(p + ([Fixed(" FROM ")] + NestedJoins(g.joins, g.from)))
  {
    var s := EmitJoins(g.joins, g.from, Emission([], e.args, e.next));
    JoinLoop([], g.joins, g.from, Emission([], e.args, e.next));
    assert [] + g.joins == g.joins;
    var more := JoinPhaseArgs(g.joins, g.from);
    BindPointwise([Lit(" FROM ")], s.args, [Fixed(" FROM ")]);
    BindAppend([Lit(" FROM ")], s.tokens, s.args, [Fixed(" FROM ")], NestedJoins(g.joins, g.from));
    Extend(e, [Lit(" FROM ")] + s.tokens, more, p, [Fixed(" FROM ")] + NestedJoins(g.joins, g.from));
    assert e.tokens + [Lit(" FROM ")] + s.tokens == e.tokens + ([Lit(" FROM ")] + s.tokens);
  }

  lemma FromPhase(g: Generator, e: Emission, p: seq<Piece>)
    requires Aligned(e) && Bind(e.tokens, e.args) == Some(p)
    ensures var r := EmitFrom(g, e);
      Aligned(r) && r.args == e.args + FromArgs(g) && Bind(r.tokens, r.args) == Some(p + IntendedFrom(g))
  {
    if g.from == "" {
      assert p + [] == p;
      assert e.args + [] == e.args;
    } else if |g.joins| == 0 {
      SingleFromBinds(e, g.from, p);
      assert [Fixed(" FROM ")] + [Bound(Text(g.from))] == [Fixed(" FROM "), Bound(Text(g.from))];
    } else {
      JoinedFromBinds(g, e, p);
    }
  }

  /** The where loop's pieces from position `i` on: " AND " before all but the first. */
  function AndFrom(preds: seq<Predicate>, i: nat): seq<Piece> {
    if preds == [] then []
    else AndPieces(i) + PredicatePieces(preds[0]) + AndFrom(preds[1..], i + 1)
  }

  lemma {:induction false} AndFromChain(preds: seq<Predicate>, i: nat)
    requires preds != []
    ensures AndFrom(preds, i) == AndPieces(i) + AndChain(preds)
  {
    var head := AndPieces(i) + PredicatePieces(preds[0]);
    assert AndFrom(preds, i) == head + AndFrom(preds[1..], i + 1);
    if |preds| > 1 {
      AndFromChain(preds[1..], i + 1);
      assert AndChain(preds) == PredicatePieces(preds[0]) + [Fixed(" AND ")] + AndChain(preds[1..]);
    } else {
      assert preds[1..] == [];
      assert AndChain(preds) == PredicatePieces(preds[0]);
    }
  }

  function AndPieces(i: nat): seq<Piece> {
    if i != 0 then [Fixed(" AND ")] else []
  }

  lemma PredicateBindsAt(k: nat, args: seq<Value>, column: string, op: string, v: Value)
    requires 1 <= k && k + 1 <= |args| && args[k - 1] == Text(column) && args[k] == v
    ensures Bind([Ph(k), Lit(" " + op + " "), Ph(k + 1)], args) == Some([Bound(Text(column)), Fixed(" " + op + " "), Bound(v)])
  {
    BindPointwise([Ph(k), Lit(" " + op + " "), Ph(k + 1)], args, [Bound(Text(column)), Fixed(" " + op + " "), Bound(v)]);
  }

  lemma AndBinds(i: nat, args: seq<Value>)
    ensures Bind(AndSeparator(i), args) == Some(AndPieces(i))
  {
    BindPointwise(AndSeparator(i), args, AndPieces(i));
  }

  lemma PairAt(pre: seq<Value>, a: Value, b: Value)
    ensures var args := pre + [a, b]; args[|pre|] == a && args[|pre| + 1] == b
  {
  }

  lemma PredicateBinds(pr: Predicate, i: nat, pre: seq<Value>)
    ensures Bind(AndSeparator(i) + PredicateTokens(pr, |pre| + 1), pre + [Text(pr.column), pr.value]) == Some(AndPieces(i) + PredicatePieces(pr))
  {
    var args := pre + [Text(pr.column), pr.value];
    PairAt(pre, Text(pr.column), pr.value);
    PredicateBindsAt(|pre| + 1, args, pr.column, pr.op, pr.value);
    AndBinds(i, args);
    BindAppend(AndSeparator(i), PredicateTokens(pr, |pre| + 1), args, AndPieces(i), PredicatePieces(pr));
  }

  lemma WhereStep(pr: Predicate, i: nat, e: Emission, p: seq<Piece>)
    requires Aligned(e) && Bind(e.tokens, e.args) == Some(p)
    ensures var e' := Emission(e.tokens + AndSeparator(i) + PredicateTokens(pr, e.next), e.args + [Text(pr.column), pr.value], e.next + IntendedWhereStride);
      Aligned(e') && Bind(e'.tokens, e'.args) == Some(p + (AndPieces(i) + PredicatePieces(pr)))
  {
    var step := AndSeparator(i) + PredicateTokens(pr, e.next);
    assert e.tokens + AndSeparator(i) + PredicateTokens(pr, e.next) == e.tokens + step;
    PredicateBinds(pr, i, e.args);
    Extend(e, step, [Text(pr.column), pr.value], p, AndPieces(i) + PredicatePieces(pr));
  }

  lemma EmitWhereUnfold(preds: seq<Predicate>, i: nat, e: Emission)
    requires preds != []
    ensures var pr := preds[0];
      var e' := Emission(e.tokens + AndSeparator(i) + PredicateTokens(pr, e.next), e.args + [Text(pr.column), pr.value], e.next + IntendedWhereStride);
      EmitWhere(preds, i, e, IntendedWhereStride) == EmitWhere(preds[1..], i + 1, e', IntendedWhereStride)
  {
  }

  lemma AndFromUnfold(preds: seq<Predicate>, i: nat)
    requires preds != []
    ensures AndFrom(preds, i) == AndPieces(i) + PredicatePieces(preds[0]) + AndFrom(preds[1..], i + 1)
  {
  }

  lemma PiecesAssoc(p: seq<Piece>, a: seq<Piece>, b: seq<Piece>, c: seq<Piece>)
    ensures p + (a + b) + c == p + (a + b + c)
  {
  }

  lemma WhereArgsUnfold(preds: seq<Predicate>, args: seq<Value>)
    requires preds != []
    ensures args + [Text(preds[0].column), preds[0].value] + WhereArgs(preds[1..]) == args + WhereArgs(preds)
  {
  }

  lemma {:induction false} WhereLoop(preds: seq<Predicate>, i: nat, e: Emission, p: seq<Piece>)
    requires Aligned(e) && Bind(e.tokens, e.args) == Some(p)
    ensures var r := EmitWhere(preds, i, e, IntendedWhereStride);
      Aligned(r) && r.args == e.args + WhereArgs(preds) && Bind(r.tokens, r.args) == Some(p + AndFrom(preds, i))
    decreases |preds|
  {
    if preds != [] {
      var pr := preds[0];
      var e' := Emission(e.tokens + AndSeparator(i) + PredicateTokens(pr, e.next), e.args + [Text(pr.column), pr.value], e.next + IntendedWhereStride);
      WhereStep(pr, i, e, p);
      WhereLoop(preds[1..], i + 1, e', p + (AndPieces(i) + PredicatePieces(pr)));
      EmitWhereUnfold(preds, i, e);
      AndFromUnfold(preds, i);
      PiecesAssoc(p, AndPieces(i), PredicatePieces(pr), AndFrom(preds[1..], i + 1));
      WhereArgsUnfold(preds, e.args);
    } else {
      assert p + [] == p;
      assert e.args + [] == e.args;
    }
  }

  lemma WhereKeywordBinds(e: Emission, p: seq<Piece>)
    requires Aligned(e) && Bind(e.tokens, e.args) == Some(p)
    ensures var e' := e.(tokens := e.tokens + [Lit(" WHERE ")]);
      Aligned(e') && Bind(e'.tokens, e'.args) == Some(p + [Fixed(" WHERE ")])
  {
    assert e.args + [] == e.args;
    BindPointwise([Lit(" WHERE ")], e.args, [Fixed(" WHERE ")]);
    Extend(e, [Lit(" WHERE ")], [], p, [Fixed(" WHERE ")]);
  }

  lemma WhereChain(p: seq<Piece>, preds: seq<Predicate>)
    requires preds != []
    ensures p + [Fixed(" WHERE ")] + AndFrom(preds, 0) == p + IntendedWhere(preds)
  {
    AndFromChain(preds, 0);
    assert AndPieces(0) + AndChain(preds) == AndChain(preds);
  }

  lemma WherePhaseBinds(preds: seq<Predicate>, e: Emission, p: seq<Piece>)
    requires Aligned(e) && Bind(e.tokens, e.args) == Some(p)
    ensures var r := WherePhase(preds, e, IntendedWhereStride);
      Aligned(r) && r.args == e.args + WhereArgs(preds) && Bind(r.tokens, r.args) == Some(p + IntendedWhere(preds))
  {
    if preds != [] {
      var e' := e.(tokens := e.tokens + [Lit(" WHERE ")]);
      WhereKeywordBinds(e, p);
      WhereLoop(preds, 0, e', p + [Fixed(" WHERE ")]);
      WhereChain(p, preds);
    } else {
      assert p + [] == p;
      assert e.args + [] == e.args;
    }
  }

  lemma LimitBinds(limit: int, e: Emission, p: seq<Piece>)
    requires Bind(e.tokens, e.args) == Some(p)
    ensures Bind(e.tokens + LimitTokens(limit), e.args) == Some(p + IntendedLimit(limit))
  {
    BindPointwise(LimitTokens(limit), e.args, IntendedLimit(limit));
    BindAppend(e.tokens, LimitTokens(limit), e.args, p, IntendedLimit(limit));
  }

  // ---------------------------------------------------------------------
  // The whole query

  /** With the where counter advancing by two, every marker `$k` of the
      compiled text names `args[k-1]`, the arguments are exactly the reference
      list, and substituting them gives the intended query. */
  lemma CorrectedCorrespondence(g: Generator)
    ensures var c := CompileCorrected(g);
      c.args == ReferenceArgs(g) && Bind(c.tokens, c.args) == Some(Intended(g))
  {
    var e1 := CompileSelection(g.selection);
    SelectionPhase(g.selection);
    var e2 := EmitFrom(g, e1);
    FromPhase(g, e1, IntendedSelection(g.selection));
    var e3 := WherePhase(g.where, e2, IntendedWhereStride);
    WherePhaseBinds(g.where, e2, IntendedSelection(g.selection) + IntendedFrom(g));
    LimitBinds(g.limit, e3, IntendedSelection(g.selection) + IntendedFrom(g) + IntendedWhere(g.where));
  }

  /** The where loop's arguments do not depend on how far its counter moves. */
  lemma {:induction false} WhereArgsAnyStride(preds: seq<Predicate>, i: nat, e: Emission, stride: nat)
    ensures EmitWhere(preds, i, e, stride).args == e.args + WhereArgs(preds)
    decreases |preds|
  {
    if preds == [] {
      assert e.args + [] == e.args;
    } else {
      var pr := preds[0];
      var e' := Emission(e.tokens + AndSeparator(i) + PredicateTokens(pr, e.next), e.args + [Text(pr.column), pr.value], e.next + stride);
      WhereArgsAnyStride(preds[1..], i + 1, e', stride);
      WhereArgsUnfold(preds, e.args);
    }
  }

  /** For at most one predicate the counter's advance is never read. */
  lemma StrideIrrelevant(g: Generator)
    requires |g.where| <= 1
    ensures Compile(g) == CompileCorrected(g)
  {
    var e2 := EmitFrom(g, CompileSelection(g.selection));
    if |g.where| == 1 {
      assert g.where[1..] == [];
      var e := e2.(tokens := e2.tokens + [Lit(" WHERE ")]);
      assert EmitWhere(g.where, 0, e, WrittenWhereStride).tokens == EmitWhere(g.where, 0, e, IntendedWhereStride).tokens;
    }
  }

  /** Joins are compiled only inside the from phase: without a from-table
      they leave neither text nor arguments. */
  lemma JoinsNeedFrom(g: Generator)
    requires g.from == ""
    ensures Compile(g) == Compile(g.(joins := []))
    ensures Compile(g).args == ColumnArgs(g.selection) + WhereArgs(g.where)
  {
    CompileArgs(g);
  }

  /** The generator's argument list, whatever the where counter does. */
  lemma CompileArgs(g: Generator)
    ensures Compile(g).args == ReferenceArgs(g)
  {
    var e1 := CompileSelection(g.selection);
    SelectionPhase(g.selection);
    var e2 := EmitFrom(g, e1);
    FromPhase(g, e1, IntendedSelection(g.selection));
    if g.where != [] {
      WhereArgsAnyStride(g.where, 0, e2.(tokens := e2.tokens + [Lit(" WHERE ")]), WrittenWhereStride);
    } else {
      assert e2.args + [] == e2.args;
    }
  }

  lemma WhereLastMarker(preds: seq<Predicate>, e: Emission, stride: nat)
    requires preds != []
    ensures var r := WherePhase(preds, e, stride);
      |r.tokens| > 0 && r.tokens[|r.tokens| - 1] == Ph(e.next + stride * (|preds| - 1) + 1)
  {
    EmitWhereCounter(preds, 0, e.(tokens := e.tokens + [Lit(" WHERE ")]), stride);
  }

  lemma CompiledTokens(g: Generator, stride: nat)
    ensures var e3 := WherePhase(g.where, EmitFrom(g, CompileSelection(g.selection)), stride);
      CompileWith(g, stride).tokens == e3.tokens + LimitTokens(g.limit) && CompileWith(g, stride).args == e3.args
  {
  }

  lemma PrefixAt(ts: seq<Token>, us: seq<Token>, i: nat)
    requires i < |ts|
    ensures (ts + us)[i] == ts[i]
  {
  }

  lemma BeforeWhereAligned(g: Generator)
    ensures Aligned(EmitFrom(g, CompileSelection(g.selection)))
  {
    SelectionPhase(g.selection);
    FromPhase(g, CompileSelection(g.selection), IntendedSelection(g.selection));
  }

  /** As written, with two or more predicates the last value marker is
      `$(|args| + w - 1)`, past the end of the arguments, so the text does not
      bind at all. */
  lemma WhereGap(g: Generator)
    requires |g.where| >= 2
    ensures var c := Compile(g);
      Ph(|c.args| + |g.where| - 1) in c.tokens && Bind(c.tokens, c.args) == None
  {
    var c := Compile(g);
    var w := |g.where|;
    var e2 := EmitFrom(g, CompileSelection(g.selection));
    BeforeWhereAligned(g);
    var e3 := WherePhase(g.where, e2, WrittenWhereStride);
    WhereLastMarker(g.where, e2, WrittenWhereStride);
    CompiledTokens(g, WrittenWhereStride);
    var i := |e3.tokens| - 1;
    PrefixAt(e3.tokens, LimitTokens(g.limit), i);
    assert WrittenWhereStride * (w - 1) == 3 * w - 3;
    assert |c.args| == |e2.args| + 2 * w;
    BindOutOfRange(c.tokens, c.args, i);
  }

  /** `Compile` as written matches the intended query exactly when there is at
      most one predicate. */
  lemma CompileCorrespondence(g: Generator)
    ensures Bind(Compile(g).tokens, Compile(g).args) == Some(Intended(g)) <==> |g.where| <= 1
  {
    CompileArgs(g);
    if |g.where| <= 1 {
      StrideIrrelevant(g);
      CorrectedCorrespondence(g);
    } else {
      WhereGap(g);
    }
  }
}
