/** `Compile` of `driver/sql_query_builders.go`: generator state to
    placeholder text plus an ordered argument list, and what that text means. */
module Compiler {
  import opened Wrappers
  import opened Driver
  import opened Placeholders
  import opened QueryBuilder
  import Decimal

  /** The where loop advances the placeholder counter by three per predicate
      although each predicate takes only two arguments. */
  const WrittenWhereStride: nat := 3

  /** The advance that keeps `$k` and `args[k-1]` together. */
  const IntendedWhereStride: nat := 2

  /** The compiler's running state: text so far, arguments so far, and the
      next placeholder number (`argNum`). */
  datatype Emission = Emission(tokens: seq<Token>, args: seq<Value>, next: nat)

  /** The compiled query: placeholder text, as tokens, and its arguments. */
  datatype Compiled = Compiled(tokens: seq<Token>, args: seq<Value>) {
    function Text(): string {
      Render(tokens)
    }
  }

  /** The numbering invariant: the next marker is the one after the last argument. */
  predicate Aligned(e: Emission) {
    e.next == |e.args| + 1
  }

  // ---------------------------------------------------------------------
  // Selection phase

  function ItemTokens(item: SelectionItem, k: nat): seq<Token> {
    match item
    case Raw(q) => [Lit(q)]
    case Column(_, _) => [Ph(k), Lit("."), Ph(k + 1)]
  }

  function ItemArgs(item: SelectionItem): seq<Value> {
    match item
    case Raw(_) => []
    case Column(t, c) => [Text(t), Text(c)]
  }

  function ColumnCount(items: seq<SelectionItem>): nat {
    if items == [] then 0 else (if items[0].Column? then 1 else 0) + ColumnCount(items[1..])
  }

  /** The selection loop: each item followed by ", ". */
  function EmitSelection(items: seq<SelectionItem>, e: Emission): (r: Emission)
    ensures |r.args| == |e.args| + 2 * ColumnCount(items)
    ensures r.next == e.next + 2 * ColumnCount(items)
    ensures items != [] ==> |r.tokens| > 0 && r.tokens[|r.tokens| - 1] == Lit(", ")
  {
    if items == [] then e
    else
      var item := items[0];
      var e' := Emission(e.tokens + ItemTokens(item, e.next) + [Lit(", ")], e.args + ItemArgs(item), e.next + |ItemArgs(item)|);
      EmitSelection(items[1..], e')
  }

  /** "SELECT " plus the items, with the trailing ", " (or, for no items, the
      trailing space) cut off. */
  function CompileSelection(items: seq<SelectionItem>): (r: Emission)
    ensures |r.args| == 2 * ColumnCount(items) && Aligned(r)
  {
    var start := Emission([Lit("SELECT ")], [], 1);
    if |items| != 0 then
      var e := EmitSelection(items, start);
      e.(tokens := TrimEnd(e.tokens, 2))
    else
      start.(tokens := TrimEnd(start.tokens, 1))
  }

  // ---------------------------------------------------------------------
  // From and join phase

  /** `<KEYWORD> $k+2 ON $k.$k+1 = $k+2.$k+3` */
  function JoinFragment(j: Join, k: nat): seq<Token> {
    [Lit(j.kind.Keyword() + " "), Ph(k + 2), Lit(" ON "), Ph(k), Lit("."), Ph(k + 1), Lit(" = "), Ph(k + 2), Lit("."), Ph(k + 3)]
  }

  function JoinArgs(j: Join): seq<Value> {
    [Text(j.fromTable), Text(j.fromTableKey), Text(j.joiningTable), Text(j.joiningTableKey)]
  }

  /** `addJoin`: the first join starts with the from-table's marker (and
      appends the from-table); every later one wraps what came before in
      parentheses. `s.tokens` is the join text so far. */
  function AddJoin(from: string, fragment: seq<Token>, s: Emission): (r: Emission)
    ensures r.tokens != []
  {
    if s.tokens == [] then Emission([Ph(s.next), Lit(" ")] + fragment, s.args + [Text(from)], s.next + 1)
    else Emission([Lit("(")] + s.tokens + [Lit(") ")] + fragment, s.args, s.next)
  }

  /** The join loop, in call order. */
  function EmitJoins(joins: seq<Join>, from: string, s: Emission): (r: Emission)
    ensures |r.args| == |s.args| + 4 * |joins| + (if s.tokens == [] && joins != [] then 1 else 0)
    ensures r.next - s.next == |r.args| - |s.args|
    ensures s.tokens != [] || joins != [] ==> r.tokens != []
  {
    if joins == [] then s
    else
      var j := joins[0];
      var fragment := JoinFragment(j, s.next);
      var s' := Emission(s.tokens, s.args + JoinArgs(j), s.next + 4);
      EmitJoins(joins[1..], from, AddJoin(from, fragment, s'))
  }

  function EmitFrom(g: Generator, e: Emission): (r: Emission)
    ensures |r.args| == |e.args| + (if g.from != "" then 1 + 4 * |g.joins| else 0)
    ensures r.next - e.next == |r.args| - |e.args|
  {
    if g.from == "" then e
    else if |g.joins| == 0 then
      Emission(e.tokens + [Lit(" FROM "), Ph(e.next)], e.args + [Text(g.from)], e.next + 1)
    else
      var s := EmitJoins(g.joins, g.from, Emission([], e.args, e.next));
      Emission(e.tokens + [Lit(" FROM ")] + s.tokens, s.args, s.next)
  }

  // ---------------------------------------------------------------------
  // Where and limit phases

  function PredicateTokens(p: Predicate, k: nat): seq<Token> {
    [Ph(k), Lit(" " + p.op + " "), Ph(k + 1)]
  }

  /** " AND " before every predicate but the first. */
  function AndSeparator(i: nat): seq<Token> {
    if i != 0 then [Lit(" AND ")] else []
  }

  /** The where loop from position `i` on, advancing the counter by `stride`. */
  function EmitWhere(preds: seq<Predicate>, i: nat, e: Emission, stride: nat): (r: Emission)
    ensures |r.args| == |e.args| + 2 * |preds|
  {
    if preds == [] then e
    else
      var p := preds[0];
      var e' := Emission(e.tokens + AndSeparator(i) + PredicateTokens(p, e.next), e.args + [Text(p.column), p.value], e.next + stride);
      EmitWhere(preds[1..], i + 1, e', stride)
  }

  /** The counter advances by `stride` per predicate, and the last token is
      the last predicate's value marker, `stride` times the number of earlier
      predicates past the first predicate's value marker. */
  lemma {:induction false} EmitWhereCounter(preds: seq<Predicate>, i: nat, e: Emission, stride: nat)
    ensures var r := EmitWhere(preds, i, e, stride);
      && r.next == e.next + stride * |preds|
      && (preds != [] ==> |r.tokens| > 0 && r.tokens[|r.tokens| - 1] == Ph(e.next + stride * (|preds| - 1) + 1))
    decreases |preds|
  {
    if preds != [] {
      var p := preds[0];
      var e' := Emission(e.tokens + AndSeparator(i) + PredicateTokens(p, e.next), e.args + [Text(p.column), p.value], e.next + stride);
      EmitWhereCounter(preds[1..], i + 1, e', stride);
      assert stride * |preds| == stride + stride * (|preds| - 1);
      if |preds| > 1 {
        assert stride * (|preds| - 1) == stride + stride * (|preds| - 2);
      }
    }
  }

  function WherePhase(preds: seq<Predicate>, e: Emission, stride: nat): (r: Emission)
    ensures |r.args| == |e.args| + 2 * |preds|
  {
    if preds == [] then e else EmitWhere(preds, 0, e.(tokens := e.tokens + [Lit(" WHERE ")]), stride)
  }

  function LimitTokens(limit: int): seq<Token> {
    if limit > 0 then [Lit(" LIMIT " + Decimal.DecimalString(limit))] else []
  }

  // ---------------------------------------------------------------------
  // Compile

  /** The compiler with the where loop's counter advance as a parameter. */
  function CompileWith(g: Generator, stride: nat): (c: Compiled)
    ensures |c.args| == 2 * ColumnCount(g.selection) + (if g.from != "" then 1 + 4 * |g.joins| else 0) + 2 * |g.where|
  {
    var e1 := CompileSelection(g.selection);
    var e2 := EmitFrom(g, e1);
    var e3 := WherePhase(g.where, e2, stride);
    Compiled(e3.tokens + LimitTokens(g.limit), e3.args)
  }

  /** `Compile` as written. */
  function Compile(g: Generator): (c: Compiled)
    ensures |c.args| == 2 * ColumnCount(g.selection) + (if g.from != "" then 1 + 4 * |g.joins| else 0) + 2 * |g.where|
  {
    CompileWith(g, WrittenWhereStride)
  }

  /** `Compile` with the where counter advancing by two. */
  function CompileCorrected(g: Generator): (c: Compiled)
    ensures |c.args| == 2 * ColumnCount(g.selection) + (if g.from != "" then 1 + 4 * |g.joins| else 0) + 2 * |g.where|
  {
    CompileWith(g, IntendedWhereStride)
  }
}
