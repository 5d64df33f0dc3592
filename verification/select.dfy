/** `select.go`: the filter constructors, the loop that routes filters into
    the select builder, and `Select`'s compile, translate, query and close
    pipeline. The pipeline compiles with the corrected where counter
    (`Compiler.CompileCorrected`). Reflection on the destination is reduced to
    the one fact the loop uses, whether the destination is a slice
    (`isArray`); the driver's `Translate`, `Query` and the cursor's `Close`
    are function parameters. */
module Select {
  import opened Wrappers
  import opened Driver
  import QueryBuilder
  import Placeholders
  import Compiler
  import Correspondence
  import TranslationCache

  // ---------------------------------------------------------------------
  // Filters

  const Uint64Modulus: int := 0x1_0000_0000_0000_0000

  /** Go's `uint` on a 64-bit platform. */
  type Uint = n: int | 0 <= n < Uint64Modulus

  /** Go's `int(n)` for a `uint` n: the same 64 bits read as two's complement. */
  function GoInt(n: Uint): (r: int)
    ensures -Uint64Modulus / 2 <= r < Uint64Modulus / 2
    ensures (r - n) % Uint64Modulus == 0
  {
    if n < Uint64Modulus / 2 then n else n - Uint64Modulus
  }

  /** `selectFilter`. A limit of -1 marks a where filter; anything else is a
      limit filter, whose column, operator and value are Go's zero values. */
  datatype Filter = Filter(column: string, op: string, res: Value, limit: int) {
    predicate IsWhere() {
      limit == -1
    }
  }

  /** `Limit(n uint)`. */
  function LimitFilter(n: Uint): (f: Filter)
    ensures f.column == "" && f.op == "" && f.res == Null
    ensures n < Uint64Modulus / 2 ==> f.limit == n
  {
    Filter("", "", Null, GoInt(n))
  }

  /** The comparison filters share one shape: the operator's text, the column,
      the value and the where marker -1. */
  function Comparison(op: WhereOperator, column: string, value: Value): (f: Filter)
    ensures f.IsWhere() && f.column == column && f.res == value
    ensures ParseOperator(f.op) == Some(op)
  {
    OperatorsClosed();
    Filter(column, op.Text(), value, -1)
  }

  function EqualFilter(column: string, equalTo: Value): Filter {
    Comparison(Equal, column, equalTo)
  }

  function NotEqualFilter(column: string, notEqualTo: Value): Filter {
    Comparison(NotEqual, column, notEqualTo)
  }

  function LessThanOrEqualFilter(column: string, leTo: Value): Filter {
    Comparison(LessThanOrEqual, column, leTo)
  }

  function GreaterThanOrEqualFilter(column: string, geTo: Value): Filter {
    Comparison(GreaterThanOrEqual, column, geTo)
  }

  function GreaterThanFilter(column: string, gt: Value): Filter {
    Comparison(GreaterThan, column, gt)
  }

  function LessThanFilter(column: string, lt: Value): Filter {
    Comparison(LessThan, column, lt)
  }

  /** The six comparison constructors make where filters with six different
      operators, each carrying its column and value. */
  lemma ComparisonFilters(column: string, v: Value)
    ensures var fs := [EqualFilter(column, v), NotEqualFilter(column, v), LessThanOrEqualFilter(column, v),
                       GreaterThanOrEqualFilter(column, v), GreaterThanFilter(column, v), LessThanFilter(column, v)];
      && (forall i :: 0 <= i < 6 ==> fs[i].IsWhere() && fs[i].column == column && fs[i].res == v && fs[i].op == AllOperators[i].Text())
      && (forall i, j :: 0 <= i < j < 6 ==> fs[i].op != fs[j].op)
  {
    OperatorsClosed();
  }

  /** A limit filter is routed as a where filter exactly when its count is the
      largest `uint`, which `int` conversion turns into the -1 marker. */
  lemma LimitFilterWraps(n: Uint)
    ensures LimitFilter(n).IsWhere() <==> n == Uint64Modulus - 1
  {
  }

  // ---------------------------------------------------------------------
  // Routing

  /** One turn of the loop: a where filter becomes a predicate; a limit
      filter sets the limit only when the destination is a slice. */
  function Route1(b: QueryBuilder.Generator, f: Filter, isArray: bool): QueryBuilder.Generator {
    if f.IsWhere() then QueryBuilder.Where(b, f.column, f.op, f.res)
    else if isArray then QueryBuilder.Limit(b, f.limit)
    else b
  }

  /** The loop over the filters, in order. */
  function Route(b: QueryBuilder.Generator, filters: seq<Filter>, isArray: bool): (r: QueryBuilder.Generator)
    ensures r.joins == b.joins && r.selection == b.selection && r.from == b.from
    decreases |filters|
  {
    if filters == [] then b else Route(Route1(b, filters[0], isArray), filters[1..], isArray)
  }

  /** The predicate a where filter stands for. */
  function PredicateOf(f: Filter): seq<QueryBuilder.Predicate> {
    if f.IsWhere() then [QueryBuilder.Predicate(f.column, f.op, f.res)] else []
  }

  /** Reference: the where filters' predicates, in filter order. */
  function WherePredicates(filters: seq<Filter>): seq<QueryBuilder.Predicate> {
    if filters == [] then []
    else PredicateOf(filters[0]) + WherePredicates(filters[1..])
  }

  /** Reference: the count of the last limit filter, or `dflt` if there is none. */
  function LastLimit(filters: seq<Filter>, dflt: int): int {
    if filters == [] then dflt
    else if !filters[|filters| - 1].IsWhere() then filters[|filters| - 1].limit
    else LastLimit(filters[..|filters| - 1], dflt)
  }

  lemma {:induction false} LastLimitCons(f: Filter, rest: seq<Filter>, dflt: int)
    ensures LastLimit([f] + rest, dflt) == LastLimit(rest, if f.IsWhere() then dflt else f.limit)
    decreases |rest|
  {
    var fs := [f] + rest;
    if rest == [] {
      assert fs[..0] == [];
    } else {
      var init := rest[..|rest| - 1];
      assert fs[|fs| - 1] == rest[|rest| - 1];
      assert fs[..|fs| - 1] == [f] + init;
      LastLimitCons(f, init, dflt);
    }
  }

  lemma WherePredicatesCons(f: Filter, rest: seq<Filter>)
    ensures WherePredicates([f] + rest) == PredicateOf(f) + WherePredicates(rest)
  {
    assert ([f] + rest)[1..] == rest;
  }

  /** The routing loop appends the where filters' predicates in order and, for
      a slice destination, takes the limit of the last limit filter; nothing
      else about the builder changes. */
  lemma {:induction false} RouteMeaning(b: QueryBuilder.Generator, filters: seq<Filter>, isArray: bool)
    ensures Route(b, filters, isArray)
      == b.(where := b.where + WherePredicates(filters), limit := if isArray then LastLimit(filters, b.limit) else b.limit)
    decreases |filters|
  {
    if filters == [] {
      assert b.where + [] == b.where;
    } else {
      var f, rest := filters[0], filters[1..];
      var b1 := Route1(b, f, isArray);
      RouteMeaning(b1, rest, isArray);
      assert filters == [f] + rest;
      LastLimitCons(f, rest, b.limit);
      WherePredicatesCons(f, rest);
      var p := PredicateOf(f);
      assert b1.where == b.where + p;
      QueryBuilder.Assoc(b.where, p, WherePredicates(rest));
    }
  }

  // ---------------------------------------------------------------------
  // The statement Select compiles

  /** The builder `Select` fills: a fresh one, routed, with no from-table
      (the from call is commented out in the source). */
  function SelectBuilder(filters: seq<Filter>, isArray: bool): (g: QueryBuilder.Generator)
    ensures g.from == "" && g.joins == [] && g.selection == []
  {
    Route(QueryBuilder.NewGenerator(), filters, isArray)
  }

  lemma WhereArgsNoFrom(g: QueryBuilder.Generator)
    requires g.from == "" && g.selection == []
    ensures Correspondence.ReferenceArgs(g) == Correspondence.WhereArgs(g.where)
  {
    assert Correspondence.ColumnArgs(g.selection) == [];
    assert Correspondence.FromArgs(g) == [];
  }

  /** `Select`'s arguments are the where filters' columns and values, in
      filter order (limit filters and the missing from-table add none), and
      every marker of its text names the argument it should. */
  lemma SelectArgs(filters: seq<Filter>, isArray: bool)
    ensures var g := SelectBuilder(filters, isArray);
      var c := Compiler.CompileCorrected(g);
      c.args == Correspondence.WhereArgs(WherePredicates(filters))
      && Placeholders.Bind(c.tokens, c.args) == Some(Correspondence.Intended(g))
  {
    var g := SelectBuilder(filters, isArray);
    RouteMeaning(QueryBuilder.NewGenerator(), filters, isArray);
    assert [] + WherePredicates(filters) == WherePredicates(filters);
    Correspondence.CorrectedCorrespondence(g);
    WhereArgsNoFrom(g);
  }

  /** What `Select` hands to the driver as written, with `Compile`'s counter
      advancing by three: with at most one where filter it is exactly the
      corrected statement; with two or more, its last value marker names no
      argument, so the text has no meaning. */
  lemma SelectAsWritten(filters: seq<Filter>, isArray: bool)
    ensures var g := SelectBuilder(filters, isArray);
      && (|WherePredicates(filters)| <= 1 ==> Compiler.Compile(g) == Compiler.CompileCorrected(g))
      && (|WherePredicates(filters)| >= 2 ==> Placeholders.Bind(Compiler.Compile(g).tokens, Compiler.Compile(g).args).None?)
  {
    var g := SelectBuilder(filters, isArray);
    RouteMeaning(QueryBuilder.NewGenerator(), filters, isArray);
    assert [] + WherePredicates(filters) == WherePredicates(filters);
    assert g.where == WherePredicates(filters);
    if |g.where| <= 1 {
      Correspondence.StrideIrrelevant(g);
    } else {
      Correspondence.WhereGap(g);
    }
  }

  // ---------------------------------------------------------------------
  // The pipeline

  /** The driver calls `Select` makes after compiling. */
  datatype Backend<!T, !C> = Backend(translate: string -> Result<T, Error>, query: (T, seq<Value>) -> Result<C, Error>, close: C -> Option<Error>)

  /** What `Select` returns, the cache it leaves, and whether it reached `Query`. */
  datatype Selected<T> = Selected(err: Option<Error>, cache: map<string, T>, queried: bool)

  /** After translation: query with the compiled arguments and close the cursor;
      each error is handed back unchanged. */
  function QueryAndClose<T, C>(be: Backend<T, C>, t: T, args: seq<Value>): (err: Option<Error>)
    ensures be.query(t, args).Err? ==> err == Some(be.query(t, args).error)
    ensures be.query(t, args).Ok? ==> err == be.close(be.query(t, args).value)
  {
    match be.query(t, args)
    case Err(e) => Some(e)
    case Ok(cursor) => be.close(cursor)
  }

  /** `QueryManager.Select`. */
  function SelectQuery<T, C>(cache: map<string, T>, be: Backend<T, C>, filters: seq<Filter>, isArray: bool): (r: Selected<T>)
  {
    var c := Compiler.CompileCorrected(SelectBuilder(filters, isArray));
    var h := TranslationCache.Handle(cache, c.Text(), be.translate);
    match h.result
    case Err(e) => Selected(Some(e), h.cache, false)
    case Ok(t) => Selected(QueryAndClose(be, t, c.args), h.cache, true)
  }

  /** Reference: the same steps with no cache, translating every time. */
  function SelectDirect<T, C>(be: Backend<T, C>, filters: seq<Filter>, isArray: bool): (err: Option<Error>) {
    var c := Compiler.CompileCorrected(SelectBuilder(filters, isArray));
    match be.translate(c.Text())
    case Err(e) => Some(e)
    case Ok(t) => QueryAndClose(be, t, c.args)
  }

  /** A translation error is returned as is and `Query` is not reached; after
      a translation, the query runs on the compiled arguments, and its error,
      or else the cursor's `Close` result, is returned as is. */
  lemma SelectErrors<T, C>(cache: map<string, T>, be: Backend<T, C>, filters: seq<Filter>, isArray: bool)
    ensures var c := Compiler.CompileCorrected(SelectBuilder(filters, isArray));
      var h := TranslationCache.Handle(cache, c.Text(), be.translate);
      var r := SelectQuery(cache, be, filters, isArray);
      && (h.result.Err? ==> r.err == Some(h.result.error) && !r.queried)
      && (h.result.Ok? && be.query(h.result.value, c.args).Err? ==> r.queried && r.err == Some(be.query(h.result.value, c.args).error))
      && (h.result.Ok? && be.query(h.result.value, c.args).Ok? ==> r.queried && r.err == be.close(be.query(h.result.value, c.args).value))
      && r.cache == h.cache
  {
  }

  /** With a coherent cache, `Select` answers what it would answer without
      one, and leaves the cache coherent. */
  lemma SelectTransparent<T, C>(cache: map<string, T>, be: Backend<T, C>, filters: seq<Filter>, isArray: bool)
    requires TranslationCache.Coherent(cache, be.translate)
    ensures SelectQuery(cache, be, filters, isArray).err == SelectDirect(be, filters, isArray)
    ensures TranslationCache.Coherent(SelectQuery(cache, be, filters, isArray).cache, be.translate)
  {
    var c := Compiler.CompileCorrected(SelectBuilder(filters, isArray));
    TranslationCache.HandleTransparent(cache, c.Text(), be.translate);
  }

  /** A backend that answers every query with the done cursor makes `Select`
      succeed as soon as the statement translates. */
  lemma SelectDone<T>(cache: map<string, T>, translate: string -> Result<T, Error>, filters: seq<Filter>, isArray: bool)
    ensures var be := Backend(translate, (t: T, args: seq<Value>) => Ok(DoneQueryResult()), (d: Done) => Close(d));
      var r := SelectQuery(cache, be, filters, isArray);
      r.err.None? <==> TranslationCache.Handle(cache, Compiler.CompileCorrected(SelectBuilder(filters, isArray)).Text(), translate).result.Ok?
  {
  }
}
