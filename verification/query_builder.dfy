/** The builder half of `driver/sql_query_builders.go`: the generator state and
    the calls that accumulate it. */
module QueryBuilder {
  import opened Driver

  /** The four join kinds; their Go tags are 0..3. */
  datatype JoinKind = Inner | Left | Right | Full {

    function Tag(): nat {
      match this
      case Inner => 0
      case Left => 1
      case Right => 2
      case Full => 3
    }

    /** The keyword the compiler's switch on the tag picks. */
    function Keyword(): string {
      KeywordOfTag(Tag())
    }
  }

  /** The compiler's `switch v.joinType`: tags outside 0..3 have no case and
      leave the keyword empty. */
  function KeywordOfTag(tag: nat): string {
    if tag == 0 then "INNER JOIN"
    else if tag == 1 then "LEFT JOIN"
    else if tag == 2 then "RIGHT JOIN"
    else if tag == 3 then "FULL OUTER JOIN"
    else ""
  }

  /** Tags are a faithful encoding of the kinds. */
  function KindOfTag(tag: nat): (k: JoinKind)
    requires tag < 4
    ensures k.Tag() == tag
  {
    if tag == 0 then Inner else if tag == 1 then Left else if tag == 2 then Right else Full
  }

  /** Tags 0..3 map to the four keywords, which are all different. */
  lemma JoinKeywords(k: JoinKind, k': JoinKind)
    ensures k.Tag() < 4 && KindOfTag(k.Tag()) == k
    ensures k.Keyword() == ["INNER JOIN", "LEFT JOIN", "RIGHT JOIN", "FULL OUTER JOIN"][k.Tag()]
    ensures k != k' ==> k.Keyword() != k'.Keyword()
  {
  }

  /** One join: its kind and the four identifiers supplied by the caller. */
  datatype Join = Join(kind: JoinKind, joiningTable: string, fromTable: string, joiningTableKey: string, fromTableKey: string)

  /** A selection item: a raw fragment, or a table-qualified column. */
  datatype SelectionItem = Raw(query: string) | Column(table: string, column: string)

  /** A where predicate. The operator is kept as text, as Go's `WhereOperator`
      is a string type; the named operators are `Driver.WhereOperator`. */
  datatype Predicate = Predicate(column: string, op: string, value: Value)

  /** `SQLSelectQueryGenerator`; a limit of -1 means unlimited. */
  datatype Generator = Generator(joins: seq<Join>, selection: seq<SelectionItem>, from: string, where: seq<Predicate>, limit: int)

  function NewGenerator(): (g: Generator)
    ensures g.joins == [] && g.selection == [] && g.where == []
    ensures g.from == "" && g.limit == -1
  {
    Generator([], [], "", [], -1)
  }

  function AppendJoin(g: Generator, kind: JoinKind, joiningTable: string, fromTable: string, joiningTableKey: string, fromTableKey: string): (r: Generator)
    ensures r.joins == g.joins + [Join(kind, joiningTable, fromTable, joiningTableKey, fromTableKey)]
    ensures r.selection == g.selection && r.from == g.from && r.where == g.where && r.limit == g.limit
  {
    g.(joins := g.joins + [Join(kind, joiningTable, fromTable, joiningTableKey, fromTableKey)])
  }

  function InnerJoin(g: Generator, joiningTable: string, fromTable: string, joiningTableKey: string, fromTableKey: string): (r: Generator)
    ensures r.joins == g.joins + [Join(Inner, joiningTable, fromTable, joiningTableKey, fromTableKey)]
    ensures r.selection == g.selection && r.from == g.from && r.where == g.where && r.limit == g.limit
  {
    AppendJoin(g, Inner, joiningTable, fromTable, joiningTableKey, fromTableKey)
  }

  function LeftJoin(g: Generator, joiningTable: string, fromTable: string, joiningTableKey: string, fromTableKey: string): (r: Generator)
    ensures r.joins == g.joins + [Join(Left, joiningTable, fromTable, joiningTableKey, fromTableKey)]
    ensures r.selection == g.selection && r.from == g.from && r.where == g.where && r.limit == g.limit
  {
    AppendJoin(g, Left, joiningTable, fromTable, joiningTableKey, fromTableKey)
  }

  function RightJoin(g: Generator, joiningTable: string, fromTable: string, joiningTableKey: string, fromTableKey: string): (r: Generator)
    ensures r.joins == g.joins + [Join(Right, joiningTable, fromTable, joiningTableKey, fromTableKey)]
    ensures r.selection == g.selection && r.from == g.from && r.where == g.where && r.limit == g.limit
  {
    AppendJoin(g, Right, joiningTable, fromTable, joiningTableKey, fromTableKey)
  }

  function FullJoin(g: Generator, joiningTable: string, fromTable: string, joiningTableKey: string, fromTableKey: string): (r: Generator)
    ensures r.joins == g.joins + [Join(Full, joiningTable, fromTable, joiningTableKey, fromTableKey)]
    ensures r.selection == g.selection && r.from == g.from && r.where == g.where && r.limit == g.limit
  {
    AppendJoin(g, Full, joiningTable, fromTable, joiningTableKey, fromTableKey)
  }

  function SelectColumn(g: Generator, table: string, column: string): (r: Generator)
    ensures r.selection == g.selection + [Column(table, column)]
    ensures r.joins == g.joins && r.from == g.from && r.where == g.where && r.limit == g.limit
  {
    g.(selection := g.selection + [Column(table, column)])
  }

  function SelectRaw(g: Generator, query: string): (r: Generator)
    ensures r.selection == g.selection + [Raw(query)]
    ensures r.joins == g.joins && r.from == g.from && r.where == g.where && r.limit == g.limit
  {
    g.(selection := g.selection + [Raw(query)])
  }

  function From(g: Generator, table: string): (r: Generator)
    ensures r.from == table
    ensures r.joins == g.joins && r.selection == g.selection && r.where == g.where && r.limit == g.limit
  {
    g.(from := table)
  }

  function Limit(g: Generator, n: int): (r: Generator)
    ensures r.limit == n
    ensures r.joins == g.joins && r.selection == g.selection && r.from == g.from && r.where == g.where
  {
    g.(limit := n)
  }

  function Where(g: Generator, column: string, op: string, value: Value): (r: Generator)
    ensures r.where == g.where + [Predicate(column, op, value)]
    ensures r.joins == g.joins && r.selection == g.selection && r.from == g.from && r.limit == g.limit
  {
    g.(where := g.where + [Predicate(column, op, value)])
  }

  /** A builder call, as a caller issues it. */
  datatype Call =
    | JoinCall(kind: JoinKind, joiningTable: string, fromTable: string, joiningTableKey: string, fromTableKey: string)
    | SelectColumnCall(table: string, column: string)
    | SelectRawCall(query: string)
    | FromCall(table: string)
    | LimitCall(n: int)
    | WhereCall(column: string, op: string, value: Value)

  function Apply(g: Generator, c: Call): Generator {
    match c
    case JoinCall(k, jt, ft, jk, fk) =>
      (match k
       case Inner => InnerJoin(g, jt, ft, jk, fk)
       case Left => LeftJoin(g, jt, ft, jk, fk)
       case Right => RightJoin(g, jt, ft, jk, fk)
       case Full => FullJoin(g, jt, ft, jk, fk))
    case SelectColumnCall(t, col) => SelectColumn(g, t, col)
    case SelectRawCall(q) => SelectRaw(g, q)
    case FromCall(t) => From(g, t)
    case LimitCall(n) => Limit(g, n)
    case WhereCall(col, op, v) => Where(g, col, op, v)
  }

  /** The generator after issuing `calls`, in order, on a fresh one. */
  function Replay(calls: seq<Call>): Generator {
    if calls == [] then NewGenerator() else Apply(Replay(calls[..|calls| - 1]), calls[|calls| - 1])
  }

  /** The join a single call requests, if any. */
  function JoinOfCall(c: Call): seq<Join> {
    if c.JoinCall? then [Join(c.kind, c.joiningTable, c.fromTable, c.joiningTableKey, c.fromTableKey)] else []
  }

  /** The selection item a single call requests, if any. */
  function SelectionOfCall(c: Call): seq<SelectionItem> {
    if c.SelectColumnCall? then [Column(c.table, c.column)]
    else if c.SelectRawCall? then [Raw(c.query)]
    else []
  }

  /** The predicate a single call requests, if any. */
  function WhereOfCall(c: Call): seq<Predicate> {
    if c.WhereCall? then [Predicate(c.column, c.op, c.value)] else []
  }

  /** The joins requested by a call log, in call order. */
  function JoinsOf(calls: seq<Call>): seq<Join> {
    if calls == [] then [] else JoinOfCall(calls[0]) + JoinsOf(calls[1..])
  }

  /** The selection items requested by a call log, in call order. */
  function SelectionOf(calls: seq<Call>): seq<SelectionItem> {
    if calls == [] then [] else SelectionOfCall(calls[0]) + SelectionOf(calls[1..])
  }

  /** The predicates requested by a call log, in call order. */
  function WhereOf(calls: seq<Call>): seq<Predicate> {
    if calls == [] then [] else WhereOfCall(calls[0]) + WhereOf(calls[1..])
  }

  lemma Assoc<T>(a: seq<T>, b: seq<T>, c: seq<T>)
    ensures a + (b + c) == (a + b) + c
  {
  }

  lemma JoinsOfCons(x: Call, xs: seq<Call>)
    ensures JoinsOf([x] + xs) == JoinOfCall(x) + JoinsOf(xs)
  {
    assert ([x] + xs)[1..] == xs;
  }

  lemma {:induction false} JoinsSnoc(calls: seq<Call>, c: Call)
    ensures JoinsOf(calls + [c]) == JoinsOf(calls) + JoinOfCall(c)
  {
    if calls == [] {
      assert calls + [c] == [c];
    } else {
      var rest := calls[1..];
      JoinsSnoc(rest, c);
      assert calls == [calls[0]] + rest && calls + [c] == [calls[0]] + (rest + [c]);
      JoinsOfCons(calls[0], rest);
      JoinsOfCons(calls[0], rest + [c]);
      Assoc(JoinOfCall(calls[0]), JoinsOf(rest), JoinOfCall(c));
    }
  }

  lemma SelectionOfCons(x: Call, xs: seq<Call>)
    ensures SelectionOf([x] + xs) == SelectionOfCall(x) + SelectionOf(xs)
  {
    assert ([x] + xs)[1..] == xs;
  }

  lemma {:induction false} SelectionSnoc(calls: seq<Call>, c: Call)
    ensures SelectionOf(calls + [c]) == SelectionOf(calls) + SelectionOfCall(c)
  {
    if calls == [] {
      assert calls + [c] == [c];
    } else {
      var rest := calls[1..];
      SelectionSnoc(rest, c);
      assert calls == [calls[0]] + rest && calls + [c] == [calls[0]] + (rest + [c]);
      SelectionOfCons(calls[0], rest);
      SelectionOfCons(calls[0], rest + [c]);
      Assoc(SelectionOfCall(calls[0]), SelectionOf(rest), SelectionOfCall(c));
    }
  }

  lemma WhereOfCons(x: Call, xs: seq<Call>)
    ensures WhereOf([x] + xs) == WhereOfCall(x) + WhereOf(xs)
  {
    assert ([x] + xs)[1..] == xs;
  }

  lemma {:induction false} WhereSnoc(calls: seq<Call>, c: Call)
    ensures WhereOf(calls + [c]) == WhereOf(calls) + WhereOfCall(c)
  {
    if calls == [] {
      assert calls + [c] == [c];
    } else {
      var rest := calls[1..];
      WhereSnoc(rest, c);
      assert calls == [calls[0]] + rest && calls + [c] == [calls[0]] + (rest + [c]);
      WhereOfCons(calls[0], rest);
      WhereOfCons(calls[0], rest + [c]);
      Assoc(WhereOfCall(calls[0]), WhereOf(rest), WhereOfCall(c));
    }
  }

  /** What a single call does to each field. */
  lemma ApplyEffect(g: Generator, c: Call)
    ensures Apply(g, c).joins == g.joins + JoinOfCall(c)
    ensures Apply(g, c).selection == g.selection + SelectionOfCall(c)
    ensures Apply(g, c).where == g.where + WhereOfCall(c)
    ensures Apply(g, c).from == if c.FromCall? then c.table else g.from
    ensures Apply(g, c).limit == if c.LimitCall? then c.n else g.limit
  {
    if !c.JoinCall? {
      assert g.joins + [] == g.joins;
    }
    if !c.SelectColumnCall? && !c.SelectRawCall? {
      assert g.selection + [] == g.selection;
    }
    if !c.WhereCall? {
      assert g.where + [] == g.where;
    }
  }

  /** Replaying a call log: joins, selection items and predicates are those
      of the corresponding calls, in call order. */
  lemma {:induction false} ReplayAppends(calls: seq<Call>)
    ensures Replay(calls).joins == JoinsOf(calls)
    ensures Replay(calls).selection == SelectionOf(calls)
    ensures Replay(calls).where == WhereOf(calls)
  {
    if calls != [] {
      var init := calls[..|calls| - 1];
      var c := calls[|calls| - 1];
      ReplayAppends(init);
      ApplyEffect(Replay(init), c);
      JoinsSnoc(init, c);
      SelectionSnoc(init, c);
      WhereSnoc(init, c);
      assert calls == init + [c];
    }
  }

  /** Replaying a call log: the from-table is that of the last `From` call, or
      "" when there is none. */
  lemma {:induction false} ReplayFromLastWins(calls: seq<Call>)
    ensures (forall i :: 0 <= i < |calls| ==> !calls[i].FromCall?) ==> Replay(calls).from == ""
    ensures forall i :: 0 <= i < |calls| && calls[i].FromCall? && (forall j :: i < j < |calls| ==> !calls[j].FromCall?) ==>
      Replay(calls).from == calls[i].table
  {
    if calls != [] {
      var init := calls[..|calls| - 1];
      ReplayFromLastWins(init);
      ApplyEffect(Replay(init), calls[|calls| - 1]);
      forall i | 0 <= i < |calls| && calls[i].FromCall? && (forall j :: i < j < |calls| ==> !calls[j].FromCall?)
        ensures Replay(calls).from == calls[i].table
      {
        if i < |calls| - 1 {
          assert init[i] == calls[i];
        }
      }
      if forall i :: 0 <= i < |calls| ==> !calls[i].FromCall? {
        assert forall i :: 0 <= i < |init| ==> init[i] == calls[i];
      }
    }
  }

  /** Replaying a call log: the limit is that of the last `Limit` call, or -1
      when there is none. */
  lemma {:induction false} ReplayLimitLastWins(calls: seq<Call>)
    ensures (forall i :: 0 <= i < |calls| ==> !calls[i].LimitCall?) ==> Replay(calls).limit == -1
    ensures forall i :: 0 <= i < |calls| && calls[i].LimitCall? && (forall j :: i < j < |calls| ==> !calls[j].LimitCall?) ==>
      Replay(calls).limit == calls[i].n
  {
    if calls != [] {
      var init := calls[..|calls| - 1];
      ReplayLimitLastWins(init);
      ApplyEffect(Replay(init), calls[|calls| - 1]);
      forall i | 0 <= i < |calls| && calls[i].LimitCall? && (forall j :: i < j < |calls| ==> !calls[j].LimitCall?)
        ensures Replay(calls).limit == calls[i].n
      {
        if i < |calls| - 1 {
          assert init[i] == calls[i];
        }
      }
      if forall i :: 0 <= i < |calls| ==> !calls[i].LimitCall? {
        assert forall i :: 0 <= i < |init| ==> init[i] == calls[i];
      }
    }
  }
}
