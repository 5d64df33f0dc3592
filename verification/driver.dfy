/** The backend contract of `driver/driver.go`: the closed set of where
    operators, the values that travel as query arguments, and the pre-closed
    cursor that stands for "no results". */
module Driver {
  import opened Wrappers

  /** Go's `interface{}` argument values, as a closed sum of the scalar kinds a
      backend can bind. Identifiers (table, column and key names) travel as `Text`. */
  datatype Value = Text(text: string) | Integer(number: int) | Boolean(truth: bool) | Bytes(bytes: seq<bv8>) | Null

  /** A Go `error` value; only its presence matters to this layer. */
  datatype Error = Error(message: string)

  /** The six named where operators. */
  datatype WhereOperator = Equal | NotEqual | LessThanOrEqual | GreaterThanOrEqual | GreaterThan | LessThan {

    /** The SQL spelling of the operator, which is its Go string value. */
    function Text(): string {
      match this
      case Equal => "="
      case NotEqual => "<>"
      case LessThanOrEqual => "<="
      case GreaterThanOrEqual => ">="
      case GreaterThan => ">"
      case LessThan => "<"
    }
  }

  const AllOperators: seq<WhereOperator> :=
    [Equal, NotEqual, LessThanOrEqual, GreaterThanOrEqual, GreaterThan, LessThan]

  /** Recognises an operator spelling; every other string is not a named operator. */
  function ParseOperator(s: string): (r: Option<WhereOperator>)
    ensures r.Some? ==> r.value.Text() == s
  {
    if s == "=" then Some(Equal)
    else if s == "<>" then Some(NotEqual)
    else if s == "<=" then Some(LessThanOrEqual)
    else if s == ">=" then Some(GreaterThanOrEqual)
    else if s == ">" then Some(GreaterThan)
    else if s == "<" then Some(LessThan)
    else None
  }

  /** The enumeration is closed and has exactly six members, each spelled
      differently, and parsing a spelling gives back the operator. */
  lemma OperatorsClosed()
    ensures |AllOperators| == 6
    ensures forall op: WhereOperator :: op in AllOperators
    ensures forall i, j :: 0 <= i < j < |AllOperators| ==> AllOperators[i].Text() != AllOperators[j].Text()
    ensures forall op: WhereOperator :: ParseOperator(op.Text()) == Some(op)
  {
    forall op: WhereOperator
      ensures op in AllOperators
    {
      match op
      case Equal => assert AllOperators[0] == op;
      case NotEqual => assert AllOperators[1] == op;
      case LessThanOrEqual => assert AllOperators[2] == op;
      case GreaterThanOrEqual => assert AllOperators[3] == op;
      case GreaterThan => assert AllOperators[4] == op;
      case LessThan => assert AllOperators[5] == op;
    }
  }

  /** The spellings recognised by `ParseOperator` are exactly the six texts. */
  lemma ParseOperatorExact(s: string)
    ensures ParseOperator(s).Some? <==> s in {"=", "<>", "<=", ">=", ">", "<"}
  {
  }

  /** The `done` cursor: stateless, already exhausted, needing no release. */
  datatype Done = Done

  function Next(c: Done): bool {
    false
  }

  function Close(c: Done): Option<Error> {
    None
  }

  function Scan(c: Done, targets: seq<Value>): Option<Error> {
    None
  }

  /** `DoneQueryResult` hands out a fresh done cursor. */
  function DoneQueryResult(): Done {
    Done
  }

  /** One call a consumer may make on a cursor, and what it got back. */
  datatype CursorCall = NextCall | ScanCall(targets: seq<Value>) | CloseCall
  datatype CursorReply = MoreRows(more: bool) | Failed(err: Option<Error>)

  /** Replies of the done cursor to a script of calls, in order. */
  function Run(c: Done, calls: seq<CursorCall>): (replies: seq<CursorReply>)
    ensures |replies| == |calls|
  {
    if calls == [] then []
    else
      var reply := match calls[0]
        case NextCall => MoreRows(Next(c))
        case ScanCall(targets) => Failed(Scan(c, targets))
        case CloseCall => Failed(Close(c));
      [reply] + Run(c, calls[1..])
  }

  /** However many calls are made, in whatever order, `Next` reports no row
      and `Scan` and `Close` report no error. */
  lemma {:induction false} DoneCursorInert(calls: seq<CursorCall>)
    ensures forall i :: 0 <= i < |calls| ==>
      Run(DoneQueryResult(), calls)[i] == (if calls[i].NextCall? then MoreRows(false) else Failed(None))
  {
    if calls != [] {
      DoneCursorInert(calls[1..]);
      var r := Run(DoneQueryResult(), calls);
      assert r == [r[0]] + Run(DoneQueryResult(), calls[1..]);
      forall i | 0 < i < |calls|
        ensures r[i] == (if calls[i].NextCall? then MoreRows(false) else Failed(None))
      {
        assert r[i] == Run(DoneQueryResult(), calls[1..])[i - 1];
        assert calls[i] == calls[1..][i - 1];
      }
    }
  }
}
