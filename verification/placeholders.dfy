/** Placeholder text as the compiler builds it: literal fragments and `$k`
    markers, and what such text means once its argument list is supplied. */
module Placeholders {
  import opened Wrappers
  import opened Driver
  import Decimal

  /** A piece of compiled text: a literal fragment, or the marker `$index`. */
  datatype Token = Lit(text: string) | Ph(index: nat)

  /** A piece of text after binding: a literal fragment, or the argument a marker names. */
  datatype Piece = Fixed(text: string) | Bound(value: Value)

  /** The text of one token: a literal as is, a marker as `$` and its number in decimal. */
  function TokenText(t: Token): string {
    match t
    case Lit(s) => s
    case Ph(k) => "$" + Decimal.DecimalString(k)
  }

  /** The placeholder string the compiler returns. */
  function Render(ts: seq<Token>): string {
    if ts == [] then "" else TokenText(ts[0]) + Render(ts[1..])
  }

  lemma RenderCons(t: Token, ts: seq<Token>)
    ensures Render([t] + ts) == TokenText(t) + Render(ts)
  {
    assert ([t] + ts)[1..] == ts;
  }

  /** `$k` stands for `args[k-1]`; a literal stands for itself. */
  function BindToken(t: Token, args: seq<Value>): (r: Option<Piece>)
    ensures r.Some? <==> (t.Ph? ==> 1 <= t.index <= |args|)
  {
    match t
    case Lit(s) => Some(Fixed(s))
    case Ph(k) => if 1 <= k <= |args| then Some(Bound(args[k - 1])) else None
  }

  /** The meaning of a token under `args`: a literal stands for itself and
      `$k`, when 1 <= k <= |args|, for `args[k-1]`. */
  predicate BindsTo(t: Token, args: seq<Value>, piece: Piece) {
    match t
    case Lit(s) => piece == Fixed(s)
    case Ph(k) => 1 <= k <= |args| && piece == Bound(args[k - 1])
  }

  predicate InRange(t: Token, args: seq<Value>) {
    t.Ph? ==> 1 <= t.index <= |args|
  }

  /** Resolves every marker against `args`; `None` when some marker names no argument. */
  function Bind(ts: seq<Token>, args: seq<Value>): Option<seq<Piece>> {
    if ts == [] then Some([])
    else if !InRange(ts[0], args) then None
    else
      var head := match ts[0]
        case Lit(s) => Fixed(s)
        case Ph(k) => Bound(args[k - 1]);
      match Bind(ts[1..], args)
      case None => None
      case Some(rest) => Some([head] + rest)
  }

  /** Binding succeeds exactly when every marker is in range, and then the
      i-th piece is what the i-th token stands for. */
  lemma {:induction false} BindMeaning(ts: seq<Token>, args: seq<Value>)
    ensures Bind(ts, args).Some? <==> forall i :: 0 <= i < |ts| ==> InRange(ts[i], args)
    ensures Bind(ts, args).Some? ==>
      |Bind(ts, args).value| == |ts| && forall i :: 0 <= i < |ts| ==> BindsTo(ts[i], args, Bind(ts, args).value[i])
  {
    if ts != [] {
      BindMeaning(ts[1..], args);
      assert forall i :: 1 <= i < |ts| ==> ts[i] == ts[1..][i - 1];
    }
  }

  /** Binding succeeds with `p` when every token binds to the matching piece of `p`. */
  lemma {:induction false} BindPointwise(ts: seq<Token>, args: seq<Value>, p: seq<Piece>)
    requires |p| == |ts| && forall i :: 0 <= i < |ts| ==> BindsTo(ts[i], args, p[i])
    ensures Bind(ts, args) == Some(p)
  {
    if ts != [] {
      assert forall i :: 1 <= i < |ts| ==> ts[i] == ts[1..][i - 1] && p[i] == p[1..][i - 1];
      BindPointwise(ts[1..], args, p[1..]);
      assert p == [p[0]] + p[1..];
    }
  }

  /** Binding distributes over concatenation of texts. */
  lemma {:induction false} BindAppend(ts: seq<Token>, us: seq<Token>, args: seq<Value>, p: seq<Piece>, q: seq<Piece>)
    requires Bind(ts, args) == Some(p) && Bind(us, args) == Some(q)
    ensures Bind(ts + us, args) == Some(p + q)
  {
    BindMeaning(ts, args);
    BindMeaning(us, args);
    forall i | 0 <= i < |ts + us|
      ensures BindsTo((ts + us)[i], args, (p + q)[i])
    {
      if i >= |ts| {
        assert (ts + us)[i] == us[i - |ts|];
      }
    }
    BindPointwise(ts + us, args, p + q);
  }

  /** Appending arguments never changes what already-bound text means. */
  lemma BindExtend(ts: seq<Token>, args: seq<Value>, more: seq<Value>, p: seq<Piece>)
    requires Bind(ts, args) == Some(p)
    ensures Bind(ts, args + more) == Some(p)
  {
    BindMeaning(ts, args);
    forall i | 0 <= i < |ts|
      ensures BindsTo(ts[i], args + more, p[i])
    {
      if ts[i].Ph? {
        assert (args + more)[ts[i].index - 1] == args[ts[i].index - 1];
      }
    }
    BindPointwise(ts, args + more, p);
  }

  /** A marker beyond the argument list leaves the text without a meaning. */
  lemma BindOutOfRange(ts: seq<Token>, args: seq<Value>, i: nat)
    requires i < |ts| && ts[i].Ph? && ts[i].index > |args|
    ensures Bind(ts, args) == None
  {
    BindMeaning(ts, args);
  }

  /** Rendering distributes over concatenation. */
  lemma {:induction false} RenderAppend(ts: seq<Token>, us: seq<Token>)
    ensures Render(ts + us) == Render(ts) + Render(us)
  {
    if ts == [] {
      assert ts + us == us;
    } else {
      var h := TokenText(ts[0]);
      calc {
        Render(ts + us);
        { assert (ts + us)[0] == ts[0]; assert (ts + us)[1..] == ts[1..] + us; }
        h + Render(ts[1..] + us);
        { RenderAppend(ts[1..], us); }
        h + (Render(ts[1..]) + Render(us));
        (h + Render(ts[1..])) + Render(us);
        Render(ts) + Render(us);
      }
    }
  }

  /** Removes the last `n` characters of a text that ends in a literal of at
      least `n` characters (Go's `query[:len(query)-n]`), dropping that literal
      when it is used up. */
  function TrimEnd(ts: seq<Token>, n: nat): (r: seq<Token>)
    requires |ts| > 0 && ts[|ts| - 1].Lit? && |ts[|ts| - 1].text| >= n
    ensures |Render(ts)| >= n && Render(r) == Render(ts)[..|Render(ts)| - n]
  {
    var last := ts[|ts| - 1].text;
    var kept := last[..|last| - n];
    TrimEndRenders(ts, n);
    if kept == "" then ts[..|ts| - 1] else ts[..|ts| - 1] + [Lit(kept)]
  }

  lemma TrimEndRenders(ts: seq<Token>, n: nat)
    requires |ts| > 0 && ts[|ts| - 1].Lit? && |ts[|ts| - 1].text| >= n
    ensures var last := ts[|ts| - 1].text;
      var kept := last[..|last| - n];
      && Render(ts) == Render(ts[..|ts| - 1]) + last
      && Render(ts[..|ts| - 1] + [Lit(kept)]) == Render(ts[..|ts| - 1]) + kept
  {
    var last := ts[|ts| - 1].text;
    var kept := last[..|last| - n];
    RenderAppend(ts[..|ts| - 1], [Lit(last)]);
    assert ts == ts[..|ts| - 1] + [Lit(last)];
    assert Render([Lit(last)]) == last;
    RenderAppend(ts[..|ts| - 1], [Lit(kept)]);
    assert Render([Lit(kept)]) == kept;
  }
}
