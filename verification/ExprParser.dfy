/** The parser object: a cursor over the tokens that its methods advance. */
module ExprParser {
  import opened Wrappers
  import opened Ast
  import opened Printer

  class Parser {
    const toks: seq<Token>
    var pos: nat

    constructor (toks: seq<Token>)
      ensures Valid() && this.toks == toks && pos == 0
    {
      this.toks := toks;
      pos := 0;
    }

    ghost predicate Valid()
      reads this
    {
      pos <= |toks|
    }

    /** The cursor stands after what `spec` consumed, or `spec` rejects. */
    ghost predicate Reads<T>(spec: Option<Parsed<T>>, r: Option<T>)
      reads this
    {
      Valid() && if r.Some? then spec == Some(Parsed(r.value, toks[pos..])) else spec.None?
    }

    /** One expression; the levels of `or`, `and`, comparison, sum and product differ only in the
        operators they accept. */
    method ParseLevel(level: nat) returns (r: Option<Expr>)
      requires Valid() && 1 <= level <= 6
      modifies this
      ensures Reads(ParseBinary(level, old(toks[pos..])), r)
      ensures r.Some? ==> old(pos) < pos
      decreases |toks| - pos, 10 - level
    {
      ghost var ts := toks[pos..];
      if level == 6 {
        r := ParseUnaryExpr();
        return;
      }
      var lhs := ParseLevel(level + 1);
      if lhs.None? { return None; }
      var e := lhs.value;
      while pos < |toks| && toks[pos].OpT? && Prec(toks[pos].op) == level
        invariant Valid() && old(pos) < pos
        invariant ParseBinary(level, ts) == ParseLoop(level, e, toks[pos..])
        decreases |toks| - pos
      {
        var op := toks[pos].op;
        assert toks[pos..][1..] == toks[pos + 1..];
        pos := pos + 1;
        var rhs := ParseLevel(level + 1);
        if rhs.None? { return None; }
        e := Binary(op, e, rhs.value);
      }
      r := Some(e);
    }

    method ParseUnaryExpr() returns (r: Option<Expr>)
      requires Valid()
      modifies this
      ensures Reads(ParseUnary(old(toks[pos..])), r)
      ensures r.Some? ==> old(pos) < pos
      decreases |toks| - pos, 3
    {
      if pos < |toks| && (toks[pos].NotT? || toks[pos] == OpT(Sub)) {
        var op := if toks[pos].NotT? then Not else Neg;
        assert toks[pos..][1..] == toks[pos + 1..];
        pos := pos + 1;
        var rhs := ParseUnaryExpr();
        r := if rhs.None? then None else Some(Unary(op, rhs.value));
      } else {
        r := ParsePostfixExpr();
      }
    }

    method ParsePostfixExpr() returns (r: Option<Expr>)
      requires Valid() && !(pos < |toks| && (toks[pos].NotT? || toks[pos] == OpT(Sub)))
      modifies this
      ensures Reads(ParseUnary(old(toks[pos..])), r)
      ensures r.Some? ==> old(pos) < pos
      decreases |toks| - pos, 2
    {
      hide ParseAll, ParsePrimary, ParsePostfix;
      ghost var ts := toks[pos..];
      var base := ParsePrimaryExpr();
      if base.None? { return None; }
      var e := base.value;
      assert ParseUnary(ts) == ParsePostfix(e, toks[pos..]);
      hide ParseUnary;
      while true
        invariant Valid() && old(pos) < pos
        invariant ParseUnary(ts) == ParsePostfix(e, toks[pos..])
        decreases |toks| - pos
      {
        PostfixIs(e, toks[pos..]);
        if pos < |toks| && toks[pos].Dot? {
          if pos + 1 == |toks| || !toks[pos + 1].Name? { return None; }
          assert toks[pos..][2..] == toks[pos + 2..];
          e := Expr.Field(e, toks[pos + 1].s);
          pos := pos + 2;
        } else if pos < |toks| && toks[pos].LParen? {
          assert toks[pos..][1..] == toks[pos + 1..];
          pos := pos + 1;
          var args := ParseList(RParen);
          if args.None? { return None; }
          e := Expr.Call(e, args.value);
        } else {
          return Some(e);
        }
      }
    }

    /** What may follow an expression: fields and calls. */
    static lemma PostfixIs(e: Expr, ts: seq<Token>)
      ensures hide *; ts != [] && ts[0].Dot? ==>
                ParsePostfix(e, ts)
                == if |ts| > 1 && ts[1].Name? then ParsePostfix(Expr.Field(e, ts[1].s), ts[2..]) else None
      ensures ts != [] && ts[0].LParen? ==>
                var args := ParseAll(RParen, ts[1..]);
                ParsePostfix(e, ts)
                == if args.None? then None else ParsePostfix(Expr.Call(e, args.value.value), args.value.rest)
      ensures ts == [] || !(ts[0].Dot? || ts[0].LParen?) ==> ParsePostfix(e, ts) == Some(Parsed(e, ts))
    {
      hide ParseAll;
    }

    /** Arguments or elements up to the closing token. */
    method ParseList(close: Token) returns (r: Option<seq<Expr>>)
      requires Valid()
      modifies this
      ensures Reads(ParseAll(close, old(toks[pos..])), r)
      ensures r.Some? ==> old(pos) < pos
      decreases |toks| - pos, 16
    {
      hide ParseElem, ParseAll, Prepend;
      ghost var ts := toks[pos..];
      var es: seq<Expr> := [];
      PrependNone(ParseAll(close, ts));
      while pos < |toks| && toks[pos] != close
        invariant Valid() && old(pos) <= pos
        invariant ParseAll(close, ts) == Prepend(es, ParseAll(close, toks[pos..]))
        decreases |toks| - pos
      {
        ListGoesOn(close, toks[pos..], es);
        var a := ParseElement(close);
        if a.None? { return None; }
        es := es + [a.value];
        if pos == |toks| { return None; }
        assert toks[pos..][1..] == toks[pos + 1..];
        pos := pos + 1;
        if toks[pos - 1] == close { return Some(es); }
        if !toks[pos - 1].Comma? { return None; }
      }
      ListEnds(close, toks[pos..], es);
      if pos == |toks| { return None; }
      assert toks[pos..][1..] == toks[pos + 1..];
      pos := pos + 1;
      r := Some(es);
    }

    /** What the rest of a list comes to after its next element. */
    static ghost function AfterElem(close: Token, done: seq<Expr>, head: Option<Parsed<Expr>>):
      Option<Parsed<seq<Expr>>>
    {
      hide *;
      if head.None? || head.value.rest == [] then None
      else if head.value.rest[0] == close then Some(Parsed(done + [head.value.value], head.value.rest[1..]))
      else if head.value.rest[0].Comma? then
        Prepend(done + [head.value.value], ParseAll(close, head.value.rest[1..]))
      else None
    }

    static lemma ListGoesOn(close: Token, ts: seq<Token>, done: seq<Expr>)
      requires hide *; ts != [] && ts[0] != close
      ensures Prepend(done, ParseAll(close, ts)) == AfterElem(close, done, ParseElem(close, ts))
    {
      hide ParseElem;
      var head := ParseElem(close, ts);
      if head.Some? && head.value.rest != [] {
        PrependOne(done, head.value.value, ParseAll(close, head.value.rest[1..]));
      }
    }

    static lemma ListEnds(close: Token, ts: seq<Token>, done: seq<Expr>)
      requires hide *; ts != [] ==> ts[0] == close
      ensures Prepend(done, ParseAll(close, ts)) == if ts == [] then None else Some(Parsed(done, ts[1..]))
    {
      assert done + [] == done;
    }

    method ParseElement(close: Token) returns (r: Option<Expr>)
      requires Valid()
      modifies this
      ensures Reads(ParseElem(close, old(toks[pos..])), r)
      ensures r.Some? ==> old(pos) < pos
      decreases |toks| - pos, 15
    {
      if close.RBracket? && pos < |toks| && toks[pos].Ellipsis? {
        assert toks[pos..][1..] == toks[pos + 1..];
        pos := pos + 1;
        var inner := ParseLevel(1);
        r := if inner.None? then None else Some(Spread(inner.value));
      } else {
        r := ParseLevel(1);
      }
    }

    static lemma PrependNone<T>(r: Option<Parsed<seq<T>>>)
      ensures Prepend([], r) == r
    {
      if r.Some? { assert [] + r.value.value == r.value.value; }
    }

    static lemma PrependOne<T>(done: seq<T>, a: T, r: Option<Parsed<seq<T>>>)
      ensures Prepend(done, Prepend([a], r)) == Prepend(done + [a], r)
    {
      if r.Some? { assert done + ([a] + r.value.value) == (done + [a]) + r.value.value; }
    }

    static ghost function Prepend<T>(done: seq<T>, r: Option<Parsed<seq<T>>>): Option<Parsed<seq<T>>> {
      if r.None? then None else Some(Parsed(done + r.value.value, r.value.rest))
    }

    /** The fields of a record up to the closing brace. */
    method ParseFieldList() returns (r: Option<seq<FieldInit>>)
      requires Valid()
      modifies this
      ensures Reads(ParseFields(old(toks[pos..])), r)
      ensures r.Some? ==> old(pos) < pos
      decreases |toks| - pos, 15
    {
      hide ParseBinary, ParseFields, Prepend;
      ghost var ts := toks[pos..];
      var fs: seq<FieldInit> := [];
      PrependNone(ParseFields(ts));
      while pos < |toks| && !toks[pos].RBrace?
        invariant Valid() && old(pos) <= pos
        invariant ParseFields(ts) == Prepend(fs, ParseFields(toks[pos..]))
        decreases |toks| - pos
      {
        FieldsGoOn(toks[pos..], fs);
        if pos + 1 >= |toks| || !toks[pos].Name? || !toks[pos + 1].Colon? { return None; }
        var key := toks[pos].s;
        assert toks[pos..][2..] == toks[pos + 2..];
        pos := pos + 2;
        var v := ParseLevel(1);
        if v.None? { return None; }
        fs := fs + [FieldInit(key, v.value)];
        if pos == |toks| { return None; }
        assert toks[pos..][1..] == toks[pos + 1..];
        pos := pos + 1;
        if toks[pos - 1].RBrace? { return Some(fs); }
        if !toks[pos - 1].Comma? { return None; }
      }
      FieldsEnd(toks[pos..], fs);
      if pos == |toks| { return None; }
      assert toks[pos..][1..] == toks[pos + 1..];
      pos := pos + 1;
      r := Some(fs);
    }

    /** What the rest of the fields comes to after the next one. */
    static ghost function AfterField(key: string, done: seq<FieldInit>, head: Option<Parsed<Expr>>):
      Option<Parsed<seq<FieldInit>>>
    {
      hide *;
      if head.None? || head.value.rest == [] then None
      else
        var more := done + [FieldInit(key, head.value.value)];
        if head.value.rest[0].RBrace? then Some(Parsed(more, head.value.rest[1..]))
        else if head.value.rest[0].Comma? then Prepend(more, ParseFields(head.value.rest[1..]))
        else None
    }

    static lemma FieldsGoOn(ts: seq<Token>, done: seq<FieldInit>)
      requires hide *; ts != [] && !ts[0].RBrace?
      ensures Prepend(done, ParseFields(ts))
           == if |ts| < 2 || !ts[0].Name? || !ts[1].Colon? then None
              else AfterField(ts[0].s, done, ParseBinary(1, ts[2..]))
    {
      hide ParseBinary;
      if |ts| >= 2 && ts[0].Name? && ts[1].Colon? {
        var head := ParseBinary(1, ts[2..]);
        if head.Some? && head.value.rest != [] {
          PrependOne(done, FieldInit(ts[0].s, head.value.value), ParseFields(head.value.rest[1..]));
        }
      }
    }

    static lemma FieldsEnd(ts: seq<Token>, done: seq<FieldInit>)
      requires hide *; ts != [] ==> ts[0].RBrace?
      ensures Prepend(done, ParseFields(ts)) == if ts == [] then None else Some(Parsed(done, ts[1..]))
    {
      assert done + [] == done;
    }

    method ParseRecordExpr(tag: Option<string>) returns (r: Option<Expr>)
      requires Valid()
      modifies this
      ensures Reads(ParseRecord(tag, old(toks[pos..])), r)
      ensures r.Some? ==> old(pos) < pos
      decreases |toks| - pos, 17
    {
      var fs := ParseFieldList();
      r := if fs.None? then None else Some(Expr.Record(tag, fs.value));
    }

    method ParsePrimaryExpr() returns (r: Option<Expr>)
      requires Valid()
      modifies this
      ensures Reads(ParsePrimary(old(toks[pos..])), r)
      ensures r.Some? ==> old(pos) < pos
      decreases |toks| - pos, 1
    {
      hide ParseBinary, ParseAll, ParseRecord;
      if pos == |toks| { return None; }
      assert toks[pos..][1..] == toks[pos + 1..];
      match toks[pos] {
        case Dot =>
          if pos + 1 == |toks| || !toks[pos + 1].Name? { return None; }
          assert toks[pos..][2..] == toks[pos + 2..];
          pos := pos + 2;
          r := Some(ImplicitField(toks[pos - 1].s));
        case LParen => r := ParseGroup();
        case LBrace => pos := pos + 1; r := ParseRecordExpr(None);
        case LBracket =>
          pos := pos + 1;
          var elems := ParseList(RBracket);
          r := if elems.None? then None else Some(Expr.Array(elems.value));
        case Name(_) => r := ParseNamed();
        case _ =>
          r := Constant(toks[pos]);
          if r.Some? { pos := pos + 1; }
      }
    }

    /** An expression in parentheses. */
    method ParseGroup() returns (r: Option<Expr>)
      requires Valid() && pos < |toks| && toks[pos].LParen?
      modifies this
      ensures Reads(ParsePrimary(old(toks[pos..])), r)
      ensures r.Some? ==> old(pos) < pos
      decreases |toks| - pos, 0
    {
      hide ParseBinary;
      assert toks[pos..][1..] == toks[pos + 1..];
      pos := pos + 1;
      var inner := ParseLevel(1);
      if inner.None? || pos == |toks| || !toks[pos].RParen? { return None; }
      assert toks[pos..][1..] == toks[pos + 1..];
      pos := pos + 1;
      r := inner;
    }

    /** What begins with a name: a lambda, a record or the name itself. */
    method ParseNamed() returns (r: Option<Expr>)
      requires Valid() && pos < |toks| && toks[pos].Name?
      modifies this
      ensures Reads(ParsePrimary(old(toks[pos..])), r)
      ensures r.Some? ==> old(pos) < pos
      decreases |toks| - pos, 0
    {
      hide ParseBinary, ParseRecord;
      var name := toks[pos].s;
      assert toks[pos..][1..] == toks[pos + 1..];
      if pos + 1 < |toks| && toks[pos + 1].FatArrow? {
        assert toks[pos..][2..] == toks[pos + 2..];
        pos := pos + 2;
        var body := ParseLevel(1);
        r := if body.None? then None else Some(Lambda(name, body.value));
      } else if pos + 1 < |toks| && toks[pos + 1].LBrace? {
        assert toks[pos..][2..] == toks[pos + 2..];
        pos := pos + 2;
        r := ParseRecordExpr(Some(name));
      } else {
        pos := pos + 1;
        r := Some(Ident(name));
      }
    }
  }

  /** The expression that a single token stands for. */
  function Constant(t: Token): Option<Expr> {
    match t
    case Num(n) => Some(Expr.Int(n))
    case Time(ms) => Some(Expr.Duration(ms))
    case True => Some(Expr.Bool(true))
    case False => Some(Expr.Bool(false))
    case NullT => Some(Expr.Null)
    case Text(s) => Some(Expr.Str([Lit(s)]))
    case Env(s) => Some(EnvVar(s))
    case _ => None
  }
}
