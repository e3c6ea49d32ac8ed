/** The expression grammar of the language, `or < and < comparison < sum < product < unary < postfix`, as a
    relation between tokens and expressions.  It names its operators and knows nothing of the parser. */
module Grammar {
  import opened Wrappers
  import opened Ast
  import opened Printer

  datatype Layer = OrExpr | AndExpr | CmpExpr | AddExpr | MulExpr | UnaryExpr | PostfixExpr | PrimaryExpr

  /** The operators that join expressions of a layer. */
  predicate Joins(layer: Layer, op: BinOp) {
    match layer
    case OrExpr => op.Or?
    case AndExpr => op.And?
    case CmpExpr => op.Eq? || op.Ne? || op.Lt? || op.Le? || op.Gt? || op.Ge?
    case AddExpr => op.Add? || op.Sub?
    case MulExpr => op.Mul?
    case _ => false
  }

  function Tighter(layer: Layer): Layer {
    match layer
    case OrExpr => AndExpr
    case AndExpr => CmpExpr
    case CmpExpr => AddExpr
    case AddExpr => MulExpr
    case MulExpr => UnaryExpr
    case UnaryExpr => PostfixExpr
    case _ => PrimaryExpr
  }

  function Looseness(layer: Layer): nat {
    match layer
    case OrExpr => 8
    case AndExpr => 7
    case CmpExpr => 6
    case AddExpr => 5
    case MulExpr => 4
    case UnaryExpr => 3
    case PostfixExpr => 2
    case PrimaryExpr => 1
  }

  /** The tokens `ts` are an expression of the layer, and `e` is what they mean.  Every joining operator takes
      what stands before it on its own layer, and one operand of the next tighter layer after it. */
  ghost predicate Sentence(layer: Layer, ts: seq<Token>, e: Expr)
    decreases |ts|, Looseness(layer)
  {
    match layer
    case PrimaryExpr => Primary(ts, e)
    case PostfixExpr => Sentence(PrimaryExpr, ts, e) || Postfix(ts, e)
    case UnaryExpr =>
      || Sentence(PostfixExpr, ts, e)
      || (&& ts != [] && e.Unary? && ts[0] == (if e.uop.Not? then NotT else OpT(Sub))
          && Sentence(UnaryExpr, ts[1..], e.rhs))
    case _ =>
      || Sentence(Tighter(layer), ts, e)
      || (&& e.Binary? && Joins(layer, e.op)
          && exists i: nat | i < |ts| ::
            ts[i] == OpT(e.op) && Sentence(layer, ts[..i], e.lhs) && Sentence(Tighter(layer), ts[i + 1..], e.rhs))
  }

  /** A field of an expression, or a call of one. */
  ghost predicate Postfix(ts: seq<Token>, e: Expr)
    decreases |ts|, 0
  {
    hide *;
    || (&& e.Field? && |ts| >= 2 && ts[|ts| - 2] == Dot && ts[|ts| - 1] == Name(e.field)
        && Sentence(PostfixExpr, ts[..|ts| - 2], e.base))
    || (&& e.Call?
        && exists i: nat | i < |ts| ::
          ts[i] == LParen && Sentence(PostfixExpr, ts[..i], e.callee) && Listed(RParen, ts[i + 1..], e.args))
  }

  ghost predicate Constant(t: Token, e: Expr) {
    match t
    case Num(n) => e == Expr.Int(n)
    case Time(ms) => e == Expr.Duration(ms)
    case True => e == Expr.Bool(true)
    case False => e == Expr.Bool(false)
    case NullT => e == Expr.Null
    case Text(s) => e == Expr.Str([Lit(s)])
    case Env(s) => e == EnvVar(s)
    case Name(s) => e == Ident(s)
    case _ => false
  }

  /** A constant, a name, a field of the implicit element, a group, a lambda, a record or an array. */
  ghost predicate Primary(ts: seq<Token>, e: Expr)
    decreases |ts|, 0
  {
    hide *;
    || (|ts| == 1 && Constant(ts[0], e))
    || (e.ImplicitField? && ts == [Dot, Name(e.field)])
    || (|ts| >= 2 && ts[0] == LParen && ts[|ts| - 1] == RParen && Sentence(OrExpr, ts[1..|ts| - 1], e))
    || (|ts| >= 2 && e.Lambda? && ts[0] == Name(e.param) && ts[1] == FatArrow && Sentence(OrExpr, ts[2..], e.body))
    || (|ts| >= 1 && e.Record? && e.tag == None && ts[0] == LBrace && Fields(ts[1..], e.fields))
    || (|ts| >= 2 && e.Record? && e.tag.Some? && ts[0] == Name(e.tag.value) && ts[1] == LBrace
        && Fields(ts[2..], e.fields))
    || (|ts| >= 1 && e.Array? && ts[0] == LBracket && Listed(RBracket, ts[1..], e.elems))
  }

  /** Expressions with a comma after each but perhaps the last, and the closing token. */
  ghost predicate Listed(close: Token, ts: seq<Token>, es: seq<Expr>)
    decreases |ts|, 9
  {
    hide *;
    || (es == [] && ts == [close])
    || (es != [] && exists i: nat | i < |ts| ::
          && Element(close, ts[..i], es[0])
          && ((ts[i..] == [close] && |es| == 1) || (ts[i] == Comma && Listed(close, ts[i + 1..], es[1..]))))
  }

  /** An array may spread an element. */
  ghost predicate Element(close: Token, ts: seq<Token>, e: Expr)
    decreases |ts|, 9
  {
    || Sentence(OrExpr, ts, e)
    || (close == RBracket && ts != [] && ts[0] == Ellipsis && e.Spread? && Sentence(OrExpr, ts[1..], e.inner))
  }

  ghost predicate Fields(ts: seq<Token>, fs: seq<FieldInit>)
    decreases |ts|, 9
  {
    hide *;
    || (fs == [] && ts == [RBrace])
    || (fs != [] && |ts| >= 2 && ts[0] == Name(fs[0].key) && ts[1] == Colon
        && exists i: nat | 2 <= i < |ts| ::
          && Sentence(OrExpr, ts[2..i], fs[0].value)
          && ((ts[i..] == [RBrace] && |fs| == 1) || (ts[i] == Comma && Fields(ts[i + 1..], fs[1..]))))
  }

  // ---------- one rule at a time ----------

  lemma SaysOperator(layer: Layer, a: seq<Token>, b: seq<Token>, op: BinOp, lhs: Expr, rhs: Expr)
    requires hide *; Joins(layer, op) && Sentence(layer, a, lhs) && Sentence(Tighter(layer), b, rhs)
    ensures Sentence(layer, a + [OpT(op)] + b, Binary(op, lhs, rhs))
  {
    var ts, i := a + [OpT(op)] + b, |a|;
    assert ts[..i] == a && ts[i] == OpT(op) && ts[i + 1..] == b;
  }

  lemma SaysSign(ts: seq<Token>, uop: UnOp, rhs: Expr)
    requires hide *; Sentence(UnaryExpr, ts, rhs)
    ensures Sentence(UnaryExpr, [if uop.Not? then NotT else OpT(Sub)] + ts, Unary(uop, rhs))
  {
    assert ([if uop.Not? then NotT else OpT(Sub)] + ts)[1..] == ts;
  }

  lemma SaysField(ts: seq<Token>, base: Expr, field: string)
    requires hide *; Sentence(PostfixExpr, ts, base)
    ensures Sentence(PostfixExpr, ts + [Dot, Name(field)], Expr.Field(base, field))
  {
    assert (ts + [Dot, Name(field)])[..|ts|] == ts;
  }

  lemma SaysCall(a: seq<Token>, b: seq<Token>, callee: Expr, args: seq<Expr>)
    requires hide *; Sentence(PostfixExpr, a, callee) && Listed(RParen, b, args)
    ensures Sentence(PostfixExpr, a + [LParen] + b, Expr.Call(callee, args))
  {
    var ts, i := a + [LParen] + b, |a|;
    assert ts[..i] == a && ts[i] == LParen && ts[i + 1..] == b;
  }

  lemma ListsOne(close: Token, a: seq<Token>, e: Expr)
    requires hide *; Element(close, a, e)
    ensures Listed(close, a + [close], [e])
  {
    hide Element, Sentence;
    var ts, i := a + [close], |a|;
    assert ts[..i] == a && ts[i..] == [close];
  }

  lemma ListsMore(close: Token, a: seq<Token>, b: seq<Token>, e: Expr, es: seq<Expr>)
    requires hide *; Element(close, a, e) && Listed(close, b, es)
    ensures Listed(close, a + [Comma] + b, [e] + es)
  {
    hide Element, Sentence;
    var ts, i := a + [Comma] + b, |a|;
    assert ts[..i] == a && ts[i] == Comma && ts[i + 1..] == b && ([e] + es)[1..] == es;
  }

  lemma FieldsOne(key: string, a: seq<Token>, e: Expr)
    requires hide *; Sentence(OrExpr, a, e)
    ensures Fields([Name(key), Colon] + a + [RBrace], [FieldInit(key, e)])
  {
    hide Sentence;
    var ts, i := [Name(key), Colon] + a + [RBrace], 2 + |a|;
    assert ts[2..i] == a && ts[i..] == [RBrace];
  }

  lemma FieldsMore(key: string, a: seq<Token>, b: seq<Token>, e: Expr, fs: seq<FieldInit>)
    requires hide *; Sentence(OrExpr, a, e) && Fields(b, fs)
    ensures Fields([Name(key), Colon] + a + [Comma] + b, [FieldInit(key, e)] + fs)
  {
    hide Sentence;
    var ts, i := [Name(key), Colon] + a + [Comma] + b, 2 + |a|;
    assert ts[2..i] == a && ts[i] == Comma && ts[i + 1..] == b && ([FieldInit(key, e)] + fs)[1..] == fs;
  }

  lemma SaysGroup(ts: seq<Token>, e: Expr)
    requires hide *; Sentence(OrExpr, ts, e)
    ensures Primary([LParen] + ts + [RParen], e)
  {
    hide Sentence, Fields, Listed;
    var all := [LParen] + ts + [RParen];
    assert all[1..|all| - 1] == ts;
  }

  lemma SaysLambda(param: string, ts: seq<Token>, body: Expr)
    requires hide *; Sentence(OrExpr, ts, body)
    ensures Primary([Name(param), FatArrow] + ts, Lambda(param, body))
  {
    hide Sentence, Fields, Listed;
    assert ([Name(param), FatArrow] + ts)[2..] == ts;
  }

  lemma SaysArray(ts: seq<Token>, elems: seq<Expr>)
    requires hide *; Listed(RBracket, ts, elems)
    ensures Primary([LBracket] + ts, Expr.Array(elems))
  {
    hide Sentence, Fields, Listed;
    assert ([LBracket] + ts)[1..] == ts;
  }

  lemma SaysRecord(tag: Option<string>, ts: seq<Token>, fields: seq<FieldInit>)
    requires hide *; Fields(ts, fields)
    ensures Primary((if tag.Some? then [Name(tag.value)] else []) + [LBrace] + ts, Expr.Record(tag, fields))
  {
    hide Sentence, Fields, Listed;
    var opening := (if tag.Some? then [Name(tag.value)] else []) + [LBrace];
    assert (opening + ts)[|opening|..] == ts;
  }

  // ---------- the parser follows it ----------

  function LayerAt(level: nat): Layer
    requires 1 <= level <= 6
  {
    [OrExpr, AndExpr, CmpExpr, AddExpr, MulExpr, UnaryExpr][level - 1]
  }

  /** The tokens that were read: all before the rest. */
  function Used<T>(ts: seq<Token>, r: Parsed<T>): seq<Token> {
    hide *;
    if |r.rest| <= |ts| then ts[..|ts| - |r.rest|] else []
  }

  ghost predicate Reads(layer: Layer, ts: seq<Token>, r: Option<Parsed<Expr>>) {
    hide *;
    r.Some? ==> ts == Used(ts, r.value) + r.value.rest && Sentence(layer, Used(ts, r.value), r.value.value)
  }

  lemma Whole<T>(ts: seq<Token>, a: seq<Token>, r: Parsed<T>)
    requires hide *; ts == a + r.rest
    ensures Used(ts, r) == a
  {
  }

  lemma {:induction false} LevelReads(level: nat, ts: seq<Token>)
    requires hide *; 1 <= level <= 6
    ensures Reads(LayerAt(level), ts, ParseBinary(level, ts))
    decreases |ts|, 10 - level
  {
    hide ParseUnary, ParseLoop, Sentence;
    if level == 6 {
      UnaryReads(ts);
    } else {
      LevelReads(level + 1, ts);
      var lhs := ParseBinary(level + 1, ts);
      if lhs.Some? {
        assert Sentence(LayerAt(level), Used(ts, lhs.value), lhs.value.value) by { Loosens(level, ts, lhs.value); }
        LoopReads(level, lhs.value.value, lhs.value.rest, Used(ts, lhs.value));
      }
    }
  }

  lemma Loosens(level: nat, ts: seq<Token>, r: Parsed<Expr>)
    requires hide *; 1 <= level <= 5 && Sentence(LayerAt(level + 1), Used(ts, r), r.value)
    ensures Sentence(LayerAt(level), Used(ts, r), r.value)
  {
    hide Primary, Postfix;
  }

  /** Going on from `lhs`, which `before` spelled. */
  lemma {:induction false} LoopReads(level: nat, lhs: Expr, ts: seq<Token>, before: seq<Token>)
    requires hide *; 1 <= level <= 5 && Sentence(LayerAt(level), before, lhs)
    ensures Reads(LayerAt(level), before + ts, ParseLoop(level, lhs, ts))
    decreases |ts|, 20
  {
    hide ParseBinary, Sentence, LayerAt;
    if ts == [] || !ts[0].OpT? || Prec(ts[0].op) != level {
      Whole(before + ts, before, Parsed(lhs, ts));
      return;
    }
    JoinsAt(level, ts[0].op);
    LevelReads(level + 1, ts[1..]);
    var rhs := ParseBinary(level + 1, ts[1..]);
    if rhs.Some? {
      var used := Used(ts[1..], rhs.value);
      hide Used, Reads;
      assert ts == [ts[0]] + (used + rhs.value.rest);
      SaysOperator(LayerAt(level), before, used, ts[0].op, lhs, rhs.value.value);
      LoopReads(level, Binary(ts[0].op, lhs, rhs.value.value), rhs.value.rest, before + [ts[0]] + used);
      assert before + ts == before + [ts[0]] + used + rhs.value.rest;
    }
  }

  lemma JoinsAt(level: nat, op: BinOp)
    requires 1 <= level <= 5 && Prec(op) == level
    ensures Joins(LayerAt(level), op) && Tighter(LayerAt(level)) == LayerAt(level + 1)
  {
  }

  lemma {:induction false} UnaryReads(ts: seq<Token>)
    ensures hide *; Reads(UnaryExpr, ts, ParseUnary(ts))
    decreases |ts|, 3
  {
    hide ParsePrimary, ParsePostfix, Sentence;
    if ts != [] && (ts[0].NotT? || ts[0] == OpT(Sub)) {
      UnaryReads(ts[1..]);
      var rhs := ParseUnary(ts[1..]);
      if rhs.Some? {
        SaysSign(Used(ts[1..], rhs.value), if ts[0].NotT? then Not else Neg, rhs.value.value);
        Whole(ts, [ts[0]] + Used(ts[1..], rhs.value), rhs.value);
      }
    } else {
      PrimaryReads(ts);
      var base := ParsePrimary(ts);
      if base.Some? {
        Follows(Used(ts, base.value), base.value.value);
        PostfixReads(base.value.value, base.value.rest, Used(ts, base.value));
        var r := ParsePostfix(base.value.value, base.value.rest);
        if r.Some? { Signless(Used(ts, r.value), r.value.value); }
      }
    }
  }

  lemma Follows(ts: seq<Token>, e: Expr)
    requires hide *; Sentence(PrimaryExpr, ts, e)
    ensures Sentence(PostfixExpr, ts, e)
  {
    hide Primary, Postfix;
  }

  lemma Signless(ts: seq<Token>, e: Expr)
    requires hide *; Sentence(PostfixExpr, ts, e)
    ensures Sentence(UnaryExpr, ts, e)
  {
    hide Primary, Postfix;
  }

  /** The fields and calls that follow `base`, which `before` spelled. */
  lemma {:induction false} PostfixReads(base: Expr, ts: seq<Token>, before: seq<Token>)
    requires hide *; Sentence(PostfixExpr, before, base)
    ensures Reads(PostfixExpr, before + ts, ParsePostfix(base, ts))
    decreases |ts|, 1
  {
    hide ParseAll, Sentence, Listed;
    if ts != [] && ts[0].Dot? {
      if |ts| > 1 && ts[1].Name? {
        SaysField(before, base, ts[1].s);
        PostfixReads(Expr.Field(base, ts[1].s), ts[2..], before + [Dot, ts[1]]);
        assert before + ts == before + [Dot, ts[1]] + ts[2..];
      }
    } else if ts != [] && ts[0].LParen? {
      AllReads(RParen, ts[1..]);
      var args := ParseAll(RParen, ts[1..]);
      if args.Some? {
        var used := Used(ts[1..], args.value);
        SaysCall(before, used, base, args.value.value);
        PostfixReads(Expr.Call(base, args.value.value), args.value.rest, before + [LParen] + used);
        assert before + ts == before + [LParen] + used + args.value.rest;
      }
    } else {
      Whole(before + ts, before, Parsed(base, ts));
    }
  }

  ghost predicate ReadsAll(close: Token, ts: seq<Token>, r: Option<Parsed<seq<Expr>>>) {
    hide *;
    r.Some? ==> ts == Used(ts, r.value) + r.value.rest && Listed(close, Used(ts, r.value), r.value.value)
  }

  lemma OneReads(close: Token, ts: seq<Token>, a: seq<Token>, e: Expr, rest: seq<Token>)
    requires hide *; ts == a + [close] + rest && Element(close, a, e)
    ensures ReadsAll(close, ts, Some(Parsed([e], rest)))
  {
    hide Element, Sentence, Listed;
    ListsOne(close, a, e);
    Whole(ts, a + [close], Parsed([e], rest));
  }

  lemma MoreReads(close: Token, ts: seq<Token>, a: seq<Token>, e: Expr, later: seq<Token>,
      tail: Parsed<seq<Expr>>)
    requires hide *; ts == a + [Comma] + later && Element(close, a, e) && ReadsAll(close, later, Some(tail))
    ensures ReadsAll(close, ts, Some(Parsed([e] + tail.value, tail.rest)))
  {
    hide Element, Sentence, Listed;
    var more := Used(later, tail);
    ListsMore(close, a, more, e, tail.value);
    assert ts == a + [Comma] + more + tail.rest;
    Whole(ts, a + [Comma] + more, Parsed([e] + tail.value, tail.rest));
  }

  lemma AllEnds(close: Token, ts: seq<Token>)
    requires hide *; ts == [] || ts[0] == close
    ensures ReadsAll(close, ts, ParseAll(close, ts))
  {
    hide ParseElem, Element, Sentence;
    if ts != [] { Whole<seq<Expr>>(ts, [close], Parsed([], ts[1..])); }
  }

  /** What is made of a list whose first element is read. */
  function AfterElement(close: Token, e: Expr, rest: seq<Token>): Option<Parsed<seq<Expr>>> {
    if rest != [] && rest[0] == close then Some(Parsed([e], rest[1..]))
    else if rest != [] && rest[0].Comma? && ParseAll(close, rest[1..]).Some? then
      var tail := ParseAll(close, rest[1..]).value;
      Some(Parsed([e] + tail.value, tail.rest))
    else None
  }

  lemma AllGoesOn(close: Token, ts: seq<Token>)
    requires hide *; ts != [] && ts[0] != close
    ensures var head := ParseElem(close, ts);
            ParseAll(close, ts) == if head.None? then None else AfterElement(close, head.value.value, head.value.rest)
  {
    hide ParseElem;
  }

  lemma {:induction false} AllReads(close: Token, ts: seq<Token>)
    requires hide *; close.RParen? || close.RBracket?
    ensures ReadsAll(close, ts, ParseAll(close, ts))
    decreases |ts|, 16
  {
    hide ParseElem, ParseAll, Element, Sentence, Listed, ReadsAll;
    NoneReads(close, ts);
    if ts == [] || ts[0] == close {
      AllEnds(close, ts);
    } else {
      AllGoesOn(close, ts);
      ElementReads(close, ts);
      var head := ParseElem(close, ts);
      if head.Some? && head.value.rest != [] {
        var used, e, rest := Used(ts, head.value), head.value.value, head.value.rest;
        hide Used;
        assert rest == [rest[0]] + rest[1..] && ts == used + [rest[0]] + rest[1..];
        if rest[0] == close {
          OneReads(close, ts, used, e, rest[1..]);
        } else if rest[0].Comma? {
          AllReads(close, rest[1..]);
          var tail := ParseAll(close, rest[1..]);
          if tail.Some? { MoreReads(close, ts, used, e, rest[1..], tail.value); }
        }
      }
    }
  }

  lemma NoneReads(close: Token, ts: seq<Token>)
    ensures hide *; ReadsAll(close, ts, None) && ReadsFields(ts, None)
  {
  }

  lemma {:induction false} ElementReads(close: Token, ts: seq<Token>)
    requires hide *; close.RParen? || close.RBracket?
    ensures var r := ParseElem(close, ts);
            r.Some? ==> ts == Used(ts, r.value) + r.value.rest && Element(close, Used(ts, r.value), r.value.value)
    decreases |ts|, 15
  {
    hide ParseBinary, Sentence;
    if close.RBracket? && ts != [] && ts[0].Ellipsis? {
      LevelReads(1, ts[1..]);
      var inner := ParseBinary(1, ts[1..]);
      if inner.Some? {
        var used := [Ellipsis] + Used(ts[1..], inner.value);
        assert used[1..] == Used(ts[1..], inner.value);
        Whole(ts, used, inner.value);
      }
    } else {
      LevelReads(1, ts);
    }
  }

  ghost predicate ReadsFields(ts: seq<Token>, r: Option<Parsed<seq<FieldInit>>>) {
    hide *;
    r.Some? ==> ts == Used(ts, r.value) + r.value.rest && Fields(Used(ts, r.value), r.value.value)
  }

  lemma OneField(ts: seq<Token>, key: string, a: seq<Token>, e: Expr, rest: seq<Token>)
    requires hide *; ts == [Name(key), Colon] + a + [RBrace] + rest && Sentence(OrExpr, a, e)
    ensures ReadsFields(ts, Some(Parsed([FieldInit(key, e)], rest)))
  {
    hide Sentence, Fields;
    FieldsOne(key, a, e);
    Whole(ts, [Name(key), Colon] + a + [RBrace], Parsed([FieldInit(key, e)], rest));
  }

  lemma MoreFieldsRead(ts: seq<Token>, key: string, a: seq<Token>, e: Expr, later: seq<Token>,
      tail: Parsed<seq<FieldInit>>)
    requires hide *;
             ts == [Name(key), Colon] + a + [Comma] + later && Sentence(OrExpr, a, e) && ReadsFields(later, Some(tail))
    ensures ReadsFields(ts, Some(Parsed([FieldInit(key, e)] + tail.value, tail.rest)))
  {
    hide Sentence, Fields;
    var more := Used(later, tail);
    FieldsMore(key, a, more, e, tail.value);
    assert ts == [Name(key), Colon] + a + [Comma] + more + tail.rest;
    Whole(ts, [Name(key), Colon] + a + [Comma] + more, Parsed([FieldInit(key, e)] + tail.value, tail.rest));
  }

  /** What is made of fields of which the first is read. */
  function AfterField(field: FieldInit, rest: seq<Token>): Option<Parsed<seq<FieldInit>>> {
    if rest != [] && rest[0].RBrace? then Some(Parsed([field], rest[1..]))
    else if rest != [] && rest[0].Comma? && ParseFields(rest[1..]).Some? then
      var tail := ParseFields(rest[1..]).value;
      Some(Parsed([field] + tail.value, tail.rest))
    else None
  }

  lemma FieldsGoOn(ts: seq<Token>)
    ensures hide *; var head := if |ts| < 2 then None else ParseBinary(1, ts[2..]);
            if ts != [] && ts[0].RBrace? then ParseFields(ts) == Some(Parsed([], ts[1..]))
            else if |ts| < 2 || !ts[0].Name? || !ts[1].Colon? || head.None? then ParseFields(ts) == None
            else ParseFields(ts) == AfterField(FieldInit(ts[0].s, head.value.value), head.value.rest)
  {
    hide ParseBinary;
  }

  lemma NoFields(ts: seq<Token>)
    requires hide *; ts != [] && ts[0].RBrace?
    ensures ReadsFields(ts, Some(Parsed([], ts[1..])))
  {
    hide Sentence;
    Whole<seq<FieldInit>>(ts, [RBrace], Parsed([], ts[1..]));
  }

  lemma {:induction false} FieldsRead(ts: seq<Token>)
    ensures hide *; ReadsFields(ts, ParseFields(ts))
    decreases |ts|, 15
  {
    hide ParseBinary, ParseFields, Sentence, Fields, ReadsFields;
    FieldsGoOn(ts);
    NoneReads(RBrace, ts);
    if ts != [] && ts[0].RBrace? {
      NoFields(ts);
    } else if |ts| >= 2 && ts[0].Name? && ts[1].Colon? {
      LevelReads(1, ts[2..]);
      var head := ParseBinary(1, ts[2..]);
      if head.Some? && head.value.rest != [] {
        var used, e, rest := Used(ts[2..], head.value), head.value.value, head.value.rest;
        hide Used;
        assert ts == [ts[0], Colon] + ts[2..] && rest == [rest[0]] + rest[1..];
        assert ts == [ts[0], Colon] + used + [rest[0]] + rest[1..];
        if rest[0].RBrace? {
          OneField(ts, ts[0].s, used, e, rest[1..]);
        } else if rest[0].Comma? {
          FieldsRead(rest[1..]);
          var tail := ParseFields(rest[1..]);
          if tail.Some? { MoreFieldsRead(ts, ts[0].s, used, e, rest[1..], tail.value); }
        }
      }
    }
  }

  /** A primary by its first tokens. */
  lemma PrimaryParses(ts: seq<Token>)
    requires hide *; ts != []
    ensures ts[0].LParen? ==>
              var inner := ParseBinary(1, ts[1..]);
              ParsePrimary(ts) == if inner.None? || inner.value.rest == [] || !inner.value.rest[0].RParen? then None
                                  else Some(Parsed(inner.value.value, inner.value.rest[1..]))
    ensures ts[0].LBrace? ==> ParsePrimary(ts) == ParseRecord(None, ts[1..])
    ensures ts[0].LBracket? ==>
              var elems := ParseAll(RBracket, ts[1..]);
              ParsePrimary(ts) == if elems.None? then None
                                  else Some(Parsed(Expr.Array(elems.value.value), elems.value.rest))
    ensures ts[0].Name? && |ts| > 1 && ts[1].FatArrow? ==>
              var body := ParseBinary(1, ts[2..]);
              ParsePrimary(ts) == if body.None? then None
                                  else Some(Parsed(Lambda(ts[0].s, body.value.value), body.value.rest))
    ensures ts[0].Name? && |ts| > 1 && ts[1].LBrace? ==> ParsePrimary(ts) == ParseRecord(Some(ts[0].s), ts[2..])
  {
    hide ParseBinary, ParseRecord, ParseAll;
  }

  lemma {:induction false} PrimaryReads(ts: seq<Token>)
    ensures hide *; Reads(PrimaryExpr, ts, ParsePrimary(ts))
    decreases |ts|, 2
  {
    hide ParseBinary, ParseFields, ParseAll, ParsePrimary, Sentence, Reads, Primary;
    NothingReads(ts);
    if ts != [] && ParsePrimary(ts).Some? {
      PrimaryParses(ts);
      if ts[0].LParen? {
        GroupReads(ts);
      } else if ts[0].LBrace? {
        RecordReads(None, [LBrace], ts);
      } else if ts[0].LBracket? {
        ArrayReads(ts);
      } else if ts[0].Name? && |ts| > 1 && ts[1].FatArrow? {
        LambdaReads(ts);
      } else if ts[0].Name? && |ts| > 1 && ts[1].LBrace? {
        RecordReads(Some(ts[0].s), [ts[0], LBrace], ts);
      } else {
        AtomReads(ts);
      }
    } else if ts == [] {
      NoPrimary();
    }
  }

  lemma NothingReads(ts: seq<Token>)
    ensures hide *; Reads(PrimaryExpr, ts, None)
  {
    hide Sentence;
  }

  lemma NoPrimary()
    ensures hide *; ParsePrimary([]) == None
  {
  }

  /** A constant, a name, or a field of the implicit element. */
  predicate IsAtom(ts: seq<Token>) {
    && ts != [] && !ts[0].LParen? && !ts[0].LBrace? && !ts[0].LBracket?
    && !(ts[0].Name? && |ts| > 1 && (ts[1].FatArrow? || ts[1].LBrace?))
  }

  lemma AtomParses(ts: seq<Token>)
    requires hide *; ts != [] && IsAtom(ts) && ParsePrimary(ts).Some?
    ensures var r := ParsePrimary(ts).value;
            if ts[0].Dot? then |ts| > 1 && ts[1].Name? && r == Parsed(ImplicitField(ts[1].s), ts[2..])
            else Constant(ts[0], r.value) && r.rest == ts[1..]
  {
    hide ParseBinary, ParseRecord, ParseAll, ParseUnary, ParsePostfix, ParseElem, ParseFields, ParseLoop, Shorter,
      Sentence, Listed, Fields, Primary, Postfix;
    if ts[0].Dot? || ts[0].Name? {
    } else {
      assert ParsePrimary(ts) == Some(Parsed(ParsePrimary(ts).value.value, ts[1..]));
    }
  }

  lemma AtomReads(ts: seq<Token>)
    requires hide *; IsAtom(ts)
    ensures Reads(PrimaryExpr, ts, ParsePrimary(ts))
  {
    hide ParsePrimary, Sentence, Fields, Listed, Constant;
    var r := ParsePrimary(ts);
    if r.Some? {
      AtomParses(ts);
      hide IsAtom, Reads;
      var all := if ts[0].Dot? then [Dot, ts[1]] else [ts[0]];
      assert ts == all + r.value.rest && Primary(all, r.value.value);
      PrimaryIs(ts, all, r.value);
    } else {
      NothingReads(ts);
    }
  }

  lemma PrimaryIs(ts: seq<Token>, all: seq<Token>, r: Parsed<Expr>)
    requires hide *; ts == all + r.rest && Primary(all, r.value)
    ensures Reads(PrimaryExpr, ts, Some(r))
  {
    hide Primary;
    Whole(ts, all, r);
  }

  lemma {:induction false} GroupReads(ts: seq<Token>)
    requires hide *; ts != [] && ts[0].LParen?
    ensures Reads(PrimaryExpr, ts, ParsePrimary(ts))
    decreases |ts|, 1
  {
    hide ParseBinary, ParsePrimary, Sentence, Primary;
    PrimaryParses(ts);
    LevelReads(1, ts[1..]);
    var inner := ParseBinary(1, ts[1..]);
    if inner.Some? && inner.value.rest != [] && inner.value.rest[0].RParen? {
      var used := Used(ts[1..], inner.value);
      SaysGroup(used, inner.value.value);
      hide Reads, Used;
      assert ts == [LParen] + used + [RParen] + inner.value.rest[1..];
      PrimaryIs(ts, [LParen] + used + [RParen], Parsed(inner.value.value, inner.value.rest[1..]));
    }
  }

  lemma {:induction false} RecordReads(tag: Option<string>, opening: seq<Token>, ts: seq<Token>)
    requires hide *; opening == (if tag.Some? then [Name(tag.value)] else []) + [LBrace] && opening <= ts
    ensures Reads(PrimaryExpr, ts, ParseRecord(tag, ts[|opening|..]))
    decreases |ts|, 1
  {
    hide ParseFields, Sentence, Fields, Primary;
    var rest := ts[|opening|..];
    FieldsRead(rest);
    var fields := ParseFields(rest);
    if fields.Some? {
      var used := Used(rest, fields.value);
      SaysRecord(tag, used, fields.value.value);
      hide Reads, Used;
      assert ts == opening + used + fields.value.rest;
      PrimaryIs(ts, opening + used, Parsed(Expr.Record(tag, fields.value.value), fields.value.rest));
    }
  }

  lemma {:induction false} ArrayReads(ts: seq<Token>)
    requires hide *; ts != [] && ts[0].LBracket?
    ensures Reads(PrimaryExpr, ts, ParsePrimary(ts))
    decreases |ts|, 1
  {
    hide ParseAll, ParsePrimary, Sentence, Listed, Primary;
    PrimaryParses(ts);
    AllReads(RBracket, ts[1..]);
    var elems := ParseAll(RBracket, ts[1..]);
    if elems.Some? {
      var used := Used(ts[1..], elems.value);
      SaysArray(used, elems.value.value);
      hide Reads, Used;
      assert ts == [LBracket] + used + elems.value.rest;
      PrimaryIs(ts, [LBracket] + used, Parsed(Expr.Array(elems.value.value), elems.value.rest));
    }
  }

  lemma {:induction false} LambdaReads(ts: seq<Token>)
    requires hide *; |ts| > 1 && ts[0].Name? && ts[1].FatArrow?
    ensures Reads(PrimaryExpr, ts, ParsePrimary(ts))
    decreases |ts|, 1
  {
    hide ParseBinary, ParsePrimary, Sentence, Primary;
    PrimaryParses(ts);
    LevelReads(1, ts[2..]);
    var body := ParseBinary(1, ts[2..]);
    if body.Some? {
      var used := Used(ts[2..], body.value);
      SaysLambda(ts[0].s, used, body.value.value);
      hide Reads, Used;
      assert ts == [ts[0], FatArrow] + used + body.value.rest;
      PrimaryIs(ts, [ts[0], FatArrow] + used, Parsed(Lambda(ts[0].s, body.value.value), body.value.rest));
    }
  }

  /** Whatever the parser reads is a sentence of the grammar, with the meaning the grammar gives it. */
  lemma ParserFollowsGrammar(ts: seq<Token>)
    ensures hide *; Reads(OrExpr, ts, ParseExpr(ts))
  {
    LevelReads(1, ts);
  }

  // ---------- two operators ----------

  function LayerOf(op: BinOp): (l: Layer)
    ensures Joins(l, op)
  {
    match op
    case Or => OrExpr
    case And => AndExpr
    case Add => AddExpr
    case Sub => AddExpr
    case Mul => MulExpr
    case _ => CmpExpr
  }

  /** Of two operators in a row the tighter one takes the operand between them; of equals, the first. */
  lemma TwoOperators(x: string, y: string, z: string, a: BinOp, b: BinOp)
    ensures hide *; ParseExpr([Name(x), OpT(a), Name(y), OpT(b), Name(z)]) == Some(Parsed(
              if Looseness(LayerOf(b)) < Looseness(LayerOf(a)) then Binary(a, Ident(x), Binary(b, Ident(y), Ident(z)))
              else Binary(b, Binary(a, Ident(x), Ident(y)), Ident(z)),
              []))
  {
    hide ParseExpr, PlainAt, Printer.Print;
    NamePrints(x);
    NamePrints(z);
    if Looseness(LayerOf(b)) < Looseness(LayerOf(a)) {
      PairPrints(b, y, z);
      OutermostPrints(a, Ident(x), Binary(b, Ident(y), Ident(z)));
      PrintThenParse(Binary(a, Ident(x), Binary(b, Ident(y), Ident(z))));
      assert [Name(x)] + [OpT(a)] + [Name(y), OpT(b), Name(z)] == [Name(x), OpT(a), Name(y), OpT(b), Name(z)];
    } else {
      PairPrints(a, x, y);
      OutermostPrints(b, Binary(a, Ident(x), Ident(y)), Ident(z));
      PrintThenParse(Binary(b, Binary(a, Ident(x), Ident(y)), Ident(z)));
      assert [Name(x), OpT(a), Name(y)] + [OpT(b)] + [Name(z)] == [Name(x), OpT(a), Name(y), OpT(b), Name(z)];
    }
  }

  /** Operands that need no parentheses. */
  lemma OutermostPrints(op: BinOp, lhs: Expr, rhs: Expr)
    requires hide *; !Wrapped(lhs, Prec(op)) && !Wrapped(rhs, Prec(op))
    requires PlainAt(lhs, Prec(op), false) && PlainAt(rhs, Prec(op) + 1, true)
    ensures Print(Binary(op, lhs, rhs)) == Print(lhs) + [OpT(op)] + Print(rhs) && Plain(Binary(op, lhs, rhs))
  {
  }

  lemma NamePrints(x: string)
    ensures hide *; Print(Ident(x)) == [Name(x)]
    ensures forall level: nat, last: bool :: PlainAt(Ident(x), level, last)
  {
  }

  lemma PairPrints(op: BinOp, x: string, y: string)
    ensures hide *; Print(Binary(op, Ident(x), Ident(y))) == [Name(x), OpT(op), Name(y)]
    ensures forall level: nat, last: bool | level <= Prec(op) :: PlainAt(Binary(op, Ident(x), Ident(y)), level, last)
  {
    assert Print(Ident(x)) == [Name(x)] && Print(Ident(y)) == [Name(y)];
    assert Operand(Ident(x), Prec(op)) == [Name(x)] && Operand(Ident(y), Prec(op)) == [Name(y)];
  }
}
