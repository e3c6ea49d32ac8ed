/** Exactly which expressions survive printing and parsing, by counting parentheses: the parser needs at
    least a certain number of them to give back an expression, and the printer writes as many only when the
    expression is plain. */
module RoundTrip {
  import opened Wrappers
  import opened Ast
  import opened Printer

  function Parens(ts: seq<Token>): nat {
    if ts == [] then 0 else (if ts[0].LParen? then 1 else 0) + Parens(ts[1..])
  }

  lemma {:induction false} ParensAppend(a: seq<Token>, b: seq<Token>)
    ensures Parens(a + b) == Parens(a) + Parens(b)
  {
    if a == [] {
      assert a + b == b;
    } else {
      assert (a + b)[1..] == a[1..] + b;
      ParensAppend(a[1..], b);
    }
  }

  // ---------- the parentheses an expression needs ----------

  /** Whether an expression can stand at `level` without parentheses of its own. */
  predicate Fits(e: Expr, level: nat, last: bool) {
    match e
    case Unary(_, _) => level <= 6
    case Binary(op, _, _) => level <= Prec(op)
    case Lambda(_, _) => level <= 6 && last
    case _ => true
  }

  function Need(e: Expr, level: nat, last: bool): nat
    decreases e, 2
  {
    if Fits(e, level, last) then Within(e, last) else 1 + Within(e, true)
  }

  function Within(e: Expr, last: bool): nat
    decreases e, 1
  {
    hide *;
    match e
    case Field(base, _) => Need(base, 7, false)
    case Call(callee, args) => Need(callee, 7, false) + 1 + NeedAll(args)
    case Unary(_, rhs) => Need(rhs, 6, last)
    case Binary(op, lhs, rhs) => Need(lhs, Prec(op), false) + Need(rhs, Prec(op) + 1, last)
    case Record(_, fields) => NeedFields(fields)
    case Array(elems) => NeedAll(elems)
    case Lambda(_, body) => Need(body, 1, true)
    case Spread(inner) => Need(inner, 1, true)
    case _ => 0
  }

  function NeedAll(es: seq<Expr>): nat
    decreases es, 0
  {
    hide *;
    if es == [] then 0 else Need(es[0], 1, true) + NeedAll(es[1..])
  }

  function NeedFields(fs: seq<FieldInit>): nat
    decreases fs, 0
  {
    hide *;
    if fs == [] then 0 else Need(fs[0].value, 1, true) + NeedFields(fs[1..])
  }

  /** The expressions a parser can return: no negative number, no range, no spread but among elements. */
  predicate Real(e: Expr)
    decreases e, 1
  {
    match e
    case Int(n) => n >= 0
    case Str(parts) => |parts| == 1 && parts[0].Lit?
    case Field(base, _) => Real(base)
    case Call(callee, args) => Real(callee) && RealAll(args, false)
    case Unary(_, rhs) => Real(rhs)
    case Binary(_, lhs, rhs) => Real(lhs) && Real(rhs)
    case Record(_, fields) => RealFields(fields)
    case Array(elems) => RealAll(elems, true)
    case Lambda(_, body) => Real(body)
    case Spread(_) => false
    case Range(_, _) => false
    case Match(_, _) => false
    case _ => true
  }

  predicate RealElem(e: Expr, spreads: bool)
    decreases e, 2
  {
    if spreads && e.Spread? then Real(e.inner) else Real(e)
  }

  predicate RealAll(es: seq<Expr>, spreads: bool)
    decreases es, 0
  {
    es == [] || (RealElem(es[0], spreads) && RealAll(es[1..], spreads))
  }

  predicate RealFields(fs: seq<FieldInit>)
    decreases fs, 0
  {
    fs == [] || (Real(fs[0].value) && RealFields(fs[1..]))
  }

  /** Letting a lambda stand last saves at most the parentheses around it. */
  lemma {:induction false} LastSaves(e: Expr)
    ensures Within(e, true) <= Within(e, false) <= 1 + Within(e, true)
    decreases e
  {
    match e {
      case Unary(_, rhs) => LastSaves(rhs);
      case Binary(_, _, rhs) => LastSaves(rhs);
      case _ =>
    }
  }

  /** A tighter place needs no fewer. */
  lemma NeedGrows(e: Expr, level: nat, to: nat, last: bool, most: bool)
    requires level <= to && (last ==> most)
    ensures Need(e, level, most) <= Need(e, to, last) <= 1 + Within(e, true)
  {
    LastSaves(e);
  }

  lemma NeedOf(e: Expr, level: nat, last: bool)
    ensures hide *; e.Field? ==> Need(e, level, last) == Need(e.base, 7, false)
    ensures e.Call? ==> Need(e, level, last) == Need(e.callee, 7, false) + 1 + NeedAll(e.args)
    ensures e.Unary? && level <= 6 ==> Need(e, level, last) == Need(e.rhs, 6, last)
    ensures e.Lambda? && level <= 6 && last ==> Need(e, level, last) == Need(e.body, 1, true)
    ensures e.Array? ==> Need(e, level, last) == NeedAll(e.elems)
    ensures e.Record? ==> Need(e, level, last) == NeedFields(e.fields)
    ensures Leaf(e) && !e.Spread? && !e.Range? ==> Need(e, level, last) == 0
  {
    assert Need(e, level, last) == if Fits(e, level, last) then Within(e, last) else 1 + Within(e, true);
  }

  // ---------- what the parser takes ----------

  /** `rest` goes on with a field, a call or an operator. */
  predicate Goes(rest: seq<Token>) {
    rest != [] && (rest[0].Dot? || rest[0].LParen? || rest[0].OpT?)
  }

  /** After an expression at `level`, neither a postfix nor an operator of that level or a tighter one. */
  predicate Stops(rest: seq<Token>, level: nat) {
    rest != [] ==> !rest[0].Dot? && !rest[0].LParen? && (rest[0].OpT? ==> Prec(rest[0].op) < level)
  }

  lemma {:induction false} PostfixStops(base: Expr, ts: seq<Token>)
    ensures hide *; ParsePostfix(base, ts).Some? ==> Stops(ParsePostfix(base, ts).value.rest, 6)
    decreases |ts|
  {
    hide ParseAll;
    if ts != [] && ts[0].Dot? {
      if |ts| > 1 && ts[1].Name? { PostfixStops(Expr.Field(base, ts[1].s), ts[2..]); }
    } else if ts != [] && ts[0].LParen? {
      var args := ParseAll(RParen, ts[1..]);
      if args.Some? { PostfixStops(Expr.Call(base, args.value.value), args.value.rest); }
    }
  }

  lemma {:induction false} UnaryStops(ts: seq<Token>)
    ensures hide *; ParseUnary(ts).Some? ==> Stops(ParseUnary(ts).value.rest, 6)
    decreases |ts|
  {
    hide Printer.Print, ParsePrimary, ParsePostfix;
    if ts != [] && (ts[0].NotT? || ts[0] == OpT(Sub)) {
      UnaryStops(ts[1..]);
    } else {
      var base := ParsePrimary(ts);
      if base.Some? { PostfixStops(base.value.value, base.value.rest); }
    }
  }

  lemma {:induction false} LoopStops(level: nat, lhs: Expr, ts: seq<Token>)
    requires hide *; 1 <= level <= 5 && Stops(ts, level + 1)
    ensures ParseLoop(level, lhs, ts).Some? ==> Stops(ParseLoop(level, lhs, ts).value.rest, level)
    decreases |ts|, 20
  {
    hide ParseBinary;
    if ts != [] && ts[0].OpT? && Prec(ts[0].op) == level {
      var rhs := ParseBinary(level + 1, ts[1..]);
      BinaryStops(level + 1, ts[1..]);
      if rhs.Some? { LoopStops(level, Binary(ts[0].op, lhs, rhs.value.value), rhs.value.rest); }
    }
  }

  lemma {:induction false} BinaryStops(level: nat, ts: seq<Token>)
    requires hide *; 1 <= level <= 6
    ensures ParseBinary(level, ts).Some? ==> Stops(ParseBinary(level, ts).value.rest, level)
    decreases |ts|, 10 - level
  {
    hide ParseUnary;
    if level == 6 {
      UnaryStops(ts);
    } else {
      BinaryStops(level + 1, ts);
      var lhs := ParseBinary(level + 1, ts);
      if lhs.Some? { LoopStops(level, lhs.value.value, lhs.value.rest); }
    }
  }

  /** Reading `e` took at least the parentheses that it needs at `level`. */
  ghost predicate Took(ts: seq<Token>, r: Option<Parsed<Expr>>, level: nat) {
    hide *;
    r.Some? ==> Real(r.value.value)
                && Parens(ts) >= Parens(r.value.rest) + Need(r.value.value, level, !Goes(r.value.rest))
  }

  lemma {:induction false} BinaryTook(level: nat, ts: seq<Token>)
    requires hide *; 1 <= level <= 6
    ensures Took(ts, ParseBinary(level, ts), level)
    decreases |ts|, 10 - level
  {
    hide Printer.Print, Need, Real, Parens;
    if level == 6 {
      UnaryTook(ts);
    } else {
      BinaryTook(level + 1, ts);
      var lhs := ParseBinary(level + 1, ts);
      if lhs.Some? {
        var e, rest := lhs.value.value, lhs.value.rest;
        NeedGrows(e, level, level + 1, !Goes(rest), !Goes(rest));
        LoopTook(level, e, rest, Parens(ts) - Parens(rest));
      }
    }
  }

  /** Going on from `lhs`, for which `spent` parentheses were taken. */
  lemma {:induction false} LoopTook(level: nat, lhs: Expr, ts: seq<Token>, spent: nat)
    requires hide *; 1 <= level <= 5 && Real(lhs) && spent >= Need(lhs, level, !Goes(ts))
    ensures var r := ParseLoop(level, lhs, ts);
            r.Some? ==> Real(r.value.value)
                        && spent + Parens(ts) >= Parens(r.value.rest) + Need(r.value.value, level, !Goes(r.value.rest))
    decreases |ts|, 20
  {
    hide Printer.Print, ParseBinary;
    if ts != [] && ts[0].OpT? && Prec(ts[0].op) == level {
      BinaryTook(level + 1, ts[1..]);
      var rhs := ParseBinary(level + 1, ts[1..]);
      if rhs.Some? {
        var e, rest := Binary(ts[0].op, lhs, rhs.value.value), rhs.value.rest;
        assert Need(e, level, !Goes(rest)) == Need(lhs, level, false) + Need(rhs.value.value, level + 1, !Goes(rest));
        assert Parens(ts) == Parens(ts[1..]);
        hide Need;
        LoopTook(level, e, rest, spent + Parens(ts) - Parens(rest));
      }
    }
  }

  lemma {:induction false} UnaryTook(ts: seq<Token>)
    ensures hide *; Took(ts, ParseUnary(ts), 6)
    decreases |ts|, 3
  {
    hide Printer.Print, ParsePrimary, ParsePostfix;
    if ts != [] && (ts[0].NotT? || ts[0] == OpT(Sub)) {
      UnaryTook(ts[1..]);
      var r := ParseUnary(ts);
      if r.Some? { NeedOf(r.value.value, 6, !Goes(r.value.rest)); }
      hide Need;
    } else {
      PrimaryTook(ts);
      hide Need, Parens;
      var base := ParsePrimary(ts);
      if base.Some? { PostfixTook(base.value.value, base.value.rest, Parens(ts) - Parens(base.value.rest)); }
    }
  }

  /** What a primary needs, before what follows it. */
  function NeedBefore(e: Expr, rest: seq<Token>): nat {
    hide *;
    Need(e, if Goes(rest) then 7 else 6, !Goes(rest))
  }

  lemma {:induction false} PostfixTook(base: Expr, ts: seq<Token>, spent: nat)
    requires hide *; Real(base) && spent >= NeedBefore(base, ts)
    ensures var r := ParsePostfix(base, ts);
            r.Some? ==> Real(r.value.value)
                        && spent + Parens(ts) >= Parens(r.value.rest) + Need(r.value.value, 6, !Goes(r.value.rest))
    decreases |ts|, 1
  {
    hide Printer.Print, ParseAll;
    if ts != [] && ts[0].Dot? {
      if |ts| > 1 && ts[1].Name? {
        assert ts[1..][1..] == ts[2..];
        var e := Expr.Field(base, ts[1].s);
        NeedOf(e, if Goes(ts[2..]) then 7 else 6, !Goes(ts[2..]));
        hide Need;
        PostfixTook(e, ts[2..], spent);
      }
    } else if ts != [] && ts[0].LParen? {
      AllTook(RParen, ts[1..]);
      var args := ParseAll(RParen, ts[1..]);
      if args.Some? {
        var e := Expr.Call(base, args.value.value);
        NeedOf(e, if Goes(args.value.rest) then 7 else 6, !Goes(args.value.rest));
        hide Need;
        PostfixTook(e, args.value.rest, spent + Parens(ts) - Parens(args.value.rest));
      }
    } else {
      NeedGrows(base, 6, 7, false, false);
    }
  }

  lemma {:induction false} AllTook(close: Token, ts: seq<Token>)
    requires hide *; close.RParen? || close.RBracket?
    ensures var r := ParseAll(close, ts);
            r.Some? ==> RealAll(r.value.value, close.RBracket?)
                        && Parens(ts) >= Parens(r.value.rest) + NeedAll(r.value.value)
    decreases |ts|, 16
  {
    hide Printer.Print, ParseElem;
    if ts != [] && ts[0] != close {
      ElemTook(close, ts);
      var head := ParseElem(close, ts);
      if head.Some? && head.value.rest != [] {
        var e, rest := head.value.value, head.value.rest;
        if rest[0] == close {
          assert [e][1..] == [];
        } else if rest[0].Comma? {
          AllTook(close, rest[1..]);
          var tail := ParseAll(close, rest[1..]);
          if tail.Some? { assert ([e] + tail.value.value)[1..] == tail.value.value; }
        }
      }
      hide RealElem, Need;
    }
  }

  lemma {:induction false} ElemTook(close: Token, ts: seq<Token>)
    requires hide *; close.RParen? || close.RBracket?
    ensures var r := ParseElem(close, ts);
            r.Some? ==> RealElem(r.value.value, close.RBracket?)
                        && Parens(ts) >= Parens(r.value.rest) + Need(r.value.value, 1, true)
    decreases |ts|, 15
  {
    hide Printer.Print, ParseBinary;
    if close.RBracket? && ts != [] && ts[0].Ellipsis? {
      WholeTook(ts[1..]);
    } else {
      WholeTook(ts);
    }
  }

  /** A whole expression: nothing that could go on follows it. */
  lemma {:induction false} WholeTook(ts: seq<Token>)
    ensures hide *; var r := ParseBinary(1, ts);
            r.Some? ==> !Goes(r.value.rest) && Real(r.value.value) && !r.value.value.Spread?
                        && Parens(ts) >= Parens(r.value.rest) + Need(r.value.value, 1, true)
    decreases |ts|, 12
  {
    hide Printer.Print, ParseBinary;
    BinaryStops(1, ts);
    BinaryTook(1, ts);
  }

  lemma {:induction false} FieldsTook(ts: seq<Token>)
    ensures hide *; var r := ParseFields(ts);
            r.Some? ==> RealFields(r.value.value) && Parens(ts) >= Parens(r.value.rest) + NeedFields(r.value.value)
    decreases |ts|, 15
  {
    hide Printer.Print, ParseBinary;
    if |ts| >= 2 && ts[0].Name? && ts[1].Colon? {
      assert ts[1..][1..] == ts[2..];
      WholeTook(ts[2..]);
      var head := ParseBinary(1, ts[2..]);
      if head.Some? && head.value.rest != [] {
        var field, rest := FieldInit(ts[0].s, head.value.value), head.value.rest;
        if rest[0].RBrace? {
          assert [field][1..] == [];
        } else if rest[0].Comma? {
          FieldsTook(rest[1..]);
          var tail := ParseFields(rest[1..]);
          if tail.Some? { assert ([field] + tail.value.value)[1..] == tail.value.value; }
        }
      }
      hide Need;
    }
  }

  lemma {:induction false} RecordTook(tag: Option<string>, ts: seq<Token>)
    ensures hide *; var r := ParseRecord(tag, ts);
            r.Some? ==> Real(r.value.value) && r.value.value.Record?
                        && Parens(ts) >= Parens(r.value.rest) + Within(r.value.value, true)
    decreases |ts|, 17
  {
    hide Printer.Print;
    FieldsTook(ts);
  }

  ghost predicate TookPrimary(ts: seq<Token>, r: Option<Parsed<Expr>>) {
    hide *;
    r.Some? ==> Real(r.value.value) && Parens(ts) >= Parens(r.value.rest) + NeedBefore(r.value.value, r.value.rest)
  }

  lemma {:induction false} PrimaryTook(ts: seq<Token>)
    ensures TookPrimary(ts, ParsePrimary(ts))
    decreases |ts|, 2
  {
    hide Printer.Print;
    if ts == [] {
    } else if ts[0].LParen? {
      GroupTook(ts);
    } else if ts[0].LBrace? {
      BracesTook(ts);
    } else if ts[0].LBracket? {
      BracketsTook(ts);
    } else if ts[0].Name? {
      NamedTook(ts);
    } else {
      AtomTook(ts);
    }
    hide ParsePrimary, TookPrimary;
  }

  lemma {:induction false} BracesTook(ts: seq<Token>)
    requires hide *; ts != [] && ts[0].LBrace?
    ensures TookPrimary(ts, ParsePrimary(ts))
    decreases |ts|, 1
  {
    hide Printer.Print, ParseRecord;
    RecordTook(None, ts[1..]);
    PlainBefore(ts);
    hide Need;
  }

  lemma {:induction false} BracketsTook(ts: seq<Token>)
    requires hide *; ts != [] && ts[0].LBracket?
    ensures TookPrimary(ts, ParsePrimary(ts))
    decreases |ts|, 1
  {
    hide Printer.Print, ParseAll;
    AllTook(RBracket, ts[1..]);
    PlainBefore(ts);
    hide Need;
  }

  /** A constant, a name of the environment, or a field of the implicit element. */
  lemma AtomTook(ts: seq<Token>)
    requires hide *; ts != [] && !ts[0].LParen? && !ts[0].LBrace? && !ts[0].LBracket? && !ts[0].Name?
    ensures TookPrimary(ts, ParsePrimary(ts))
  {
    hide Printer.Print;
    var r := ParsePrimary(ts);
    PlainBefore(ts);
    assert Parens(ts) == Parens(ts[1..]);
    if ts[0].Dot? && r.Some? { assert ts[1..][1..] == ts[2..] && Parens(ts[1..]) == Parens(ts[2..]); }
    assert r.Some? ==> Leaf(r.value.value) && Real(r.value.value) && Parens(ts) >= Parens(r.value.rest);
    hide Need;
  }

  lemma PlainBefore(ts: seq<Token>)
    ensures hide *; var r := ParsePrimary(ts);
            r.Some? ==> var e := r.value.value;
                        && (e.Array? ==> NeedBefore(e, r.value.rest) == NeedAll(e.elems))
                        && (e.Record? ==> NeedBefore(e, r.value.rest) == NeedFields(e.fields))
                        && (Leaf(e) && !e.Spread? && !e.Range? ==> NeedBefore(e, r.value.rest) == 0)
  {
    hide Printer.Print, ParsePrimary;
    var r := ParsePrimary(ts);
    if r.Some? { NeedOf(r.value.value, if Goes(r.value.rest) then 7 else 6, !Goes(r.value.rest)); }
  }

  /** An expression in parentheses, which cover whatever it needs. */
  lemma {:induction false} GroupTook(ts: seq<Token>)
    requires hide *; ts != [] && ts[0].LParen?
    ensures TookPrimary(ts, ParsePrimary(ts))
    decreases |ts|, 1
  {
    hide Printer.Print;
    WholeTook(ts[1..]);
    var inner := ParseBinary(1, ts[1..]);
    hide ParseBinary;
    if inner.Some? && inner.value.rest != [] {
      var e, rest := inner.value.value, inner.value.rest[1..];
      NeedGrows(e, 1, if Goes(rest) then 7 else 6, !Goes(rest), true);
      assert Need(e, 1, true) == Within(e, true);
      hide Need;
    }
  }

  lemma {:induction false} NamedTook(ts: seq<Token>)
    requires hide *; ts != [] && ts[0].Name?
    ensures TookPrimary(ts, ParsePrimary(ts))
    decreases |ts|, 1
  {
    hide Printer.Print, ParseBinary, ParseRecord;
    PlainBefore(ts);
    if |ts| > 1 {
      assert ts[1..][1..] == ts[2..];
      assert !ts[1].LParen? ==> Parens(ts) == Parens(ts[1..]) == Parens(ts[2..]);
      if ts[1].FatArrow? {
        WholeTook(ts[2..]);
        var r := ParsePrimary(ts);
        if r.Some? {
          var body := ParseBinary(1, ts[2..]).value;
          assert r.value == Parsed(Lambda(ts[0].s, body.value), body.rest);
          NeedOf(r.value.value, 6, true);
          assert NeedBefore(r.value.value, body.rest) == Need(body.value, 1, true);
        }
      } else if ts[1].LBrace? {
        RecordTook(Some(ts[0].s), ts[2..]);
        assert ParsePrimary(ts) == ParseRecord(Some(ts[0].s), ts[2..]);
      } else {
        assert ParsePrimary(ts) == Some(Parsed(Ident(ts[0].s), ts[1..]));
      }
    }
  }

  // ---------- what the printer writes ----------

  lemma PrintCounts(a: seq<Token>, b: seq<Token>, c: seq<Token>)
    ensures Parens(a + b + c) == Parens(a) + Parens(b) + Parens(c)
  {
    ParensAppend(a + b, c);
    ParensAppend(a, b);
  }

  lemma OneToken(t: Token)
    ensures Parens([t]) == if t.LParen? then 1 else 0
  {
    assert [t][1..] == [];
  }

  /** The printer never writes more parentheses than are needed, and fewer if the expression is not plain. */
  ghost predicate Writes(ts: seq<Token>, most: nat, plain: bool) {
    Parens(ts) <= most && (plain || Parens(ts) < most)
  }

  lemma {:induction false} PrintWrites(e: Expr, level: nat, last: bool)
    requires Real(e) && 1 <= level <= 7
    ensures Writes(Print(e), Need(e, level, last), PlainAt(e, level, last))
    decreases e, 3
  {
    hide Printer.Print;
    if Fits(e, level, last) {
      WithinWrites(e, level, last);
    } else {
      WithinWrites(e, 1, true);
    }
  }

  lemma {:induction false} WithinWrites(e: Expr, level: nat, last: bool)
    requires Real(e) && Fits(e, level, last) && 1 <= level <= 7
    ensures Writes(Print(e), Within(e, last), PlainAt(e, level, last))
    decreases e, 2
  {
    hide Need, Parens;
    match e {
      case Field(base, field) =>
        PrintWrites(base, 7, false);
        ParensAppend(Print(base), [Dot, Name(field)]);
        ParensAppend([Dot], [Name(field)]);
        OneToken(Dot); OneToken(Name(field));
        assert [Dot, Name(field)] == [Dot] + [Name(field)];
      case Call(callee, args) =>
        PrintWrites(callee, 7, false);
        AllWrites(args, false);
        PrintCounts(Print(callee) + [LParen], PrintAll(args), [RParen]);
        ParensAppend(Print(callee), [LParen]);
        OneToken(LParen); OneToken(RParen);
      case Unary(uop, rhs) =>
        PrintWrites(rhs, 6, last);
        ParensAppend([if uop.Not? then NotT else OpT(Sub)], Print(rhs));
        OneToken(if uop.Not? then NotT else OpT(Sub));
      case Binary(op, lhs, rhs) =>
        OperandWrites(lhs, Prec(op), Prec(op), false);
        OperandWrites(rhs, Prec(op), Prec(op) + 1, last);
        PrintCounts(Operand(lhs, Prec(op)), [OpT(op)], Operand(rhs, Prec(op)));
        OneToken(OpT(op));
      case Record(tag, fields) =>
        FieldsWrite(fields);
        var open := if tag.Some? then [Name(tag.value)] else [];
        PrintCounts(open + [LBrace], PrintFields(fields), [RBrace]);
        ParensAppend(open, [LBrace]);
        if tag.Some? { OneToken(Name(tag.value)); } else { NoToken(); }
        OneToken(LBrace); OneToken(RBrace);
      case Array(elems) =>
        AllWrites(elems, true);
        PrintCounts([LBracket], PrintAll(elems), [RBracket]);
        OneToken(LBracket); OneToken(RBracket);
      case Lambda(param, body) =>
        PrintWrites(body, 1, true);
        ParensAppend([Name(param), FatArrow], Print(body));
        ParensAppend([Name(param)], [FatArrow]);
        OneToken(Name(param)); OneToken(FatArrow);
        assert [Name(param), FatArrow] == [Name(param)] + [FatArrow];
      case _ => LeafWrites(e, level, last);
    }
  }

  lemma NoToken()
    ensures Parens([]) == 0
  {
  }

  lemma LeafWrites(e: Expr, level: nat, last: bool)
    requires Real(e) && Leaf(e)
    ensures Parens(Print(e)) == 0 && PlainAt(e, level, last)
  {
    if e.ImplicitField? {
      ParensAppend([Dot], [Name(e.field)]);
      OneToken(Dot); OneToken(Name(e.field));
      assert Print(e) == [Dot] + [Name(e.field)];
    } else if e.Str? {
      StrBack(e.parts, []);
      OneToken(Text(e.parts[0].text));
    } else {
      assert |Print(e)| == 1 && Print(e) == [Print(e)[0]];
      OneToken(Print(e)[0]);
    }
  }

  lemma {:induction false} OperandWrites(e: Expr, parent: nat, level: nat, last: bool)
    requires Real(e) && 1 <= parent <= level <= 6
    ensures Writes(Operand(e, parent), Need(e, level, last), PlainOperand(e, parent, level, last))
    decreases e, 4
  {
    hide Parens, Print;
    if Wrapped(e, parent) {
      PrintWrites(e, 1, true);
      assert Need(e, level, last) == 1 + Within(e, true) && Need(e, 1, true) == Within(e, true);
      PrintCounts([LParen], Print(e), [RParen]);
      OneToken(LParen); OneToken(RParen);
    } else {
      PrintWrites(e, level, last);
    }
    hide Need;
  }

  lemma {:induction false} ElemWrites(e: Expr, spreads: bool)
    requires hide *; RealElem(e, spreads)
    ensures Writes(Print(e), Need(e, 1, true),
                   if spreads && e.Spread? then PlainAt(e.inner, 1, true) else PlainAt(e, 1, true))
    decreases e, 5
  {
    if spreads && e.Spread? {
      PrintWrites(e.inner, 1, true);
      ParensAppend([Ellipsis], Print(e.inner));
      OneToken(Ellipsis);
      assert Need(e, 1, true) == Within(e, true) == Need(e.inner, 1, true);
    } else {
      PrintWrites(e, 1, true);
    }
    hide Need;
  }

  lemma {:induction false} AllWrites(es: seq<Expr>, spreads: bool)
    requires RealAll(es, spreads)
    ensures Writes(PrintAll(es), NeedAll(es), PlainAll(es, spreads))
    decreases es, 0
  {
    hide Parens, Print, PlainAt, Need;
    NoToken();
    if es != [] {
      ElemWrites(es[0], spreads);
      AllWrites(es[1..], spreads);
      if |es| > 1 {
        PrintCounts(Print(es[0]), [Comma], PrintAll(es[1..]));
        OneToken(Comma);
      }
    }
  }

  lemma {:induction false} FieldsWrite(fs: seq<FieldInit>)
    requires RealFields(fs)
    ensures Writes(PrintFields(fs), NeedFields(fs), PlainFields(fs))
    decreases fs, 0
  {
    hide Parens, Print, PlainAt, Need;
    NoToken();
    if fs != [] {
      PrintWrites(fs[0].value, 1, true);
      FieldsWrite(fs[1..]);
      var one := [Name(fs[0].key), Colon] + Print(fs[0].value);
      ParensAppend([Name(fs[0].key), Colon], Print(fs[0].value));
      ParensAppend([Name(fs[0].key)], [Colon]);
      assert [Name(fs[0].key), Colon] == [Name(fs[0].key)] + [Colon];
      OneToken(Name(fs[0].key)); OneToken(Colon);
      if |fs| > 1 {
        PrintCounts(one, [Comma], PrintFields(fs[1..]));
        OneToken(Comma);
      }
    }
  }

  // ---------- the theorem ----------

  /** Only what the parser can return is plain. */
  lemma {:induction false} PlainIsReal(e: Expr, level: nat, last: bool)
    requires PlainAt(e, level, last)
    ensures Real(e)
    decreases e, 1
  {
    hide Printer.Print;
    match e {
      case Field(base, _) => PlainIsReal(base, 7, false);
      case Call(callee, args) => PlainIsReal(callee, 7, false); PlainAllReal(args, false);
      case Unary(_, rhs) => PlainIsReal(rhs, 6, last);
      case Binary(op, lhs, rhs) =>
        if Wrapped(lhs, Prec(op)) { PlainIsReal(lhs, 1, true); } else { PlainIsReal(lhs, Prec(op), false); }
        if Wrapped(rhs, Prec(op)) { PlainIsReal(rhs, 1, true); } else { PlainIsReal(rhs, Prec(op) + 1, last); }
      case Record(_, fields) => PlainFieldsReal(fields);
      case Array(elems) => PlainAllReal(elems, true);
      case Lambda(_, body) => PlainIsReal(body, 1, true);
      case _ =>
    }
  }

  lemma {:induction false} PlainAllReal(es: seq<Expr>, spreads: bool)
    requires PlainAll(es, spreads)
    ensures RealAll(es, spreads)
    decreases es, 0
  {
    hide Printer.Print;
    if es != [] {
      if spreads && es[0].Spread? {
        assert es[0].inner < es[0];
        PlainIsReal(es[0].inner, 1, true);
      } else {
        PlainIsReal(es[0], 1, true);
      }
      PlainAllReal(es[1..], spreads);
    }
  }

  lemma {:induction false} PlainFieldsReal(fs: seq<FieldInit>)
    requires PlainFields(fs)
    ensures RealFields(fs)
    decreases fs, 0
  {
    hide Printer.Print;
    if fs != [] {
      PlainIsReal(fs[0].value, 1, true);
      PlainFieldsReal(fs[1..]);
    }
  }

  /** An expression whose parts all have tokens of their own survives printing and parsing exactly when it is
      plain: no number is negative, no right operand has its parent's own precedence, no operator expression
      stands under a unary operator or before a field or a call, nothing follows the body of a lambda, and
      ranges and spreads stand nowhere but spreads among elements. */
  lemma RoundTripExactly(e: Expr)
    requires Spelled(e)
    ensures ParseExpr(Print(e)) == Some(Parsed(e, [])) <==> Plain(e)
  {
    hide ParseBinary, Print;
    if Plain(e) {
      PrintThenParse(e);
    } else if ParseExpr(Print(e)) == Some(Parsed(e, [])) {
      WholeTook(Print(e));
      PrintWrites(e, 1, true);
    }
  }
}
