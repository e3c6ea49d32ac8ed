/** The expression printer and the precedence-climbing parser, on tokens.  A string without interpolations
    is one token; an interpolated string and a match are not spelled out. */
module Printer {
  import opened Wrappers
  import opened Ast

  datatype Token =
    | Num(n: nat)
    | Text(s: string)
    | Name(s: string)
    | Env(s: string)
    | Time(ms: nat)
    | True
    | False
    | NullT
    | Dot
    | LParen
    | RParen
    | LBracket
    | RBracket
    | LBrace
    | RBrace
    | Comma
    | Colon
    | FatArrow
    | TwoDots
    | Ellipsis
    | NotT
    | OpT(op: BinOp)
    | Opaque(e: Expr)

  function Prec(op: BinOp): nat {
    match op
    case Or => 1
    case And => 2
    case Add => 4
    case Sub => 4
    case Mul => 5
    case _ => 3
  }

  // ---------- printing ----------

  predicate AllLiteral(parts: seq<StrPart>) {
    forall p | p in parts :: p.Lit?
  }

  function Texts(parts: seq<StrPart>): string {
    if parts == [] then "" else (if parts[0].Lit? then parts[0].text else "") + Texts(parts[1..])
  }

  function Print(e: Expr): seq<Token>
    decreases e, 1
  {
    hide *;
    match e
    case Int(n) => if n < 0 then [OpT(Sub), Num(-n)] else [Num(n)]
    case Bool(b) => [if b then True else False]
    case Null => [NullT]
    case Duration(ms) => [Time(ms)]
    case Str(parts) => if AllLiteral(parts) then [Text(Texts(parts))] else [Opaque(e)]
    case Ident(name) => [Name(name)]
    case EnvVar(name) => [Env(name)]
    case ImplicitField(field) => [Dot, Name(field)]
    case Field(base, field) => Print(base) + [Dot, Name(field)]
    case Call(callee, args) => Print(callee) + [LParen] + PrintAll(args) + [RParen]
    case Unary(uop, rhs) => [if uop.Not? then NotT else OpT(Sub)] + Print(rhs)
    case Binary(op, lhs, rhs) => Operand(lhs, Prec(op)) + [OpT(op)] + Operand(rhs, Prec(op))
    case Record(tag, fields) => (if tag.Some? then [Name(tag.value)] else []) + [LBrace] + PrintFields(fields)
        + [RBrace]
    case Array(elems) => [LBracket] + PrintAll(elems) + [RBracket]
    case Spread(inner) => [Ellipsis] + Print(inner)
    case Lambda(param, body) => [Name(param), FatArrow] + Print(body)
    case Range(lo, hi) => Print(lo) + [TwoDots] + Print(hi)
    case Match(_, _) => [Opaque(e)]
  }

  /** Parentheses only around an operand that binds less tightly. */
  function Operand(e: Expr, parent: nat): seq<Token>
    decreases e, 2
  {
    hide *;
    if e.Binary? && Prec(e.op) < parent then [LParen] + Print(e) + [RParen] else Print(e)
  }

  function PrintAll(es: seq<Expr>): seq<Token>
    decreases es, 0
  {
    hide *;
    if es == [] then []
    else if |es| == 1 then Print(es[0])
    else Print(es[0]) + [Comma] + PrintAll(es[1..])
  }

  function PrintFields(fs: seq<FieldInit>): seq<Token>
    decreases fs, 0
  {
    hide *;
    if fs == [] then []
    else
      var one := [Name(fs[0].key), Colon] + Print(fs[0].value);
      if |fs| == 1 then one else one + [Comma] + PrintFields(fs[1..])
  }

  // ---------- parsing ----------

  datatype Parsed<T> = Parsed(value: T, rest: seq<Token>)

  predicate Shorter<T>(r: Option<Parsed<T>>, ts: seq<Token>) {
    r.Some? ==> |r.value.rest| < |ts|
  }

  /** Operators of level `level` and tighter, 1 (`or`) to 5 (`*`); 6 is a unary expression. */
  function ParseBinary(level: nat, ts: seq<Token>): (r: Option<Parsed<Expr>>)
    requires 1 <= level <= 6
    ensures Shorter(r, ts)
    decreases |ts|, 10 - level
  {
    if level == 6 then ParseUnary(ts)
    else
      var lhs := ParseBinary(level + 1, ts);
      if lhs.None? then None else ParseLoop(level, lhs.value.value, lhs.value.rest)
  }

  function ParseLoop(level: nat, lhs: Expr, ts: seq<Token>): (r: Option<Parsed<Expr>>)
    requires 1 <= level <= 5
    ensures r.Some? ==> |r.value.rest| <= |ts|
    decreases |ts|, 20
  {
    hide *;
    if ts != [] && ts[0].OpT? && Prec(ts[0].op) == level then
      var rhs := ParseBinary(level + 1, ts[1..]);
      if rhs.None? then None
      else ParseLoop(level, Binary(ts[0].op, lhs, rhs.value.value), rhs.value.rest)
    else Some(Parsed(lhs, ts))
  }

  function ParseUnary(ts: seq<Token>): (r: Option<Parsed<Expr>>)
    ensures Shorter(r, ts)
    decreases |ts|, 3
  {
    if ts != [] && (ts[0].NotT? || ts[0] == OpT(Sub)) then
      var rhs := ParseUnary(ts[1..]);
      if rhs.None? then None
      else Some(Parsed(Unary(if ts[0].NotT? then Not else Neg, rhs.value.value), rhs.value.rest))
    else
      var base := ParsePrimary(ts);
      if base.None? then None else ParsePostfix(base.value.value, base.value.rest)
  }

  /** Field accesses and calls that follow `base`. */
  function ParsePostfix(base: Expr, ts: seq<Token>): (r: Option<Parsed<Expr>>)
    ensures r.Some? ==> |r.value.rest| <= |ts|
    decreases |ts|, 1
  {
    hide *;
    if ts != [] && ts[0].Dot? then
      if |ts| > 1 && ts[1].Name? then ParsePostfix(Expr.Field(base, ts[1].s), ts[2..]) else None
    else if ts != [] && ts[0].LParen? then
      var args := ParseAll(RParen, ts[1..]);
      if args.None? then None else ParsePostfix(Expr.Call(base, args.value.value), args.value.rest)
    else Some(Parsed(base, ts))
  }

  /** Arguments or elements up to and including the closing token; a trailing comma is allowed, and a
      spread among elements. */
  function ParseAll(close: Token, ts: seq<Token>): (r: Option<Parsed<seq<Expr>>>)
    ensures Shorter(r, ts)
    decreases |ts|, 16
  {
    if ts == [] then None
    else if ts[0] == close then Some(Parsed([], ts[1..]))
    else
      var head := ParseElem(close, ts);
      if head.None? || head.value.rest == [] then None
      else if head.value.rest[0] == close then Some(Parsed([head.value.value], head.value.rest[1..]))
      else if head.value.rest[0].Comma? then
        var tail := ParseAll(close, head.value.rest[1..]);
        if tail.None? then None else Some(Parsed([head.value.value] + tail.value.value, tail.value.rest))
      else None
  }

  function ParseElem(close: Token, ts: seq<Token>): (r: Option<Parsed<Expr>>)
    ensures Shorter(r, ts)
    decreases |ts|, 15
  {
    if close.RBracket? && ts != [] && ts[0].Ellipsis? then
      var inner := ParseBinary(1, ts[1..]);
      if inner.None? then None else Some(Parsed(Spread(inner.value.value), inner.value.rest))
    else ParseBinary(1, ts)
  }

  /** The fields of a record up to and including the closing brace. */
  function ParseFields(ts: seq<Token>): (r: Option<Parsed<seq<FieldInit>>>)
    ensures Shorter(r, ts)
    decreases |ts|, 15
  {
    if ts == [] then None
    else if ts[0].RBrace? then Some(Parsed([], ts[1..]))
    else if |ts| < 2 || !ts[0].Name? || !ts[1].Colon? then None
    else
      var head := ParseBinary(1, ts[2..]);
      if head.None? || head.value.rest == [] then None
      else
        var field := FieldInit(ts[0].s, head.value.value);
        if head.value.rest[0].RBrace? then Some(Parsed([field], head.value.rest[1..]))
        else if head.value.rest[0].Comma? then
          var tail := ParseFields(head.value.rest[1..]);
          if tail.None? then None else Some(Parsed([field] + tail.value.value, tail.value.rest))
        else None
  }

  function ParseRecord(tag: Option<string>, ts: seq<Token>): (r: Option<Parsed<Expr>>)
    ensures Shorter(r, ts)
    decreases |ts|, 17
  {
    var fields := ParseFields(ts);
    if fields.None? then None else Some(Parsed(Expr.Record(tag, fields.value.value), fields.value.rest))
  }

  function ParsePrimary(ts: seq<Token>): (r: Option<Parsed<Expr>>)
    ensures Shorter(r, ts)
    decreases |ts|, 2
  {
    if ts == [] then None
    else match ts[0]
      case Num(n) => Some(Parsed(Expr.Int(n), ts[1..]))
      case Time(ms) => Some(Parsed(Expr.Duration(ms), ts[1..]))
      case True => Some(Parsed(Expr.Bool(true), ts[1..]))
      case False => Some(Parsed(Expr.Bool(false), ts[1..]))
      case NullT => Some(Parsed(Expr.Null, ts[1..]))
      case Text(s) => Some(Parsed(Expr.Str([Lit(s)]), ts[1..]))
      case Env(s) => Some(Parsed(EnvVar(s), ts[1..]))
      case Dot => if |ts| > 1 && ts[1].Name? then Some(Parsed(ImplicitField(ts[1].s), ts[2..])) else None
      case LParen =>
        var inner := ParseBinary(1, ts[1..]);
        if inner.None? || inner.value.rest == [] || !inner.value.rest[0].RParen? then None
        else Some(Parsed(inner.value.value, inner.value.rest[1..]))
      case LBrace => ParseRecord(None, ts[1..])
      case LBracket =>
        var elems := ParseAll(RBracket, ts[1..]);
        if elems.None? then None else Some(Parsed(Expr.Array(elems.value.value), elems.value.rest))
      case Name(s) =>
        if |ts| > 1 && ts[1].FatArrow? then
          var body := ParseBinary(1, ts[2..]);
          if body.None? then None else Some(Parsed(Lambda(s, body.value.value), body.value.rest))
        else if |ts| > 1 && ts[1].LBrace? then ParseRecord(Some(s), ts[2..])
        else Some(Parsed(Ident(s), ts[1..]))
      case _ => None
  }

  function ParseExpr(ts: seq<Token>): Option<Parsed<Expr>> { hide *; ParseBinary(1, ts) }

  // ---------- what survives ----------

  /** Every part has tokens of its own: no match, no interpolated string. */
  predicate Spelled(e: Expr)
    decreases e, 1
  {
    match e
    case Str(parts) => AllLiteral(parts)
    case Field(base, _) => Spelled(base)
    case Call(callee, args) => Spelled(callee) && SpelledAll(args)
    case Unary(_, rhs) => Spelled(rhs)
    case Binary(_, lhs, rhs) => Spelled(lhs) && Spelled(rhs)
    case Record(_, fields) => SpelledFields(fields)
    case Array(elems) => SpelledAll(elems)
    case Spread(inner) => Spelled(inner)
    case Lambda(_, body) => Spelled(body)
    case Range(lo, hi) => Spelled(lo) && Spelled(hi)
    case Match(_, _) => false
    case _ => true
  }

  predicate SpelledAll(es: seq<Expr>)
    decreases es, 0
  {
    es == [] || (Spelled(es[0]) && SpelledAll(es[1..]))
  }

  predicate SpelledFields(fs: seq<FieldInit>)
    decreases fs, 0
  {
    fs == [] || (Spelled(fs[0].value) && SpelledFields(fs[1..]))
  }

  /** An expression that needs no more parentheses than it is given where it stands: at `level`, 1 to 5 for
      an operand of that precedence, 6 under a unary operator, 7 before a field or a call; `last` when
      nothing follows that the body of a lambda could take for itself. */
  predicate PlainAt(e: Expr, level: nat, last: bool)
    decreases e, 1
  {
    hide *;
    match e
    case Int(n) => n >= 0
    case Str(parts) => |parts| == 1 && parts[0].Lit?
    case Field(base, _) => PlainAt(base, 7, false)
    case Call(callee, args) => PlainAt(callee, 7, false) && PlainAll(args, false)
    case Unary(_, rhs) => level <= 6 && PlainAt(rhs, 6, last)
    case Binary(op, lhs, rhs) =>
      level <= Prec(op)
      && (if Wrapped(lhs, Prec(op)) then PlainAt(lhs, 1, true) else PlainAt(lhs, Prec(op), false))
      && (if Wrapped(rhs, Prec(op)) then PlainAt(rhs, 1, true) else PlainAt(rhs, Prec(op) + 1, last))
    case Record(_, fields) => PlainFields(fields)
    case Array(elems) => PlainAll(elems, true)
    case Lambda(_, body) => level <= 6 && last && PlainAt(body, 1, true)
    case Spread(_) => false
    case Range(_, _) => false
    case Match(_, _) => false
    case _ => true
  }

  /** Whether the printer puts an operand in parentheses. */
  predicate Wrapped(e: Expr, parent: nat) { e.Binary? && Prec(e.op) < parent }

  predicate PlainAll(es: seq<Expr>, spreads: bool)
    decreases es, 0
  {
    hide *;
    es == []
    || (&& (if spreads && es[0].Spread? then
              assert es[0].inner < es[0];
              PlainAt(es[0].inner, 1, true)
            else PlainAt(es[0], 1, true))
        && PlainAll(es[1..], spreads))
  }

  predicate PlainFields(fs: seq<FieldInit>)
    decreases fs, 0
  {
    hide *;
    fs == [] || (PlainAt(fs[0].value, 1, true) && PlainFields(fs[1..]))
  }

  /** The expressions whose printed form means the same. */
  predicate Plain(e: Expr) { hide *; PlainAt(e, 1, true) }

  // ---------- reading back what was printed ----------

  /** `rest` does not continue an expression at `level` or tighter. */
  predicate Ends(rest: seq<Token>, level: nat) {
    rest != [] ==>
      !rest[0].Dot? && !rest[0].LParen? && !rest[0].FatArrow? && !rest[0].LBrace?
      && (rest[0].OpT? ==> Prec(rest[0].op) < level)
  }

  predicate NotRecord(rest: seq<Token>) {
    rest != [] ==> !rest[0].FatArrow? && !rest[0].LBrace?
  }

  lemma {:induction false} LoopsEnd(level: nat, to: nat, e: Expr, ts: seq<Token>, rest: seq<Token>)
    requires hide *; 1 <= level <= to <= 6 && Ends(rest, level + 1)
    requires ParseBinary(to, ts) == Some(Parsed(e, rest))
    ensures level < to ==> ParseBinary(level, ts) == ParseLoop(level, e, rest)
    decreases 10 - level
  {
    if level + 1 < to { LoopsEnd(level + 1, to, e, ts, rest); }
  }

  /** What stands before a field or a call is read back whole. */
  lemma {:induction false} PrimaryBack(e: Expr, rest: seq<Token>)
    requires hide *; PlainAt(e, 7, false) && NotRecord(rest)
    ensures Print(e) != [] && !Print(e)[0].NotT? && !Print(e)[0].OpT?
    ensures var base := ParsePrimary(Print(e) + rest);
            base.Some? && ParsePostfix(base.value.value, base.value.rest) == ParsePostfix(e, rest)
    decreases e, 3
  {
    match e {
      case Field(base, field) =>
        hide ParsePrimary;
        var tail := [Dot, Name(field)] + rest;
        assert Print(e) + rest == Print(base) + tail;
        PrimaryBack(base, tail);
        FieldFollows(base, field, rest);
        hide ParsePostfix;
      case Call(callee, args) => CallBack(callee, args, rest);
      case Array(elems) => ArrayBack(elems, rest);
      case Record(tag, fields) => RecordBack(tag, fields, rest);
      case _ =>
        hide ParsePostfix, ParseBinary;
        LeafBack(e, rest);
    }
  }

  predicate Leaf(e: Expr) {
    !e.Field? && !e.Call? && !e.Array? && !e.Record? && !e.Unary? && !e.Binary? && !e.Lambda?
  }

  lemma LeafBack(e: Expr, rest: seq<Token>)
    requires hide *; Leaf(e) && PlainAt(e, 7, false) && NotRecord(rest)
    ensures Print(e) != [] && !Print(e)[0].NotT? && !Print(e)[0].OpT?
            && ParsePrimary(Print(e) + rest) == Some(Parsed(e, rest))
  {
    hide ParseBinary, ParseAll, ParseRecord;
    if e.ImplicitField? {
      assert (Print(e) + rest)[2..] == rest;
    } else if e.Str? {
      StrBack(e.parts, rest);
    } else {
      assert (Print(e) + rest)[1..] == rest;
    }
  }

  lemma {:induction false} CallBack(callee: Expr, args: seq<Expr>, rest: seq<Token>)
    requires hide *; PlainAt(callee, 7, false) && PlainAll(args, false) && NotRecord(rest)
    ensures var e := Expr.Call(callee, args);
            var base := ParsePrimary(Print(e) + rest);
            && Print(e) != [] && !Print(e)[0].NotT? && !Print(e)[0].OpT?
            && base.Some? && ParsePostfix(base.value.value, base.value.rest) == ParsePostfix(e, rest)
    decreases Expr.Call(callee, args), 2
  {
    var tail := [LParen] + PrintAll(args) + [RParen] + rest;
    hide ParsePrimary, ParseAll;
    PrimaryBack(callee, tail);
    AllBack(RParen, args, rest);
    hide PlainAt, PlainAll;
    CallFollows(callee, args, rest);
    hide ParsePostfix;
    CallPrints(callee, args, rest);
    hide Print, PrintAll;
  }

  lemma CallPrints(callee: Expr, args: seq<Expr>, rest: seq<Token>)
    ensures Print(Expr.Call(callee, args)) == Print(callee) + ([LParen] + PrintAll(args) + [RParen])
    ensures Print(Expr.Call(callee, args)) + rest == Print(callee) + ([LParen] + PrintAll(args) + [RParen] + rest)
  {
    hide PrintAll;
  }

  lemma {:induction false} ArrayBack(elems: seq<Expr>, rest: seq<Token>)
    requires PlainAll(elems, true)
    ensures ParsePrimary(Print(Expr.Array(elems)) + rest) == Some(Parsed(Expr.Array(elems), rest))
    decreases elems, 3
  {
    AllBack(RBracket, elems, rest);
    hide PrintAll, ParseAll, PlainAll;
    var e := Expr.Array(elems);
    assert Print(e) == [LBracket] + PrintAll(elems) + [RBracket];
    assert (Print(e) + rest)[1..] == PrintAll(elems) + [RBracket] + rest;
  }

  lemma {:induction false} RecordBack(tag: Option<string>, fields: seq<FieldInit>, rest: seq<Token>)
    requires PlainFields(fields)
    ensures ParsePrimary(Print(Expr.Record(tag, fields)) + rest) == Some(Parsed(Expr.Record(tag, fields), rest))
    decreases fields, 3
  {
    hide Prec, ParseFields, PrintAll, Shorter;
    FieldsBack(fields, rest);
    hide PlainFields;
    RecordOpens(tag, fields, PrintFields(fields) + [RBrace] + rest, rest);
    hide ParsePrimary, PrintFields;
    var e, open := Expr.Record(tag, fields), if tag.Some? then [Name(tag.value), LBrace] else [LBrace];
    assert Print(e) == open + PrintFields(fields) + [RBrace];
    assert Print(e) + rest == open + (PrintFields(fields) + [RBrace] + rest);
  }

  lemma RecordOpens(tag: Option<string>, fields: seq<FieldInit>, ts: seq<Token>, rest: seq<Token>)
    requires hide *; ParseFields(ts) == Some(Parsed(fields, rest))
    ensures ParsePrimary((if tag.Some? then [Name(tag.value), LBrace] else [LBrace]) + ts)
            == Some(Parsed(Expr.Record(tag, fields), rest))
  {
    hide Print, ParseFields, ParseBinary, ParseAll;
    if tag.Some? {
      assert ([Name(tag.value), LBrace] + ts)[2..] == ts;
    } else {
      assert ([LBrace] + ts)[1..] == ts;
    }
  }

  lemma StrBack(parts: seq<StrPart>, rest: seq<Token>)
    requires hide *; |parts| == 1 && parts[0].Lit?
    ensures Print(Str(parts)) == [Text(parts[0].text)] && ([Text(parts[0].text)] + rest)[1..] == rest
            && parts == [Lit(parts[0].text)]
  {
    assert Texts(parts[1..]) == "";
    assert parts[0].text + "" == parts[0].text;
    assert AllLiteral(parts);
  }

  lemma FieldFollows(base: Expr, field: string, rest: seq<Token>)
    ensures ParsePostfix(base, [Dot, Name(field)] + rest) == ParsePostfix(Expr.Field(base, field), rest)
  {
    hide Print;
    assert ([Dot, Name(field)] + rest)[2..] == rest;
  }

  lemma CallFollows(callee: Expr, args: seq<Expr>, rest: seq<Token>)
    requires ParseAll(RParen, PrintAll(args) + [RParen] + rest) == Some(Parsed(args, rest))
    ensures ParsePostfix(callee, [LParen] + PrintAll(args) + [RParen] + rest) == ParsePostfix(Expr.Call(callee, args),
            rest)
  {
    hide Print;
    assert ([LParen] + PrintAll(args) + [RParen] + rest)[1..] == PrintAll(args) + [RParen] + rest;
  }

  /** The first token of an expression closes nothing. */
  lemma {:induction false} PrintStarts(e: Expr)
    ensures hide *;
            Print(e) != [] && !Print(e)[0].RParen? && !Print(e)[0].RBracket? && (Print(e)[0].Ellipsis? ==> Spreading(e))
    decreases e
  {
    match e {
      case Field(base, _) => PrintStarts(base);
      case Call(callee, _) => PrintStarts(callee);
      case Binary(_, lhs, _) => PrintStarts(lhs);
      case Range(lo, _) => PrintStarts(lo);
      case _ =>
    }
  }

  /** An expression that begins with a spread. */
  predicate Spreading(e: Expr) {
    match e
    case Spread(_) => true
    case Field(base, _) => Spreading(base)
    case Call(callee, _) => Spreading(callee)
    case Binary(_, lhs, _) => Spreading(lhs)
    case Range(lo, _) => Spreading(lo)
    case _ => false
  }

  lemma {:induction false} PlainNotSpreading(e: Expr, level: nat, last: bool)
    requires PlainAt(e, level, last)
    ensures !Spreading(e)
    decreases e
  {
    hide Print;
    match e {
      case Field(base, _) => PlainNotSpreading(base, 7, false);
      case Call(callee, _) => PlainNotSpreading(callee, 7, false);
      case Binary(op, lhs, _) => if Wrapped(lhs,
          Prec(op)) { PlainNotSpreading(lhs, 1, true); } else { PlainNotSpreading(lhs, Prec(op), false); }
      case _ =>
    }
  }

  /** One element, with what follows it. */
  lemma {:induction false} ElemBack(close: Token, e: Expr, tail: seq<Token>)
    requires hide *; if close.RBracket? && e.Spread? then PlainAt(e.inner, 1, true) else PlainAt(e, 1, true)
    requires Ends(tail, 1)
    ensures ParseElem(close, Print(e) + tail) == Some(Parsed(e, tail))
    decreases e, 10
  {
    hide ParseBinary;
    if close.RBracket? && e.Spread? {
      assert (Print(e) + tail)[1..] == Print(e.inner) + tail;
      WholeBack(e.inner, tail);
    } else {
      PrintStarts(e);
      PlainNotSpreading(e, 1, true);
      WholeBack(e, tail);
    }
  }

  /** Reading on after the first element. */
  lemma AllStep(close: Token, e: Expr, tail: seq<Token>)
    requires hide *; (close.RParen? || close.RBracket?) && tail != []
             && ParseElem(close, Print(e) + tail) == Some(Parsed(e, tail))
    ensures tail[0] == close ==> ParseAll(close, Print(e) + tail) == Some(Parsed([e], tail[1..]))
    ensures tail[0].Comma? && ParseAll(close, tail[1..]).Some? ==>
              var more := ParseAll(close, tail[1..]).value;
              ParseAll(close, Print(e) + tail) == Some(Parsed([e] + more.value, more.rest))
  {
    PrintStarts(e);
    assert (Print(e) + tail)[0] == Print(e)[0];
    hide ParseElem, Print;
  }

  lemma {:induction false} AllBack(close: Token, es: seq<Expr>, rest: seq<Token>)
    requires (close.RParen? || close.RBracket?) && PlainAll(es, close.RBracket?)
    ensures ParseAll(close, PrintAll(es) + [close] + rest) == Some(Parsed(es, rest))
    decreases es, 2
  {
    hide ParseElem, Print, PlainAt;
    if es == [] {
      assert (PrintAll(es) + [close] + rest)[1..] == rest;
    } else {
      hide ParseAll;
      var ts := PrintAll(es) + [close] + rest;
      if |es| == 1 {
        var tail := [close] + rest;
        assert ts == Print(es[0]) + tail;
        ElemBack(close, es[0], tail);
        AllStep(close, es[0], tail);
        assert tail[1..] == rest && es == [es[0]];
      } else {
        var tail := [Comma] + (PrintAll(es[1..]) + [close] + rest);
        assert ts == Print(es[0]) + tail;
        ElemBack(close, es[0], tail);
        AllBack(close, es[1..], rest);
        assert tail[1..] == PrintAll(es[1..]) + [close] + rest;
        AllStep(close, es[0], tail);
        assert es == [es[0]] + es[1..];
      }
    }
  }

  lemma NoFieldsBack(rest: seq<Token>)
    ensures ParseFields(PrintFields([]) + [RBrace] + rest) == Some(Parsed([], rest))
  {
    hide Print;
    assert (PrintFields([]) + [RBrace] + rest)[1..] == rest;
  }

  /** Nothing goes on after a field. */
  lemma FieldEnds(rest: seq<Token>)
    ensures Ends([RBrace] + rest, 1) && Ends([Comma] + rest, 1)
  {
  }

  /** A field that is read back, and then the end of the record or the next field. */
  lemma FieldBack(x: FieldInit, tail: seq<Token>)
    requires hide *; tail != [] && ParseBinary(1, Print(x.value) + tail) == Some(Parsed(x.value, tail))
    ensures var r := ParseFields([Name(x.key), Colon] + Print(x.value) + tail);
            && (tail[0].RBrace? ==> r == Some(Parsed([x], tail[1..])))
            && (tail[0].Comma? ==>
                  var more := ParseFields(tail[1..]);
                  r == if more.None? then None else Some(Parsed([x] + more.value.value, more.value.rest)))
  {
    hide ParseBinary, Print;
    assert ([Name(x.key), Colon] + Print(x.value) + tail)[2..] == Print(x.value) + tail;
  }

  lemma MoreFields(fs: seq<FieldInit>, rest: seq<Token>)
    requires hide *; |fs| > 1
    ensures PrintFields(fs) + [RBrace] + rest
         == [Name(fs[0].key), Colon] + Print(fs[0].value) + ([Comma] + (PrintFields(fs[1..]) + [RBrace] + rest))
  {
    hide Print;
    var one, more := [Name(fs[0].key), Colon] + Print(fs[0].value), PrintFields(fs[1..]);
    assert PrintFields(fs) == one + [Comma] + more;
    hide PrintFields;
    Regroup(one, [Comma], more, [RBrace], rest);
  }

  lemma Regroup<T>(a: seq<T>, b: seq<T>, c: seq<T>, d: seq<T>, e: seq<T>)
    ensures (a + b + c) + d + e == a + (b + (c + d + e))
  {
  }

  lemma {:induction false} FieldsBack(fs: seq<FieldInit>, rest: seq<Token>)
    requires PlainFields(fs)
    ensures ParseFields(PrintFields(fs) + [RBrace] + rest) == Some(Parsed(fs, rest))
    decreases fs, 2
  {
    hide ParseFields, ParseBinary, Print, PlainAt, Ends;
    if fs == [] {
      NoFieldsBack(rest);
    } else if |fs| == 1 {
      FieldEnds(rest);
      WholeBack(fs[0].value, [RBrace] + rest);
      FieldBack(fs[0], [RBrace] + rest);
      assert PrintFields(fs) + [RBrace] + rest == [Name(fs[0].key), Colon] + Print(fs[0].value) + ([RBrace] + rest);
      assert ([RBrace] + rest)[1..] == rest && fs == [fs[0]];
    } else {
      var more := PrintFields(fs[1..]) + [RBrace] + rest;
      FieldEnds(more);
      WholeBack(fs[0].value, [Comma] + more);
      FieldBack(fs[0], [Comma] + more);
      FieldsBack(fs[1..], rest);
      MoreFields(fs, rest);
      hide PrintFields;
      assert ([Comma] + more)[1..] == more && fs == [fs[0]] + fs[1..];
    }
  }

  /** An operator before an operand that is read back. */
  lemma SignBack(e: Expr, rest: seq<Token>)
    requires hide *; e.Unary? && ParseUnary(Print(e.rhs) + rest) == Some(Parsed(e.rhs, rest))
    ensures ParseUnary(Print(e) + rest) == Some(Parsed(e, rest))
  {
    hide ParsePrimary, ParsePostfix;
    var ts := Print(e) + rest;
    assert ts[0] == (if e.uop.Not? then NotT else OpT(Sub)) && ts[1..] == Print(e.rhs) + rest;
    hide Print;
  }

  /** A lambda whose body is read back. */
  lemma ArrowBack(e: Expr, rest: seq<Token>)
    requires hide *; e.Lambda? && ParseBinary(1, Print(e.body) + rest) == Some(Parsed(e.body, rest)) && Ends(rest, 7)
    ensures ParseUnary(Print(e) + rest) == Some(Parsed(e, rest))
  {
    hide ParseBinary;
    assert (Print(e) + rest)[2..] == Print(e.body) + rest;
  }

  lemma {:induction false} UnaryBack(e: Expr, last: bool, rest: seq<Token>)
    requires hide *; PlainAt(e, 6, last) && Ends(rest, 7) && (last ==> Ends(rest, 1))
    ensures ParseUnary(Print(e) + rest) == Some(Parsed(e, rest))
    decreases e, 4
  {
    if e.Unary? {
      UnaryBack(e.rhs, last, rest);
      SignBack(e, rest);
    } else if e.Lambda? {
      WholeBack(e.body, rest);
      ArrowBack(e, rest);
    } else {
      PlainTight(e, last);
      PrimaryBack(e, rest);
      hide Print, PlainAt, ParsePrimary, ParsePostfix;
    }
    hide ParseBinary;
  }

  lemma PlainTight(e: Expr, last: bool)
    requires hide *; PlainAt(e, 6, last) && !e.Unary? && !e.Lambda?
    ensures PlainAt(e, 7, false)
  {
    match e { case _ => }
  }

  lemma PlainLoose(e: Expr, level: nat, last: bool)
    requires hide *; 1 <= level <= 5 && PlainAt(e, level, last)
    ensures e.Binary? ==> level <= Prec(e.op) && forall to: nat | to <= Prec(e.op) :: PlainAt(e, to, last)
    ensures !e.Binary? ==> PlainAt(e, 6, last)
  {
    match e { case _ => }
  }

  lemma PlainParts(e: Expr, level: nat, last: bool)
    requires hide *; PlainAt(e, level, last) && e.Binary?
    ensures PlainOperand(e.lhs, Prec(e.op), Prec(e.op), false) && PlainOperand(e.rhs, Prec(e.op), Prec(e.op) + 1, last)
  {
  }

  /** Reading at a level not above the expression's own gives it back as a left operand. */
  lemma {:induction false} LevelBack(level: nat, e: Expr, last: bool, rest: seq<Token>)
    requires hide *; 1 <= level <= 5 && PlainAt(e, level, last) && Ends(rest, level + 1) && (last ==> Ends(rest, 1))
    ensures ParseBinary(level, Print(e) + rest) == ParseLoop(level, e, rest)
    decreases e, 6, 6 - level
  {
    PlainLoose(e, level, last);
    if !e.Binary? {
      UnaryBack(e, last, rest);
      LoopsEnd(level, 6, e, Print(e) + rest, rest);
    } else if level < Prec(e.op) {
      LevelBack(level + 1, e, last, rest);
      hide PlainAt, Print;
      assert ParseLoop(level + 1, e, rest) == Some(Parsed(e, rest));
    } else {
      BinaryBack(e, last, rest);
    }
  }

  lemma LoopTakes(level: nat, lhs: Expr, op: BinOp, rhs: Expr, ts: seq<Token>, rest: seq<Token>)
    requires 1 <= level <= 5 && Prec(op) == level && ParseBinary(level + 1, ts) == Some(Parsed(rhs, rest))
    ensures ParseLoop(level, lhs, [OpT(op)] + ts) == ParseLoop(level, Binary(op, lhs, rhs), rest)
  {
    hide ParseBinary;
    assert ([OpT(op)] + ts)[1..] == ts;
  }

  lemma {:induction false} BinaryBack(e: Expr, last: bool, rest: seq<Token>)
    requires e.Binary? && PlainAt(e, Prec(e.op), last) && Ends(rest, Prec(e.op) + 1) && (last ==> Ends(rest, 1))
    ensures ParseBinary(Prec(e.op), Print(e) + rest) == ParseLoop(Prec(e.op), e, rest)
    decreases e, 6, 0
  {
    hide ParseBinary, ParseLoop;
    var level := Prec(e.op);
    PlainParts(e, level, last);
    hide PlainAt;
    var right := Operand(e.rhs, level) + rest;
    assert Print(e) + rest == Operand(e.lhs, level) + ([OpT(e.op)] + right);
    hide Print, Operand;
    RightBack(level, e.rhs, last, rest);
    LoopTakes(level, e.lhs, e.op, e.rhs, right, rest);
    OperandBack(level, level, e.lhs, false, [OpT(e.op)] + right);
  }

  predicate PlainOperand(e: Expr, parent: nat, level: nat, last: bool) {
    hide *;
    if Wrapped(e, parent) then PlainAt(e, 1, true) else PlainAt(e, level, last)
  }

  /** A right operand. */
  lemma {:induction false} RightBack(parent: nat, e: Expr, last: bool, rest: seq<Token>)
    requires hide *; 1 <= parent <= 5 && PlainOperand(e, parent, parent + 1, last) && Ends(rest, parent + 1)
             && (last ==> Ends(rest, 1))
    ensures ParseBinary(parent + 1, Operand(e, parent) + rest) == Some(Parsed(e, rest))
    decreases e, 8
  {
    hide Print;
    if parent < 5 {
      OperandBack(parent, parent + 1, e, last, rest);
    } else if Wrapped(e, parent) {
      ParenBack(e, rest);
    } else {
      UnaryBack(e, last, rest);
    }
  }

  /** An operand, with parentheses or without. */
  lemma {:induction false} OperandBack(parent: nat, level: nat, e: Expr, last: bool, rest: seq<Token>)
    requires hide *; 1 <= parent <= level <= 5 && PlainOperand(e, parent, level, last) && Ends(rest, level + 1)
             && (last ==> Ends(rest, 1))
    ensures ParseBinary(level, Operand(e, parent) + rest) == ParseLoop(level, e, rest)
    decreases e, 7
  {
    hide Print;
    if Wrapped(e, parent) {
      ParenBack(e, rest);
      LoopsEnd(level, 6, e, Operand(e, parent) + rest, rest);
    } else {
      LevelBack(level, e, last, rest);
    }
  }

  lemma {:induction false} ParenBack(e: Expr, rest: seq<Token>)
    requires hide *; PlainAt(e, 1, true) && Ends(rest, 7)
    ensures ParseUnary([LParen] + Print(e) + [RParen] + rest) == Some(Parsed(e, rest))
    decreases e, 6, 7
  {
    hide Print, Prec;
    var ts := [LParen] + Print(e) + [RParen] + rest;
    var tail := [RParen] + rest;
    assert ts[1..] == Print(e) + tail;
    LevelBack(1, e, true, tail);
    assert tail[1..] == rest;
  }

  lemma {:induction false} WholeBack(e: Expr, rest: seq<Token>)
    requires hide *; PlainAt(e, 1, true) && Ends(rest, 1)
    ensures ParseBinary(1, Print(e) + rest) == Some(Parsed(e, rest))
    decreases e, 9
  {
    hide Print;
    LevelBack(1, e, true, rest);
  }

  /** Parsing what was printed consumes all of it and returns the same expression. */
  lemma PrintThenParse(e: Expr)
    requires Plain(e)
    ensures ParseExpr(Print(e)) == Some(Parsed(e, []))
  {
    hide Print;
    assert Print(e) + [] == Print(e);
    WholeBack(e, []);
  }

  /** Plain expressions are told apart by their printed form. */
  lemma PrintInjective(e: Expr, f: Expr)
    requires Plain(e) && Plain(f) && Print(e) == Print(f)
    ensures e == f
  {
    hide *;
    PrintThenParse(e);
    PrintThenParse(f);
  }
}
