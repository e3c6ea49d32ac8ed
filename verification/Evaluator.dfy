/** Synchronous expression evaluation, pattern matching and response pipelines.
    A run-time error is `None`; its wording is not modelled. */
module Evaluator {
  import opened Wrappers
  import opened Ast
  import opened Values

  /** A lexical environment, and the process environment that `$NAME` falls back to. */
  datatype Env = Env(vars: map<string, Value>, os: map<string, string>)

  function Lookup(env: Env, name: string): Option<Value> {
    if name in env.vars then Some(env.vars[name]) else None
  }

  function Insert(env: Env, name: string, v: Value): Env {
    env.(vars := env.vars[name := v])
  }

  function InsertAll(env: Env, binds: map<string, Value>): Env {
    env.(vars := env.vars + binds)
  }

  /** What an evaluation prints, and its result unless it stopped with an error. */
  datatype Eff<T> = Eff(out: seq<string>, val: Option<T>)

  function Done<T>(v: T): Eff<T> { Eff([], Some(v)) }

  function Failed<T>(): Eff<T> { Eff([], None) }

  function After<T>(out: seq<string>, e: Eff<T>): Eff<T> { Eff(out + e.out, e.val) }

  function Eval(e: Expr, env: Env, elem: Option<Value>): Eff<Value>
    decreases e, 1, 0
  {
    hide *;
    match e
    case Int(n) => Done(Value.Int(n))
    case Bool(b) => Done(Value.Bool(b))
    case Null => Done(Value.Null)
    case Duration(ms) => Done(Value.Duration(ms))
    case Str(parts) =>
      var t := EvalParts(parts, env, elem);
      if t.val.None? then Eff(t.out, None) else Eff(t.out, Some(Value.Str(t.val.value)))
    case Ident(name) =>
      if Lookup(env, name).Some? then Done(Lookup(env, name).value)
      else if name == "None" then Done(Value.Null)
      else Failed()
    case EnvVar(name) =>
      if Lookup(env, name).Some? then Done(Lookup(env, name).value)
      else Done(if name in env.os then Value.Str(env.os[name]) else Value.Null)
    case ImplicitField(field) =>
      Done(if elem.Some? then elem.value.GetField(field) else Value.Null)
    case Field(base, field) =>
      var b := Eval(base, env, elem);
      if b.val.None? then b else Eff(b.out, Some(b.val.value.GetField(field)))
    case Call(callee, args) => EvalCall(callee, args, e, env, elem)
    case Unary(uop, rhs) =>
      var v := Eval(rhs, env, elem);
      if v.val.None? then v else Eff(v.out, ApplyUnary(uop, v.val.value))
    case Binary(op, lhs, rhs) =>
      var l := Eval(lhs, env, elem);
      if l.val.None? then l
      else if op.And? && !l.val.value.Truthy() then Eff(l.out, Some(Value.Bool(false)))
      else if op.Or? && l.val.value.Truthy() then Eff(l.out, Some(Value.Bool(true)))
      else
        var r := After(l.out, Eval(rhs, env, elem));
        if r.val.None? then r else Eff(r.out, ApplyBinary(op, l.val.value, r.val.value))
    case Record(_, fields) =>
      var fs := EvalFields(fields, env, elem, []);
      if fs.val.None? then Eff(fs.out, None) else Eff(fs.out, Some(Object(fs.val.value)))
    case Array(elems) =>
      var xs := EvalElems(elems, env, elem);
      if xs.val.None? then Eff(xs.out, None) else Eff(xs.out, Some(Value.Array(xs.val.value)))
    case Spread(inner) => Eval(inner, env, elem)
    case Lambda(_, _) => Failed()
    case Match(scrutinee, arms) =>
      var s := Eval(scrutinee, env, elem);
      if s.val.None? then s else After(s.out, EvalArms(arms, s.val.value, env, elem))
    case Range(_, _) => Failed()
  }

  function EvalParts(parts: seq<StrPart>, env: Env, elem: Option<Value>): Eff<string>
    decreases parts, 1, 0
  {
    hide *;
    if parts == [] then Done("")
    else
      var head := match parts[0]
        case Lit(text) => Done(text)
        case Interp(e) =>
          assert e < parts[0];
          var v := Eval(e, env, elem);
          if v.val.None? then Eff(v.out, None) else Eff(v.out, Some(v.val.value.Display()));
      if head.val.None? then head
      else
        var rest := After(head.out, EvalParts(parts[1..], env, elem));
        if rest.val.None? then rest else Eff(rest.out, Some(head.val.value + rest.val.value))
  }

  function EvalFields(fields: seq<FieldInit>, env: Env, elem: Option<Value>, acc: seq<Entry>): Eff<seq<Entry>>
    decreases fields, 1, 0
  {
    hide *;
    if fields == [] then Done(acc)
    else
      var v := Eval(fields[0].value, env, elem);
      if v.val.None? then Eff(v.out, None)
      else After(v.out, EvalFields(fields[1..], env, elem, InsertEntry(acc, Entry(fields[0].key, v.val.value))))
  }

  function EvalElems(elems: seq<Expr>, env: Env, elem: Option<Value>): Eff<seq<Value>>
    decreases elems, 1, 0
  {
    hide *;
    if elems == [] then Done([])
    else
      var v := Eval(elems[0], env, elem);
      if v.val.None? then Eff(v.out, None)
      else
        var head := if elems[0].Spread? && v.val.value.Array? then v.val.value.items else [v.val.value];
        var rest := After(v.out, EvalElems(elems[1..], env, elem));
        if rest.val.None? then rest else Eff(rest.out, Some(head + rest.val.value))
  }

  /** The argument list's first expression, or null when there is none. */
  function EvalFirst(args: seq<Expr>, env: Env, elem: Option<Value>): Eff<Value>
    decreases args, 2, 0
  {
    hide *;
    if args == [] then Done(Value.Null) else Eval(args[0], env, elem)
  }

  function EvalCall(callee: Expr, args: seq<Expr>, ghost whole: Expr, env: Env, elem: Option<Value>): Eff<Value>
    requires whole == Call(callee, args)
    decreases whole, 0, 0
  {
    hide *;
    if callee.Ident? then
      if callee.name == ERR then
        var r := BuildErr(args, env, elem);
        if r.val.None? then Eff(r.out, None) else Eff(r.out, Some(Err(r.val.value)))
      else if callee.name in ON_FIRST then
        var v := EvalFirst(args, env, elem);
        if v.val.None? then v else Eff(v.out, Some(OfFirst(callee.name, v.val.value)))
      else Done(Fixed(callee.name))
    else if callee.Field? then
      if callee.field == FAKE then
        var n := EvalFirst(args, env, elem);
        if n.val.None? then n else Eff(n.out, Some(Value.Array(FakeRecords(FakeCount(n.val.value)))))
      else
        var recv := Eval(callee.base, env, elem);
        if recv.val.None? then recv
        else if callee.field in QUANTIFIERS then
          var r := After(recv.out, ApplyEach(args, env, recv.val.value.Items()));
          if r.val.None? then Eff(r.out, None)
          else Eff(r.out, Some(Value.Bool(Quantify(callee.field, r.val.value))))
        else Eff(recv.out, Some(Select(callee.field, recv.val.value)))
    else Done(Value.Null)
  }

  const ERR := "Err"
  const UNNAMED := "Error"
  const FAKE := "fake"
  const ON_FIRST := {"Ok", "Some", "length"}
  const QUANTIFIERS := {"all", "any", "none"}

  /** The built-in functions of one argument. */
  function OfFirst(name: string, v: Value): Value {
    if name == "Ok" then Ok(v) else if name == "Some" then v else v.GetField("length")
  }

  /** The built-in functions without arguments; any other name gives null. */
  function Fixed(name: string): Value {
    if name == "uuid" then Value.Str("00000000-0000-4000-8000-000000000000")
    else if name == "now" then Value.Str("1970-01-01T00:00:00Z")
    else Value.Null
  }

  function FakeCount(v: Value): nat {
    if v.Int? then (if v.n < 0 then 0 else v.n) else 1
  }

  function BuildErr(args: seq<Expr>, env: Env, elem: Option<Value>): Eff<ErrValue>
    decreases args, 2, 0
  {
    hide *;
    if args == [] then Done(ErrValue(UNNAMED, None, UNNAMED, None))
    else if args[0].Ident? then Done(ErrValue(args[0].name, None, args[0].name, None))
    else if args[0].Call? then
      var variant := if args[0].callee.Ident? then args[0].callee.name else UNNAMED;
      var payload := EvalFirst(args[0].args, env, elem);
      if payload.val.None? then Eff(payload.out, None)
      else Eff(payload.out, Some(ErrValue(variant, None, variant, Some(payload.val.value))))
    else
      var v := Eval(args[0], env, elem);
      if v.val.None? then Eff(v.out, None)
      else Eff(v.out, Some(ErrValue(UNNAMED, None, v.val.value.Display(), None)))
  }

  /** Apply a lambda, or an expression over the implicit element, to one item. */
  function ApplyLambda(lambda: Expr, env: Env, item: Value): Eff<Value>
    decreases lambda, 2, 0
  {
    hide *;
    if lambda.Lambda? then Eval(lambda.body, Insert(env, lambda.param, item), Some(item))
    else Eval(lambda, env, Some(item))
  }

  function ApplyEach(lambda: seq<Expr>, env: Env, items: seq<Value>): Eff<seq<Value>>
    decreases lambda, 2, |items|
  {
    hide *;
    if items == [] then Done([])
    else
      var v := if lambda == [] then Done(items[0]) else ApplyLambda(lambda[0], env, items[0]);
      if v.val.None? then Eff(v.out, None)
      else
        var rest := After(v.out, ApplyEach(lambda, env, items[1..]));
        if rest.val.None? then rest else Eff(rest.out, Some([v.val.value] + rest.val.value))
  }

  function EvalArms(arms: seq<Arm>, scrut: Value, env: Env, elem: Option<Value>): Eff<Value>
    decreases arms, 1, 0
  {
    hide *;
    if arms == [] then Failed()
    else
      var binds := MatchPattern(arms[0].pattern, scrut);
      if binds.None? then EvalArms(arms[1..], scrut, env, elem)
      else
        var child := InsertAll(env, binds.value);
        match arms[0].body
        case Value(e) => assert arms[0].body < arms[0]; Eval(e, child, elem)
        case Block(stmts) => assert arms[0].body < arms[0]; RunBlock(stmts, child, Value.Null)
        case Retry(_) => Failed()
  }

  function RunBlock(stmts: seq<Stmt>, env: Env, last: Value): Eff<Value>
    decreases stmts, 1, 0
  {
    hide *;
    if stmts == [] then Done(last)
    else match stmts[0]
      case LetS(name, value) =>
        var v := Eval(value, env, None);
        if v.val.None? then v else After(v.out, RunBlock(stmts[1..], Insert(env, name, v.val.value), last))
      case LogS(value) =>
        assert value < stmts[0];
        var v := Eval(value, env, None);
        if v.val.None? then v
        else After(v.out + [v.val.value.Display()], RunBlock(stmts[1..], env, last))
      case ReturnS(result) => if result.None? then Done(Value.Null) else assert result < stmts[0]; Eval(result.value,
          env, None)
      case ExprS(expr, _) =>
        assert expr < stmts[0];
        var v := Eval(expr, env, None);
        if v.val.None? then v else After(v.out, RunBlock(stmts[1..], env, v.val.value))
      case AssertS(value) =>
        assert value < stmts[0];
        var v := Eval(value, env, None);
        if v.val.None? then v
        else if !v.val.value.Truthy() then Eff(v.out, None)
        else After(v.out, RunBlock(stmts[1..], env, last))
      case FetchS(_) => Failed()
      case ParallelS(_) => Failed()
      case ForEachS(_, _, _) => Failed()
      case UsingMockS(_) => RunBlock(stmts[1..], env, last)
  }

  function ApplyUnary(op: UnOp, v: Value): Option<Value> {
    match op
    case Not => Some(Value.Bool(!v.Truthy()))
    case Neg => if v.Int? then Some(Value.Int(Wrap64(-v.n))) else None
  }

  function ApplyBinary(op: BinOp, l: Value, r: Value): Option<Value> {
    hide *;
    if op.And? then Some(Value.Bool(l.Truthy() && r.Truthy()))
    else if op.Or? then Some(Value.Bool(l.Truthy() || r.Truthy()))
    else if op.Eq? then Some(Value.Bool(l == r))
    else if op.Ne? then Some(Value.Bool(l != r))
    else if op.Add? && (l.Str? || r.Str?) then
      Some(Value.Str(l.Display() + r.Display()))
    else if op.Add? || op.Sub? || op.Mul? then
      if l.Int? && r.Int? then Some(Value.Int(Wrap64(Arith(op, l.n, r.n)))) else None
    else Compare(op, l, r)
  }

  function Arith(op: BinOp, l: int, r: int): int {
    if op.Add? then l + r else if op.Sub? then l - r else l * r
  }

  /** Numbers and durations by size, texts in character order. */
  function Compare(op: BinOp, l: Value, r: Value): Option<Value> {
    if AsNumber(l).Some? && AsNumber(r).Some? then
      Some(Value.Bool(Ordered(op, AsNumber(l).value < AsNumber(r).value, AsNumber(l).value == AsNumber(r).value)))
    else if l.Str? && r.Str? then Some(Value.Bool(Ordered(op, StringLess(l.s, r.s), l.s == r.s)))
    else None
  }

  predicate Ordered(op: BinOp, less: bool, same: bool) {
    match op
    case Lt => less
    case Le => less || same
    case Gt => !less && !same
    case _ => !less
  }

  function Quantify(how: string, results: seq<Value>): bool {
    if how == "all" then forall v | v in results :: v.Truthy()
    else if how == "any" then exists v :: v in results && v.Truthy()
    else !exists v :: v in results && v.Truthy()
  }

  function Select(name: string, recv: Value): Value {
    var items := recv.Items();
    if name == "length" then recv.GetField("length")
    else if name == "first" then (if items == [] then Value.Null else items[0])
    else if name == "last" then (if items == [] then Value.Null else items[|items| - 1])
    else Value.Null
  }

  function FakeRecords(n: nat): seq<Value> {
    if n == 0 then []
    else FakeRecords(n - 1) + [Object([Entry("id", Value.Int(n)), Entry("name", Value.Str("item-" + NatText(n)))])]
  }

  /** The bindings of a successful match. */
  function MatchPattern(pat: Pattern, value: Value): Option<map<string, Value>> {
    match pat
    case Wildcard => Some(map[])
    case Binding(name) => Some(map[name := value])
    case Ctor(name, args) =>
      if name == "Ok" then
        (if value.Ok? && args != [] then MatchPattern(args[0], value.inner) else None)
      else if name == "Err" then
        (if value.Err? then MatchErr(args, value) else None)
      else if name == "Some" then
        (if !value.Null? && args != [] then MatchPattern(args[0], value) else None)
      else if name == "None" then
        (if value.Null? then Some(map[]) else None)
      else None
  }

  function MatchErr(args: seq<Pattern>, value: Value): Option<map<string, Value>>
    requires value.Err?
  {
    if args == [] then Some(map[])
    else match args[0]
      case Wildcard => Some(map[])
      case Binding(name) => Some(map[name := value])
      case Ctor(variant, inner) =>
        if variant != value.err.variant then None
        else if inner == [] then Some(map[])
        else MatchPattern(inner[0], Payload(value.err))
  }

  function Payload(e: ErrValue): Value {
    if e.payload.Some? then e.payload.value
    else if e.status.Some? then Value.Int(e.status.value)
    else Value.Null
  }

  // ---------- response pipelines ----------

  function ApplyPipeline(value: Value, ops: seq<PipelineOp>, env: Env): Eff<Value>
    decreases |ops|
  {
    hide *;
    if ops == [] then Done(value)
    else
      var v := ApplyOp(value, ops[0], env);
      if v.val.None? then v else After(v.out, ApplyPipeline(v.val.value, ops[1..], env))
  }

  function ApplyOp(value: Value, op: PipelineOp, env: Env): Eff<Value> {
    hide *;
    var items := value.Items();
    match op
    case Filter(lambda) =>
      var keep := ApplyEach([lambda], env, items);
      if keep.val.None? then Eff(keep.out, None)
      else Eff(keep.out, Some(Value.Array(Keep(items, keep.val.value))))
    case MapOp(lambda) =>
      var r := ApplyEach([lambda], env, items);
      if r.val.None? then Eff(r.out, None) else Eff(r.out, Some(Value.Array(r.val.value)))
    case Limit(count) =>
      var n := Eval(count, env, None);
      if n.val.None? then n
      else if !n.val.value.Int? then Eff(n.out, None)
      else Eff(n.out, Some(Value.Array(Take(items, n.val.value.n))))
    case Skip(count) =>
      var n := Eval(count, env, None);
      if n.val.None? then n
      else if !n.val.value.Int? then Eff(n.out, None)
      else Eff(n.out, Some(Value.Array(items[|Take(items, n.val.value.n)|..])))
    case Reverse => Done(Value.Array(Reversed(items)))
    case Unique(key) =>
      var ks := KeysOf(key, env, items);
      if ks.val.None? then Eff(ks.out, None)
      else Eff(ks.out, Some(Value.Array(FirstOfEach(items, ks.val.value, []))))
    case Flatten => Done(Value.Array(Flattened(items)))
    case Count => Done(Value.Int(|items|))
    case Sum(key) =>
      var ks := KeysOf(key, env, items);
      if ks.val.None? || exists k :: k in ks.val.value && !k.Int? then Eff(ks.out, None)
      else Eff(ks.out, Some(Value.Int(SumInts(ks.val.value))))
  }

  function KeysOf(key: Option<Expr>, env: Env, items: seq<Value>): Eff<seq<Value>> {
    hide *;
    if key.None? then Done(items)
    else if items == [] then Done([])
    else
      var v := Eval(key.value, env, Some(items[0]));
      if v.val.None? then Eff(v.out, None)
      else
        var rest := After(v.out, KeysOf(key, env, items[1..]));
        if rest.val.None? then rest else Eff(rest.out, Some([v.val.value] + rest.val.value))
  }

  function Keep(items: seq<Value>, flags: seq<Value>): seq<Value> {
    if items == [] || flags == [] then []
    else (if flags[0].Truthy() then [items[0]] else []) + Keep(items[1..], flags[1..])
  }

  function Take(items: seq<Value>, n: int): (r: seq<Value>)
    ensures |r| <= |items|
  {
    if n <= 0 then [] else if n < |items| then items[..n] else items
  }

  function Reversed(items: seq<Value>): seq<Value> {
    if items == [] then [] else Reversed(items[1..]) + [items[0]]
  }

  function FirstOfEach(items: seq<Value>, keys: seq<Value>, seen: seq<Value>): seq<Value> {
    if items == [] || keys == [] then []
    else if keys[0] in seen then FirstOfEach(items[1..], keys[1..], seen)
    else [items[0]] + FirstOfEach(items[1..], keys[1..], seen + [keys[0]])
  }

  function Flattened(items: seq<Value>): seq<Value> {
    if items == [] then []
    else (if items[0].Array? then items[0].items else [items[0]]) + Flattened(items[1..])
  }

  function SumInts(items: seq<Value>): int {
    if items == [] then 0
    else (if items[0].Int? then items[0].n else 0) + SumInts(items[1..])
  }
}
