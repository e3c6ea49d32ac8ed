/** The executor.  `Waves` mode walks the computed schedule as the run-time system does;
    `InOrder` mode runs the statements one by one in the order they were written and is the
    reference the optimizer is held against.  A run is given by what it appended to the event
    trace, the environment it left and how it ended. */
module Exec {
  import opened Wrappers
  import opened Ast
  import opened Values
  import opened Evaluator
  import opened Ir

  const MAX_RETRIES: nat := 5

  datatype Outcome = Success(v: Value) | Failure(e: ErrValue)

  /** Query parameters are compared up to their order, as in the canonical request key. */
  datatype Request = Request(
    httpMethod: string, endpoint: string, path: string, query: multiset<(string, string)>,
    body: Option<Value>, idempotency: Option<string>)

  /** A request on the wire, with the latency its endpoint declares. */
  datatype Sent = Sent(req: Request, latency: Option<nat>)

  /** A printed line, or the requests of one round, in the order in which they arrived. */
  datatype Event = Print(text: string) | Round(sent: seq<Sent>)

  /** The network and everything else outside the program.  The answer to a GET is a function of
      the request; the answer to any other request also depends on those sent before it.
      `arrival` is the order in which the requests of a wave reach the network. */
  datatype World = World(
    get: Request -> Outcome,
    mutate: (seq<Request>, Request) -> Outcome,
    violation: (Value, TypeExpr) -> Option<ErrValue>,
    arrival: (seq<NodeId>, Env) -> seq<NodeId>)

  datatype Prog = Prog(flows: seq<Flow>, world: World)

  datatype Mode = InOrder | Waves

  /** `Fail(true)` is an error raised by a node that is not an effect. */
  datatype Ctl = Next(last: Option<Value>) | Return(v: Value) | Fail(silent: bool)

  datatype Run = Run(env: Env, evs: seq<Event>, ctl: Ctl)

  // ---------- traces ----------

  function Prints(lines: seq<string>): seq<Event> {
    seq(|lines|, i requires 0 <= i < |lines| => Print(lines[i]))
  }

  /** The requests of a trace that are not GETs, in order. */
  function Mutations(evs: seq<Event>): seq<Request> {
    if evs == [] then []
    else
      var rest := Mutations(evs[..|evs| - 1]);
      match evs[|evs| - 1]
      case Print(_) => rest
      case Round(sent) => rest + MutationsOf(sent)
  }

  function MutationsOf(sent: seq<Sent>): seq<Request> {
    if sent == [] then []
    else
      MutationsOf(sent[..|sent| - 1])
      + (if sent[|sent| - 1].req.httpMethod != "GET" then [sent[|sent| - 1].req] else [])
  }

  // ---------- one fetch ----------

  /** What a fetch prints before and after its request, the request, and the bound value. */
  datatype Fetched = Fetched(before: seq<string>, sent: Option<Sent>, after: seq<string>, val: Option<Value>)

  function EvalPath(path: seq<PathSeg>, env: Env): Eff<string> {
    hide *;
    if path == [] then Done("")
    else
      var head := match path[0]
        case Literal(text) => Done(text)
        case Param(e) =>
          var v := Eval(e, env, None);
          if v.val.None? then Eff(v.out, None) else Eff(v.out, Some(v.val.value.Display()));
      if head.val.None? then head
      else
        var rest := After(head.out, EvalPath(path[1..], env));
        if rest.val.None? then rest else Eff(rest.out, Some("/" + head.val.value + rest.val.value))
  }

  function EvalParams(params: seq<FieldInit>, env: Env): Eff<multiset<(string, string)>> {
    hide *;
    if params == [] then Done(multiset{})
    else
      var v := Eval(params[0].value, env, None);
      if v.val.None? then Eff(v.out, None)
      else
        var rest := After(v.out, EvalParams(params[1..], env));
        if rest.val.None? then rest
        else Eff(rest.out, Some(multiset{(params[0].key, v.val.value.Display())} + rest.val.value))
  }

  function EvalTexts(es: seq<Expr>, env: Env): Eff<seq<string>> {
    hide *;
    if es == [] then Done([])
    else
      var v := Eval(es[0], env, None);
      if v.val.None? then Eff(v.out, None)
      else
        var rest := After(v.out, EvalTexts(es[1..], env));
        if rest.val.None? then rest else Eff(rest.out, Some([v.val.value.Display()] + rest.val.value))
  }

  /** The key of every element: the loop variable is bound and the element is implicit. */
  function EvalKeys(m: MappedIds, items: seq<Value>, env: Env): Eff<seq<string>> {
    hide *;
    if items == [] then Done([])
    else
      var v := Eval(m.key, Insert(env, m.loopVar, items[0]), Some(items[0]));
      if v.val.None? then Eff(v.out, None)
      else
        var rest := After(v.out, EvalKeys(m, items[1..], env));
        if rest.val.None? then rest else Eff(rest.out, Some([v.val.value.Display()] + rest.val.value))
  }

  /** The identifiers a batch asks for; none when it maps over an empty collection. */
  function EvalIds(batch: Option<BatchSpec>, env: Env): Eff<Option<seq<string>>> {
    hide *;
    if batch.None? then Done(Some([]))
    else if batch.value.mapped.Some? then
      var m := batch.value.mapped.value;
      var c := Eval(m.coll, env, None);
      if c.val.None? then Eff(c.out, None)
      else if c.val.value.Items() == [] then Eff(c.out, Some(None))
      else
        var ks := After(c.out, EvalKeys(m, c.val.value.Items(), env));
        if ks.val.None? then Eff(ks.out, None) else Eff(ks.out, Some(Some(ks.val.value)))
    else
      var ts := EvalTexts(batch.value.ids, env);
      if ts.val.None? then Eff(ts.out, None) else Eff(ts.out, Some(Some(ts.val.value)))
  }

  function Join(texts: seq<string>): string {
    if texts == [] then "" else if |texts| == 1 then texts[0] else texts[0] + "," + Join(texts[1..])
  }

  function EvalOpt(e: Option<Expr>, env: Env): Eff<Option<Value>> {
    hide *;
    if e.None? then Done(None)
    else
      var v := Eval(e.value, env, None);
      if v.val.None? then Eff(v.out, None) else Eff(v.out, Some(Some(v.val.value)))
  }

  /** Build the request; `Some(None)` when there is nothing to ask for. */
  function Prepare(f: FetchIr, env: Env): Eff<Option<Request>> {
    hide Eval;
    var path := EvalPath(f.path, env);
    if path.val.None? then Eff(path.out, None)
    else
      var query := After(path.out, EvalParams(f.params, env));
      if query.val.None? then Eff(query.out, None)
      else
        var ids := After(query.out, EvalIds(f.batch, env));
        if ids.val.None? then Eff(ids.out, None)
        else if ids.val.value.None? then Eff(ids.out, Some(None))
        else
          var body := After(ids.out, EvalOpt(f.body, env));
          if body.val.None? then Eff(body.out, None)
          else
            var idem := After(body.out, EvalOpt(f.idempotencyKey, env));
            if idem.val.None? then Eff(idem.out, None)
            else
              var texts := ids.val.value.value;
              Eff(idem.out, Some(Some(Request(
                f.httpMethod,
                f.endpoint,
                if f.path == [] then "/" else path.val.value,
                query.val.value + (if texts
                    == [] then multiset{} else multiset{(f.batch.value.queryParam, Join(texts))}),
                body.val.value,
                if idem.val.value.None? then None else Some(idem.val.value.value.Display())))))
  }

  function Answer(w: World, hist: seq<Request>, req: Request): Outcome {
    if req.httpMethod == "GET" then w.get(req) else w.mutate(hist, req)
  }

  /** Check the contract, run the pipeline and wrap the outcome as the bound value. */
  function Finish(w: World, f: FetchIr, env: Env, o: Outcome): Eff<Value> {
    hide *;
    match o
    case Failure(e) => if f.asResult then Done(Value.Err(e)) else Failed()
    case Success(v) =>
      var bad := if f.contract.Some? then w.violation(v, f.contract.value) else None;
      if bad.Some? then (if f.asResult then Done(Value.Err(bad.value)) else Failed())
      else
        var piped := ApplyPipeline(v, f.pipeline, env);
        if piped.val.None? || !f.asResult then piped else Eff(piped.out, Some(Value.Ok(piped.val.value)))
  }

  function FetchOne(w: World, f: FetchIr, env: Env, hist: seq<Request>): Fetched {
    hide *;
    var plan := Prepare(f, env);
    if plan.val.None? then Fetched(plan.out, None, [], None)
    else if plan.val.value.None? then Fetched(plan.out, None, [], Some(Value.Array([])))
    else
      var req := plan.val.value.value;
      var r := Finish(w, f, env, Answer(w, hist, req));
      Fetched(plan.out, Some(Sent(req, f.latency)), r.out, r.val)
  }

  // ---------- one round of concurrent fetches ----------

  datatype Launch = Launch(before: seq<string>, sent: seq<Sent>, after: seq<string>, vals: map<NodeId, Option<Value>>)

  function IsFetch(b: Body, id: NodeId): bool {
    id < |b.nodes| && b.nodes[id].kind.FetchN?
  }

  /** Send the first `k` requests of `arrive`; each sees the snapshot `env`. */
  function LaunchTo(w: World, b: Body, arrive: seq<NodeId>, k: nat, env: Env, hist: seq<Request>): Launch
    requires k <= |arrive|
  {
    hide FetchOne, Eval, ApplyPipeline;
    if k == 0 then Launch([], [], [], map[])
    else
      var l := LaunchTo(w, b, arrive, k - 1, env, hist);
      var id := arrive[k - 1];
      if !IsFetch(b, id) then l
      else
        var r := FetchOne(w, b.nodes[id].kind.f, env, hist + MutationsOf(l.sent));
        Launch(
          l.before + r.before,
          l.sent + (if r.sent.Some? then [r.sent.value] else []),
          l.after + r.after,
          l.vals[id := r.val])
  }

  function LaunchEvents(l: Launch): seq<Event> {
    Prints(l.before) + (if l.sent == [] then [] else [Round(l.sent)]) + Prints(l.after)
  }

  function BindTo(env: Env, binding: Option<string>, v: Value): Env {
    if binding.Some? then Insert(env, binding.value, v) else env
  }

  /** Await the first `k` handles in program order, binding their values. */
  function Collect(b: Body, ids: seq<NodeId>, k: nat, vals: map<NodeId, Option<Value>>, r: Run): Run
    requires k <= |ids|
  {
    if k == 0 then r
    else
      var s := Collect(b, ids, k - 1, vals, r);
      var id := ids[k - 1];
      if !s.ctl.Next? || !IsFetch(b, id) then s
      else if id !in vals || vals[id].None? then s.(ctl := Fail(!b.nodes[id].effect))
      else s.(env := BindTo(s.env, b.nodes[id].binding, vals[id].value))
  }

  function RoundStep(p: Prog, b: Body, ids: seq<NodeId>, arrive: seq<NodeId>, r: Run, hist: seq<Request>): Run {
    hide *;
    if !r.ctl.Next? then r
    else
      var l := LaunchTo(p.world, b, arrive, |arrive|, r.env, hist + Mutations(r.evs));
      Collect(b, ids, |ids|, l.vals, r.(evs := r.evs + LaunchEvents(l)))
  }

  function FetchIds(b: Body, wave: seq<NodeId>): seq<NodeId> {
    if wave == [] then []
    else (if IsFetch(b, wave[0]) then [wave[0]] else []) + FetchIds(b, wave[1..])
  }

  // ---------- bodies ----------

  function Start(env: Env): Run { Run(env, [], Next(None)) }

  function JoinLast(a: Option<Value>, b: Option<Value>): Option<Value> {
    if b.Some? then b else a
  }

  function Append(r: Run, s: Run): Run
    requires r.ctl.Next?
  {
    Run(s.env, r.evs + s.evs, if s.ctl.Next? then Next(JoinLast(r.ctl.last, s.ctl.last)) else s.ctl)
  }

  function RunBody(p: Prog, mode: Mode, fuel: nat, b: Body, env: Env, hist: seq<Request>): Run
    decreases fuel, b, 9, 0
  {
    hide *;
    if mode.InOrder? then RunOrder(p, fuel, b, |b.nodes|, env, hist)
    else RunWaves(p, fuel, b, |b.waves|, env, hist)
  }

  /** The first `k` nodes, one at a time. */
  function RunOrder(p: Prog, fuel: nat, b: Body, k: nat, env: Env, hist: seq<Request>): Run
    requires k <= |b.nodes|
    decreases fuel, b, 8, k
  {
    hide *;
    if k == 0 then Start(env)
    else
      var r := RunOrder(p, fuel, b, k - 1, env, hist);
      if IsFetch(b, k - 1) then RoundStep(p, b, [k - 1], [k - 1], r, hist)
      else NodeStep(p, InOrder, fuel, b, k - 1, r, hist)
  }

  /** The first `k` waves. */
  function RunWaves(p: Prog, fuel: nat, b: Body, k: nat, env: Env, hist: seq<Request>): Run
    requires k <= |b.waves|
    decreases fuel, b, 8, k
  {
    hide *;
    if k == 0 then Start(env)
    else
      var r := RunWaves(p, fuel, b, k - 1, env, hist);
      var wave := b.waves[k - 1];
      var ids := FetchIds(b, wave);
      var s := RoundStep(p, b, ids, p.world.arrival(ids, r.env), r, hist);
      RunTail(p, fuel, b, wave, |wave|, s, hist)
  }

  /** The nodes among the first `k` of a wave that are not fetches, after its round gave `s`. */
  function RunTail(p: Prog, fuel: nat, b: Body, wave: seq<NodeId>, k: nat, s: Run, hist: seq<Request>): Run
    requires k <= |wave|
    decreases fuel, b, 7, k
  {
    hide *;
    if k == 0 then s
    else
      var r := RunTail(p, fuel, b, wave, k - 1, s, hist);
      if IsFetch(b, wave[k - 1]) then r else NodeStep(p, Waves, fuel, b, wave[k - 1], r, hist)
  }

  function NodeStep(p: Prog, mode: Mode, fuel: nat, b: Body, id: NodeId, r: Run, hist: seq<Request>): Run
    decreases fuel, b, 6, 0
  {
    hide *;
    if !r.ctl.Next? || id >= |b.nodes| then r
    else Append(r, RunNode(p, mode, fuel, b, b.nodes[id], r.env, hist + Mutations(r.evs)))
  }

  /** One node that is not a fetch.  `b` is the body it stands in. */
  function RunNode(p: Prog, mode: Mode, fuel: nat, b: Body, n: Node, env: Env, hist: seq<Request>): Run
    decreases fuel, n, 5, 0
  {
    hide *;
    if n.kind.ExprN? then BindLast(n, RunExpr(p, mode, fuel, n, n.kind.value, env, hist))
    else if n.kind.MatchN? then BindLast(n, RunMatch(p, mode, fuel, n.kind.m, b, env, hist, MAX_RETRIES))
    else if n.kind.ForEachN? then
      var v := Eval(n.kind.fe.iter, env, None);
      if v.val.None? then Run(env, Prints(v.out), Fail(false))
      else
        var r := RunLoop(p, mode, fuel, n.kind.fe, v.val.value.Items(), |v.val.value.Items()|, env, hist);
        r.(evs := Prints(v.out) + r.evs)
    else RunSimple(n, env)
  }

  /** A node that evaluates at most one expression. */
  function RunSimple(n: Node, env: Env): Run
    requires !n.kind.ExprN? && !n.kind.MatchN? && !n.kind.ForEachN?
  {
    hide *;
    match n.kind
    case FetchN(_) => Start(env)
    case LetN(e) =>
      var v := Eval(e, env, None);
      if v.val.None? then Run(env, Prints(v.out), Fail(true))
      else Run(BindTo(env, n.binding, v.val.value), Prints(v.out), Next(None))
    case ScatterN(batch, keyField, want) =>
      var v := Eval(want, env, None);
      if v.val.None? then Run(env, Prints(v.out), Fail(true))
      else Run(BindTo(env, n.binding, Pick(Lookup(env, batch), keyField, v.val.value)), Prints(v.out), Next(None))
    case LogN(e) =>
      var v := Eval(e, env, None);
      if v.val.None? then Run(env, Prints(v.out), Fail(false))
      else Run(env, Prints(v.out) + [Print(v.val.value.Display())], Next(None))
    case AssertN(e) =>
      var v := Eval(e, env, None);
      Run(env, Prints(v.out), if v.val.Some? && v.val.value.Truthy() then Next(None) else Fail(false))
    case ReturnN(e) =>
      var v := if e.None? then Done(Value.Null) else Eval(e.value, env, None);
      Run(env, Prints(v.out), if v.val.Some? then Return(v.val.value) else Fail(false))
  }

  /** Bind the value of a call or a match, and remember it as the body's last value. */
  function BindLast(n: Node, r: Run): Run {
    if r.ctl.Next? && r.ctl.last.Some? then r.(env := BindTo(r.env, n.binding, r.ctl.last.value)) else r
  }

  /** The first element of a batch whose key field equals the wanted value. */
  function Pick(batch: Option<Value>, keyField: string, want: Value): Value {
    if batch.Some? && batch.value.Array? then FirstWith(batch.value.items, keyField, want) else Value.Null
  }

  function FirstWith(items: seq<Value>, keyField: string, want: Value): Value {
    if items == [] then Value.Null
    else if items[0].GetField(keyField) == want then items[0]
    else FirstWith(items[1..], keyField, want)
  }

  function ArgValues(args: seq<Expr>, env: Env): Eff<seq<Value>> {
    hide *;
    if args == [] then Done([])
    else
      var v := Eval(args[0], env, None);
      if v.val.None? then Eff(v.out, None)
      else
        var rest := After(v.out, ArgValues(args[1..], env));
        if rest.val.None? then rest else Eff(rest.out, Some([v.val.value] + rest.val.value))
  }

  /** A call to a declared flow runs that flow; anything else is evaluated. */
  function RunExpr(p: Prog, mode: Mode, fuel: nat, n: Node, e: Expr, env: Env, hist: seq<Request>): Run
    decreases fuel, n, 4, 0
  {
    hide RunBody, RunOrder, RunWaves, RunNode, RoundStep, FetchOne, Eval;
    if CallName(e).Some? && FindFlow(p.flows, CallName(e).value).Some? then
      var args := ArgValues(e.args, env);
      if args.val.None? || fuel == 0 then Run(env, Prints(args.out), Fail(false))
      else
        var r := CallFlow(p, mode, fuel - 1, FindFlow(p.flows, CallName(e).value).value, args.val.value, env, hist);
        r.(evs := Prints(args.out) + r.evs)
    else
      var v := Eval(e, env, None);
      Run(env, Prints(v.out), if v.val.Some? then Next(v.val) else Fail(false))
  }

  function ParamEnv(params: seq<string>, args: seq<Value>): map<string, Value> {
    if params == [] || args == [] then map[]
    else map[params[0] := args[0]] + ParamEnv(params[1..], args[1..])
  }

  /** The value of a body for its caller: an early return or the last value, else null. */
  function BodyValue(c: Ctl): Ctl {
    match c
    case Next(last) => Next(Some(if last.Some? then last.value else Value.Null))
    case Return(v) => Next(Some(v))
    case Fail(silent) => Fail(silent)
  }

  /** Run a flow in an environment of its own; `fuel` bounds the depth of calls. */
  function CallFlow(p: Prog, mode: Mode, fuel: nat, flow: Flow, args: seq<Value>, env: Env, hist: seq<Request>): Run
    decreases fuel, flow.body, 10, 0
  {
    hide *;
    var r := RunBody(p, mode, fuel, flow.body, Env(ParamEnv(flow.params, args), env.os), hist);
    Run(env, r.evs, BodyValue(r.ctl))
  }

  function FirstArm(arms: seq<ArmIr>, scrut: Value): Option<ArmIr> {
    if arms == [] then None
    else if MatchPattern(arms[0].pattern, scrut).Some? then Some(arms[0])
    else FirstArm(arms[1..], scrut)
  }

  lemma {:induction false} FirstArmIn(arms: seq<ArmIr>, scrut: Value)
    ensures FirstArm(arms, scrut).Some? ==>
              FirstArm(arms, scrut).value in arms && MatchPattern(FirstArm(arms, scrut).value.pattern, scrut).Some?
  {
    if arms != [] { FirstArmIn(arms[1..], scrut); }
  }

  function RunMatch(p: Prog, mode: Mode, fuel: nat, m: MatchIr, b: Body, env: Env, hist: seq<Request>,
      attempts: nat): Run
    decreases fuel, m, 3, attempts
  {
    hide *;
    var v := Eval(m.scrutinee, env, None);
    var out := Prints(v.out);
    if v.val.None? then Run(env, out, Fail(false))
    else if attempts == 0 then Run(env, out, Next(v.val))
    else
      FirstArmIn(m.arms, v.val.value);
      var chosen := FirstArm(m.arms, v.val.value);
      if chosen.None? then Run(env, out, Fail(false))
      else
        var arm := chosen.value;
        var inner := InsertAll(env, MatchPattern(arm.pattern, v.val.value).value);
        match arm.body
        case ValueArm(e) =>
          var r := Eval(e, inner, None);
          Run(inner, out + Prints(r.out), if r.val.Some? then Next(r.val) else Fail(false))
        case BodyArm(body) =>
          assert arm.body < arm;
          var r := RunBody(p, mode, fuel, body, inner, hist);
          Run(r.env, out + r.evs, BodyValue(r.ctl))
        case RetryArm(effects) =>
          var waited := RunEffects(effects, inner);
          var first := Refetch(p.world, m, b, inner, hist);
          if waited.val.None? then Run(inner, out + Prints(waited.out), Fail(false))
          else if !first.ctl.Next? then first.(evs := out + Prints(waited.out) + first.evs)
          else
            var again := RunMatch(p, mode, fuel, m, b, first.env, hist + Mutations(first.evs), attempts - 1);
            again.(evs := out + Prints(waited.out) + first.evs + again.evs)
  }

  /** Evaluate the waits and calls of a retry arm. */
  function RunEffects(effects: seq<Effect>, env: Env): Eff<bool> {
    hide *;
    if effects == [] then Done(true)
    else
      var v := Eval(effects[0].e, env, None);
      if v.val.None? then Eff(v.out, None) else After(v.out, RunEffects(effects[1..], env))
  }

  function FindFetch(nodes: seq<Node>, name: string): Option<FetchIr> {
    if nodes == [] then None
    else if nodes[0].kind.FetchN? && nodes[0].binding == Some(name) then Some(nodes[0].kind.f)
    else FindFetch(nodes[1..], name)
  }

  /** Run the fetch that bound the scrutinee again, if there is one in the same body. */
  function Refetch(w: World, m: MatchIr, b: Body, env: Env, hist: seq<Request>): Run {
    hide *;
    if !m.scrutinee.Ident? || FindFetch(b.nodes, m.scrutinee.name).None? then Start(env)
    else
      var r := FetchOne(w, FindFetch(b.nodes, m.scrutinee.name).value, env, hist);
      var evs := Prints(r.before) + (if r.sent.Some? then [Round([r.sent.value])] else []) + Prints(r.after);
      if r.val.None? then Run(env, evs, Fail(false))
      else Run(Insert(env, m.scrutinee.name, r.val.value), evs, Next(None))
  }

  /** The first `k` iterations.  Names bound by the body stay bound. */
  function RunLoop(p: Prog, mode: Mode, fuel: nat, fe: ForEachIr, items: seq<Value>, k: nat, env: Env,
      hist: seq<Request>): Run
    requires k <= |items|
    decreases fuel, fe, 3, k
  {
    hide *;
    if k == 0 then Start(env)
    else
      var r := RunLoop(p, mode, fuel, fe, items, k - 1, env, hist);
      if !r.ctl.Next? then r
      else
        var s := RunBody(p, mode, fuel, fe.body, Insert(r.env, fe.loopVar, items[k - 1]), hist + Mutations(r.evs));
        Run(s.env, r.evs + s.evs, LoopCtl(fe, s.ctl))
  }

  /** An iteration ends the loop when the body can return and did leave a value. */
  function LoopCtl(fe: ForEachIr, c: Ctl): Ctl {
    match c
    case Fail(silent) => Fail(silent)
    case Return(v) => if fe.canReturn then Return(v) else Next(None)
    case Next(last) => if fe.canReturn && last.Some? then Return(last.value) else Next(None)
  }
}
