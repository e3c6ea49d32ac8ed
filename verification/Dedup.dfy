/** Request deduplication: a GET with the signature of an earlier one becomes a `let`. */
module Dedup {
  import opened Wrappers
  import opened Ast
  import opened Values
  import opened Evaluator
  import opened Frames
  import opened Ir
  import opened Exec
  import opened Quiet
  import opened FetchFrames
  import opened Dependencies
  import opened Readiness
  import opened Traces
  import opened ReferenceRun
  import opened BodyEquality
  import opened Printer

  datatype SegSig = LitSig(text: string) | ParamSig(printed: seq<Token>)

  datatype OpSig = OpSig(name: string, arg: seq<Token>)

  /** What the signature text is made of; parameters are sorted, hence a multiset. */
  datatype Sig = Sig(
    endpoint: string, path: seq<SegSig>, params: multiset<(string, seq<Token>)>, pipeline: seq<OpSig>,
    inputs: set<string>, deps: set<NodeId>)

  function SegSigOf(s: PathSeg): SegSig {
    match s case Literal(text) => LitSig(text) case Param(e) => ParamSig(Printer.Print(e))
  }

  function ParamsSig(params: seq<FieldInit>): multiset<(string, seq<Token>)> {
    hide *;
    if params == [] then multiset{}
    else multiset{ParamSigOf(params[0])} + ParamsSig(params[1..])
  }

  function ParamSigOf(x: FieldInit): (string, seq<Token>) {
    (x.key, Printer.Print(x.value))
  }

  function OpSigOf(op: PipelineOp): OpSig {
    hide *;
    match op
    case Filter(e) => OpSig("filter", Printer.Print(e))
    case MapOp(e) => OpSig("map", Printer.Print(e))
    case Limit(e) => OpSig("limit", Printer.Print(e))
    case Skip(e) => OpSig("skip", Printer.Print(e))
    case Reverse => OpSig("reverse", [])
    case Flatten => OpSig("flatten", [])
    case Count => OpSig("count", [])
    case Unique(k) => if k.None? then OpSig("unique", []) else OpSig("unique by", Printer.Print(k.value))
    case Sum(k) => if k.None? then OpSig("sum", []) else OpSig("sum by", Printer.Print(k.value))
  }

  function FetchSig(f: FetchIr, inputs: set<string>, deps: set<NodeId>): Sig {
    hide *;
    Sig(f.endpoint,
        seq(|f.path|, i requires 0 <= i < |f.path| => SegSigOf(f.path[i])),
        ParamsSig(f.params),
        seq(|f.pipeline|, i requires 0 <= i < |f.pipeline| => OpSigOf(f.pipeline[i])),
        inputs, deps)
  }

  /** Only GETs are deduplicated, and no loop-fused batch. */
  predicate Eligible(n: Node) {
    n.kind.FetchN? && n.kind.f.httpMethod == "GET"
    && !(n.kind.f.batch.Some? && n.kind.f.batch.value.mapped.Some?)
  }

  function SigOf(n: Node): Sig
    requires n.kind.FetchN?
  {
    hide *;
    FetchSig(n.kind.f, n.inputs, n.deps)
  }

  /** The first bound fetch of each signature among the first `k` nodes. */
  function Seen(nodes: seq<Node>, k: nat): map<Sig, NodeId>
    requires k <= |nodes|
  {
    if k == 0 then map[]
    else
      var seen := Seen(nodes, k - 1);
      var n := nodes[k - 1];
      if Eligible(n) && SigOf(n) !in seen && n.binding.Some? then seen[SigOf(n) := k - 1] else seen
  }

  /** The earlier fetch whose result node `i` reuses. */
  function Original(nodes: seq<Node>, i: nat): Option<NodeId>
    requires i < |nodes|
  {
    if Eligible(nodes[i]) && nodes[i].binding.Some? && SigOf(nodes[i]) in Seen(nodes, i)
    then Some(Seen(nodes, i)[SigOf(nodes[i])]) else None
  }

  predicate Candidate(n: Node) {
    Eligible(n) && n.binding.Some?
  }

  /** `j` is a fetch of signature `g` that the pass keeps. */
  predicate IsFirst(nodes: seq<Node>, g: Sig, j: nat) {
    j < |nodes| && Candidate(nodes[j]) && SigOf(nodes[j]) == g && Original(nodes, j).None?
  }

  lemma {:induction false} SeenOrigin(nodes: seq<Node>, k: nat, g: Sig)
    requires hide *; k <= |nodes| && g in Seen(nodes, k)
    ensures Seen(nodes, k)[g] < k && IsFirst(nodes, g, Seen(nodes, k)[g])
  {
    hide FetchSig;
    if g in Seen(nodes, k - 1) { SeenOrigin(nodes, k - 1, g); }
  }

  lemma {:induction false} SeenHolds(nodes: seq<Node>, k: nat, j: nat)
    requires j < k <= |nodes| && Candidate(nodes[j])
    ensures SigOf(nodes[j]) in Seen(nodes, k)
    ensures Original(nodes, j).None? ==> Seen(nodes, k)[SigOf(nodes[j])] == j
  {
    hide FetchSig;
    if j < k - 1 { SeenHolds(nodes, k - 1, j); }
  }

  lemma OriginalIsFirst(nodes: seq<Node>, i: nat)
    requires i < |nodes| && Original(nodes, i).Some?
    ensures Original(nodes, i).value < i && Candidate(nodes[i])
            && IsFirst(nodes, SigOf(nodes[i]), Original(nodes, i).value)
  {
    hide FetchSig;
    SeenOrigin(nodes, i, SigOf(nodes[i]));
  }

  function Alias(n: Node, first: NodeId, name: string): Node {
    n.(kind := LetN(Ident(name)), inputs := {name}, deps := {first})
  }

  function BindingOf(n: Node): string { if n.binding.Some? then n.binding.value else "" }

  function DedupNode(nodes: seq<Node>, i: nat): Node
    requires i < |nodes|
  {
    hide *;
    var o := Original(nodes, i);
    if o.Some? && o.value < |nodes| then Alias(nodes[i], o.value, BindingOf(nodes[o.value])) else nodes[i]
  }

  function DedupNodes(nodes: seq<Node>): (r: seq<Node>)
    ensures |r| == |nodes|
  {
    hide *;
    seq(|nodes|, i requires 0 <= i < |nodes| => DedupNode(nodes, i))
  }

  /** After the pass every signature belongs to one bound fetch. */
  lemma SignaturesUnique(nodes: seq<Node>, i: nat, j: nat)
    requires i < |nodes| && j < |nodes|
    requires var d := DedupNodes(nodes);
             Eligible(d[i]) && Eligible(d[j]) && d[i].binding.Some? && d[j].binding.Some? && SigOf(d[i]) == SigOf(d[j])
    ensures i == j
  {
    hide RunBody, RunOrder, RunWaves, RunNode, RunLoop, RunMatch, RunTail, NodeStep, RoundStep, LaunchTo, FetchOne,
      Prepare, EvalPath, Eval, ApplyPipeline, Vars, Printer.Print, DepsOf, FetchSig;
    Kept(nodes, i);
    Kept(nodes, j);
    SeenHolds(nodes, |nodes|, i);
    SeenHolds(nodes, |nodes|, j);
  }

  /** What is still an eligible fetch after the pass was not rewritten. */
  lemma Kept(nodes: seq<Node>, i: nat)
    requires hide *; i < |nodes| && Eligible(DedupNodes(nodes)[i])
    ensures DedupNodes(nodes)[i] == nodes[i] && Original(nodes, i).None?
  {
    hide RunBody, RunOrder, RunWaves, RunNode, RunLoop, RunMatch, RunTail, NodeStep, RoundStep, LaunchTo, FetchOne,
      Prepare, EvalPath, Eval, ApplyPipeline, Vars, Printer.Print, DepsOf, FetchSig;
    assert DedupNodes(nodes)[i] == DedupNode(nodes, i);
    if Original(nodes, i).Some? { OriginalIsFirst(nodes, i); }
  }

  // ---------- equal signatures, equal requests ----------

  predicate PlainPath(path: seq<PathSeg>) {
    hide *;
    forall s | s in path :: s.Param? ==> Plain(s.e)
  }

  predicate PlainOp(op: PipelineOp) {
    hide *;
    match op
    case Filter(e) => Plain(e)
    case MapOp(e) => Plain(e)
    case Limit(e) => Plain(e)
    case Skip(e) => Plain(e)
    case Unique(k) => k.Some? ==> Plain(k.value)
    case Sum(k) => k.Some? ==> Plain(k.value)
    case _ => true
  }

  /** Everything the signature prints has tokens of its own, so that equal tokens are equal texts. */
  predicate SpelledFetch(f: FetchIr) {
    hide *;
    && (forall s | s in f.path :: s.Param? ==> Spelled(s.e)) && (forall x | x in f.params :: Spelled(x.value))
    && (forall op | op in f.pipeline :: SpelledOp(op))
  }

  predicate SpelledOp(op: PipelineOp) {
    hide *;
    match op
    case Filter(e) => Spelled(e)
    case MapOp(e) => Spelled(e)
    case Limit(e) => Spelled(e)
    case Skip(e) => Spelled(e)
    case Unique(k) => k.Some? ==> Spelled(k.value)
    case Sum(k) => k.Some? ==> Spelled(k.value)
    case _ => true
  }

  /** Every expression the signature prints is told apart by its printed form. */
  predicate PlainFetch(f: FetchIr) {
    PlainPath(f.path) && (forall x | x in f.params :: Plain(x.value)) && (forall op | op in f.pipeline :: PlainOp(op))
  }

  /** The parts of a fetch that the signature leaves out. */
  predicate SameRest(f: FetchIr, g: FetchIr) {
    f.body == g.body && f.idempotencyKey == g.idempotencyKey && f.asResult == g.asResult && f.contract == g.contract
    && (f.batch.Some? ==> f.batch.value.ids == []) && (g.batch.Some? ==> g.batch.value.ids == [])
  }

  lemma SegEqual(s: PathSeg, t: PathSeg)
    requires hide *; SegSigOf(s) == SegSigOf(t) && (s.Param? ==> Plain(s.e)) && (t.Param? ==> Plain(t.e))
    ensures s == t
  {
    hide Vars, Printer.Print, DepsOf;
    if s.Param? { PrintInjective(s.e, t.e); }
  }

  lemma OpEqual(s: PipelineOp, t: PipelineOp)
    requires OpSigOf(s) == OpSigOf(t) && PlainOp(s) && PlainOp(t)
    ensures s == t
  {
    hide Vars, Printer.Print, DepsOf;
    match s {
      case Filter(e) => PrintInjective(e, t.lambda);
      case MapOp(e) => PrintInjective(e, t.lambda);
      case Limit(e) => PrintInjective(e, t.count);
      case Skip(e) => PrintInjective(e, t.count);
      case Unique(k) => if k.Some? { PrintInjective(k.value, t.key.value); }
      case Sum(k) => if k.Some? { PrintInjective(k.value, t.key.value); }
      case _ =>
    }
  }

  lemma ParamsSigCons(x: FieldInit, rest: seq<FieldInit>)
    ensures ParamsSig([x] + rest) == multiset{ParamSigOf(x)} + ParamsSig(rest)
  {
    hide Vars, Printer.Print, DepsOf;
    assert ([x] + rest)[1..] == rest;
  }

  lemma WithoutNext<T>(s: seq<T>, i: nat)
    requires i + 1 < |s|
    ensures s[..i + 1] + s[i + 2..] == [s[0]] + (s[1..][..i] + s[1..][i + 1..])
  {
  }

  lemma RemoveOther<T>(h: T, x: T, m: multiset<T>)
    requires x != h && x in m
    ensures multiset{h} + (m - multiset{x}) == (multiset{h} + m) - multiset{x}
  {
  }

  lemma {:induction false} FindParam(params: seq<FieldInit>, x: (string, seq<Token>)) returns (j: nat)
    requires hide *; x in ParamsSig(params)
    ensures j < |params| && ParamSigOf(params[j]) == x
    ensures ParamsSig(params[..j] + params[j + 1..]) == ParamsSig(params) - multiset{x}
  {
    hide Vars, Printer.Print, DepsOf;
    assert params != [];
    var h := ParamSigOf(params[0]);
    assert params == [params[0]] + params[1..];
    ParamsSigCons(params[0], params[1..]);
    hide ParamsSig, ParamSigOf;
    if h == x {
      j := 0;
      assert params[..0] + params[1..] == params[1..];
    } else {
      var i := FindParam(params[1..], x);
      j := i + 1;
      var rest := params[1..][..i] + params[1..][i + 1..];
      WithoutNext(params, i);
      ParamsSigCons(params[0], rest);
      RemoveOther(h, x, ParamsSig(params[1..]));
    }
  }

  /** Taking a parameter out first makes no difference when nothing is printed. */
  lemma {:induction false} ParamFirst(params: seq<FieldInit>, j: nat, env: Env)
    requires hide *; j < |params| && QuietFields(params)
    ensures EvalParams(params, env) == EvalParams([params[j]] + (params[..j] + params[j + 1..]), env)
    ensures QuietFields(params[..j] + params[j + 1..])
  {
    hide Vars, Printer.Print, DepsOf, Eval;
    if j == 0 {
      assert [params[0]] + (params[..0] + params[1..]) == params;
      assert params[..0] + params[1..] == params[1..];
    } else {
      ParamFirst(params[1..], j - 1, env);
      var rest := params[1..][..j - 1] + params[1..][j..];
      assert params[..j] + params[j + 1..] == [params[0]] + rest;
      assert params[1..][j - 1] == params[j];
      QuietAt(params, j);
      QuietEval(params[0].value, env, None);
      QuietEval(params[j].value, env, None);
      QuietParams(rest, env);
      hide EvalParams;
      Swap(params[0], params[j], rest, env);
      SameAfterFirst(params[0], params[1..], [params[j]] + rest, env);
      assert [params[0]] + params[1..] == params && ([params[0]] + rest)[1..] == rest;
    }
  }

  lemma {:induction false} QuietAt(params: seq<FieldInit>, j: nat)
    requires hide *; j < |params| && QuietFields(params)
    ensures Quiet.Quiet(params[j].value)
  {
    hide Vars, Printer.Print, DepsOf;
    if j > 0 { QuietAt(params[1..], j - 1); }
  }

  lemma Swap(x: FieldInit, y: FieldInit, rest: seq<FieldInit>, env: Env)
    requires Eval(x.value, env, None).out == [] && Eval(y.value, env, None).out == [] && EvalParams(rest, env).out == []
    ensures EvalParams([x] + ([y] + rest), env) == EvalParams([y] + ([x] + rest), env)
  {
    hide Vars, Printer.Print, DepsOf, Eval, EvalParams;
    TwoParams(x, y, rest, env);
    TwoParams(y, x, rest, env);
    var a, b := Eval(x.value, env, None).val, Eval(y.value, env, None).val;
    if a.Some? && b.Some? {
      var p, q := (x.key, a.value.Display()), (y.key, b.value.Display());
      assert multiset{p, q} == multiset{q, p};
    }
  }

  lemma TwoParams(x: FieldInit, y: FieldInit, rest: seq<FieldInit>, env: Env)
    requires hide *;
             Eval(x.value, env, None).out == [] && Eval(y.value, env, None).out == [] && EvalParams(rest, env).out == []
    ensures var a, b, r := Eval(x.value, env, None).val, Eval(y.value, env, None).val, EvalParams(rest, env).val;
            EvalParams([x] + ([y] + rest), env) ==
              Eff([], if a.Some? && b.Some? && r.Some?
                      then Some(multiset{(x.key, a.value.Display()), (y.key, b.value.Display())} + r.value) else None)
  {
    hide *;
    assert ([x] + ([y] + rest))[1..] == [y] + rest && ([y] + rest)[1..] == rest;
    OneParam(y, rest, env);
    OneParam(x, [y] + rest, env);
    var a, b, r := Eval(x.value, env, None).val, Eval(y.value, env, None).val, EvalParams(rest, env).val;
    if a.Some? && b.Some? && r.Some? {
      var p, q := (x.key, a.value.Display()), (y.key, b.value.Display());
      assert multiset{p} + (multiset{q} + r.value) == multiset{p, q} + r.value;
    }
  }

  lemma OneParam(x: FieldInit, rest: seq<FieldInit>, env: Env)
    requires hide *; Eval(x.value, env, None).out == [] && EvalParams(rest, env).out == []
    ensures var a, r := Eval(x.value, env, None).val, EvalParams(rest, env).val;
            EvalParams([x] + rest, env) ==
              Eff([], if a.Some? && r.Some? then Some(multiset{(x.key, a.value.Display())} + r.value) else None)
  {
    hide Vars, Printer.Print, DepsOf;
    assert ([x] + rest)[1..] == rest;
    var v, r := Eval(x.value, env, None), EvalParams(rest, env);
    hide Eval;
    assert v.out + r.out == [];
    assert EvalParams([x] + rest, env) == if v.val.None? then Eff([], None) else
      var q := Eff([], r.val);
      if r.val.None? then q else Eff(q.out, Some(multiset{(x.key, v.val.value.Display())} + q.val.value));
  }

  lemma NoParams(params: seq<FieldInit>)
    ensures ParamsSig(params) == multiset{} <==> params == []
  {
    hide Vars, Printer.Print, DepsOf;
    if params != [] { assert ParamSigOf(params[0]) in ParamsSig(params); }
  }

  /** The first parameter on one side is one of the other side. */
  lemma SameParam(ps: seq<FieldInit>, qs: seq<FieldInit>) returns (j: nat)
    requires hide *; ps != [] && ParamsSig(ps) == ParamsSig(qs)
    requires (forall x | x in ps :: Plain(x.value)) && (forall x | x in qs :: Plain(x.value))
    ensures j < |qs| && qs[j] == ps[0] && ParamsSig(ps[1..]) == ParamsSig(qs[..j] + qs[j + 1..])
  {
    hide Vars, DepsOf;
    var x := ParamSigOf(ps[0]);
    assert x in ParamsSig(ps);
    j := FindParam(qs, x);
    hide Printer.Print;
    PrintInjective(ps[0].value, qs[j].value);
    assert ParamsSig(ps[1..]) == ParamsSig(ps) - multiset{x};
  }

  lemma QuietRest(ps: seq<FieldInit>)
    requires hide *; ps != [] && QuietFields(ps)
    ensures QuietFields(ps[1..])
  {
  }

  lemma SameAfterFirst(x: FieldInit, ps: seq<FieldInit>, qs: seq<FieldInit>, env: Env)
    requires EvalParams(ps, env) == EvalParams(qs, env)
    ensures EvalParams([x] + ps, env) == EvalParams([x] + qs, env)
  {
    hide Eval;
    assert ([x] + ps)[1..] == ps && ([x] + qs)[1..] == qs;
  }

  /** Parameters with the same sorted text build the same query. */
  lemma {:induction false} ParamsEqual(ps: seq<FieldInit>, qs: seq<FieldInit>, env: Env)
    requires ParamsSig(ps) == ParamsSig(qs) && QuietFields(ps) && QuietFields(qs)
    requires (forall x | x in ps :: Plain(x.value)) && (forall x | x in qs :: Plain(x.value))
    ensures EvalParams(ps, env) == EvalParams(qs, env)
    decreases |ps|
  {
    hide Vars, Printer.Print, DepsOf, EvalParams, Eval, ParamsSig, Plain;
    NoParams(ps);
    NoParams(qs);
    if ps != [] {
      var j := SameParam(ps, qs);
      var rest := qs[..j] + qs[j + 1..];
      QuietRest(ps);
      hide QuietFields;
      ParamFirst(qs, j, env);
      ParamsEqual(ps[1..], rest, env);
      SameAfterFirst(ps[0], ps[1..], rest, env);
      assert [ps[0]] + ps[1..] == ps;
    }
  }

  /** Fetches with equal signatures, and equal in what the signature leaves out, ask for the same
      thing and bind the same value. */
  lemma SameSigSameFetch(w: World, f: FetchIr, g: FetchIr, inputs: set<string>, deps: set<NodeId>, env: Env,
      hist: seq<Request>)
    requires hide *; f.httpMethod == "GET" == g.httpMethod
    requires FetchSig(f, inputs, deps) == FetchSig(g, inputs, deps)
    requires PlainFetch(f) && PlainFetch(g) && QuietFetch(f) && QuietFetch(g) && SameRest(f, g)
    requires f.batch.Some? ==> f.batch.value.mapped.None?
    requires g.batch.Some? ==> g.batch.value.mapped.None?
    ensures Prepare(f, env) == Prepare(g, env)
    ensures FetchOne(w, f, env, hist).val == FetchOne(w, g, env, hist).val
  {
    hide RunBody, RunOrder, RunWaves, RunNode, RunLoop, RunMatch, RunTail, NodeStep, RoundStep, LaunchTo, FetchOne,
      Prepare, EvalPath, Eval, ApplyPipeline, Vars, DepsOf, PlainOp, EvalParams, Printer.Print;
    var sf, sg := FetchSig(f, inputs, deps), FetchSig(g, inputs, deps);
    assert |f.path| == |sf.path| == |g.path| && |f.pipeline| == |sf.pipeline| == |g.pipeline|;
    forall i | 0 <= i < |f.path| ensures f.path[i] == g.path[i] {
      assert sf.path[i] == sg.path[i];
      SegEqual(f.path[i], g.path[i]);
    }
    forall i | 0 <= i < |f.pipeline| ensures f.pipeline[i] == g.pipeline[i] {
      assert sf.pipeline[i] == sg.pipeline[i];
      OpEqual(f.pipeline[i], g.pipeline[i]);
    }
    assert f.path == g.path && f.pipeline == g.pipeline;
    ParamsEqual(f.params, g.params, env);
    hide FetchSig, QuietFetch, PlainFetch;
    NoIds(f, env);
    NoIds(g, env);
    PreparesEqual(f, g, env);
    FinishesEqual(w, f, g, env, hist);
  }

  lemma FinishesEqual(w: World, f: FetchIr, g: FetchIr, env: Env, hist: seq<Request>)
    requires Prepare(f, env) == Prepare(g, env)
    requires f.asResult == g.asResult && f.contract == g.contract && f.pipeline == g.pipeline
    ensures FetchOne(w, f, env, hist).val == FetchOne(w, g, env, hist).val
  {
    hide Eval, Prepare, ApplyPipeline;
  }

  lemma NoIds(f: FetchIr, env: Env)
    requires hide *; f.batch.Some? ==> f.batch.value.mapped.None? && f.batch.value.ids == []
    ensures EvalIds(f.batch, env) == Done(Some([]))
  {
    hide Eval, Vars, Printer.Print, DepsOf;
  }

  lemma PreparesEqual(f: FetchIr, g: FetchIr, env: Env)
    requires f.httpMethod == g.httpMethod && f.endpoint == g.endpoint && f.path == g.path
    requires EvalParams(f.params, env) == EvalParams(g.params, env)
    requires EvalIds(f.batch, env) == Done(Some([])) == EvalIds(g.batch, env)
    requires f.body == g.body && f.idempotencyKey == g.idempotencyKey
    ensures Prepare(f, env) == Prepare(g, env)
  {
    hide Eval;
  }

  // ---------- the pass keeps the meaning ----------

  /** What the pass needs of a body: recorded reads and edges, quiet silent nodes, and for each
      pair it merges, told-apart expressions, equal remaining parts and a first binding that is
      not bound again in between.  Other names may be bound any number of times. */
  ghost predicate DedupReady(b: Body) {
    hide Vars, Uses;
    && Recorded(b) && ScopedLeaks(b) && SilentNodesQuiet(b)
    && (forall i: nat | i < |b.nodes| :: NoRetry(b.nodes[i].kind) && (BindSet(b.nodes[i]) !! Leaks(b.nodes[i].kind)))
    && (forall i: nat | i < |b.nodes| && Eligible(b.nodes[i]) :: SpelledFetch(b.nodes[i].kind.f))
    && (forall i: nat | i < |b.nodes| && Original(b.nodes, i).Some? :: MergeOk(b, Original(b.nodes, i).value, i))
  }

  ghost predicate MergeOk(b: Body, j: nat, i: nat)
    requires i < |b.nodes|
  {
    hide *;
    j < i && b.nodes[i].kind.FetchN? && b.nodes[j].kind.FetchN?
    && PlainFetch(b.nodes[i].kind.f) && PlainFetch(b.nodes[j].kind.f)
    && SameRest(b.nodes[i].kind.f, b.nodes[j].kind.f)
    && forall m: nat | j < m < i :: BindSet(b.nodes[m]) !! BindSet(b.nodes[j])
  }

  /** No node between two fetches of one signature binds anything they read. */
  lemma InputsKeepTheirWriters(b: Body, j: nat, i: nat, m: nat, x: string)
    requires hide *; Recorded(b) && j < i < |b.nodes| && j <= m < i
    requires b.nodes[j].deps == b.nodes[i].deps && x in b.nodes[i].inputs && !b.nodes[j].effect
    ensures x !in BindSet(b.nodes[m])
  {
    hide Vars;
    var w := LastWriter(b.nodes, i, x);
    assert w.Some? ==> w.value in DepsOf(b.nodes, i);
    assert forall d | d in DepsOf(b.nodes, j) :: d < j;
  }

  /** Two fetches with the same reads and the same producers. */
  ghost predicate SameInputs(b: Body, j: nat, i: nat) {
    && j < i < |b.nodes| && IsFetch(b, j) && IsFetch(b, i) && !b.nodes[j].effect && !b.nodes[i].effect
    && b.nodes[j].deps == b.nodes[i].deps && b.nodes[j].inputs == b.nodes[i].inputs
  }

  lemma InputNotWritten(b: Body, j: nat, i: nat, m: nat, x: string)
    requires hide Vars, Uses; Recorded(b) && ScopedLeaks(b) && SameInputs(b, j, i) && j <= m < i && x in Uses(b, i)
    ensures x !in Writes(b.nodes[m])
  {
    hide Vars, KindVars, BodyVars, Uses, Printer.Print, DepsOf;
    assert Leaks(b.nodes[m].kind) !! Uses(b, i) + BindSet(b.nodes[i]);
    if x in BindSet(b.nodes[m]) {
      BoundIsInput(b, i, m, x);
      InputsKeepTheirWriters(b, j, i, m, x);
    }
  }

  /** Both fetches see the same values of everything they read. */
  lemma {:induction false} InputsUnchanged(c: Setup, j: nat, i: nat, k: nat)
    requires hide RunBody, RunOrder, RunWaves, RunNode, RoundStep, FetchOne, Eval, Vars, Uses;
             Recorded(c.b) && ScopedLeaks(c.b) && SameInputs(c.b, j, i) && j <= k <= i
    ensures Agree(c.At(j).env, c.At(k).env, Uses(c.b, i))
    decreases k
  {
    hide RunBody, RunWaves, RunNode, RunLoop, RunMatch, RunTail, NodeStep, RoundStep, LaunchTo, FetchOne, Prepare,
      EvalPath, Eval, ApplyPipeline, Vars, KindVars, BodyVars, Uses, Printer.Print, DepsOf, RunOrder, Recorded,
      ScopedLeaks, Writes;
    if j < k {
      InputsUnchanged(c, j, i, k - 1);
      StepWrites(c, k - 1);
      forall x | x in Uses(c.b, i) ensures x !in Writes(c.b.nodes[k - 1]) {
        InputNotWritten(c.b, j, i, k - 1, x);
      }
    }
  }

  lemma BoundIsInput(b: Body, i: nat, m: nat, x: string)
    requires hide *; Recorded(b) && i < |b.nodes| && m < |b.nodes| && x in Uses(b, i) && x in BindSet(b.nodes[m])
    ensures x in b.nodes[i].inputs
  {
    hide Vars, KindVars, BodyVars, Uses, Printer.Print, DepsOf;
    assert b.nodes[m] in b.nodes;
  }

  /** In program order, a duplicate sends the request of the first fetch again, and gets the value
      that the first one bound. */
  lemma DuplicateSendsSameRequest(c: Setup, j: nat, i: nat, hist: seq<Request>)
    requires hide RunBody, RunOrder, RunWaves, RunNode, RoundStep, FetchOne, Eval, ApplyPipeline, Vars, Uses;
             DedupReady(c.b) && i < |c.b.nodes| && Original(c.b.nodes, i) == Some(j)
    ensures j < i && IsFetch(c.b, i) && IsFetch(c.b, j) && c.b.nodes[i].kind.f.httpMethod == "GET"
    ensures Prepare(c.b.nodes[i].kind.f, c.At(i).env) == Prepare(c.b.nodes[j].kind.f, c.At(j).env)
    ensures FetchOne(c.p.world, c.b.nodes[i].kind.f, c.At(i).env, hist).val
         == FetchOne(c.p.world, c.b.nodes[j].kind.f, c.At(j).env, HistAt(c, j)).val
  {
    hide RunNode, RunLoop, RunMatch, LaunchTo, Eval, ApplyPipeline, Vars, Printer.Print, DepsOf, FetchVars,
      FetchOne, Prepare, RunOrder;
    OriginalIsFirst(c.b.nodes, i);
    var n, o := c.b.nodes[i], c.b.nodes[j];
    assert MergeOk(c.b, j, i);
    assert QuietKind(n.kind) && QuietKind(o.kind);
    InputsUnchanged(c, j, i, i);
    PrepareFrame(n.kind.f, c.At(j).env, c.At(i).env);
    FetchFrame(c.p.world, n.kind.f, c.At(j).env, c.At(i).env, hist);
    SameSigSameFetch(c.p.world, n.kind.f, o.kind.f, n.inputs, n.deps, c.At(j).env, hist);
    GetIgnoresHistory(c.p.world, o.kind.f, c.At(j).env, hist, HistAt(c, j));
  }

  /** The first binding still holds its value when the duplicate is reached. */
  lemma {:induction false} FirstBindingKept(c: Setup, j: nat, i: nat, k: nat)
    requires hide *; DedupReady(c.b) && i < |c.b.nodes| && Original(c.b.nodes, i) == Some(j) && j < k <= i
    ensures Lookup(c.At(k).env, BindingOf(c.b.nodes[j])) == Lookup(c.At(j + 1).env, BindingOf(c.b.nodes[j]))
    decreases k
  {
    hide RunOrder, Original, DedupReady, BindingOf, Writes;
    if j + 1 < k {
      FirstBindingKept(c, j, i, k - 1);
      NotRebound(c.b, j, i, k - 1);
      StepWrites(c, k - 1);
    }
  }

  lemma NotRebound(b: Body, j: nat, i: nat, m: nat)
    requires hide *; DedupReady(b) && i < |b.nodes| && Original(b.nodes, i) == Some(j) && j < m < i
    ensures BindingOf(b.nodes[j]) !in Writes(b.nodes[m])
  {
    hide Vars, KindVars, BodyVars, Uses, Printer.Print, DepsOf, Recorded, SilentNodesQuiet, FetchSig;
    OriginalIsFirst(b.nodes, i);
    assert MergeOk(b, j, i);
    assert Leaks(b.nodes[m].kind) !! Uses(b, j) + BindSet(b.nodes[j]);
    assert BindSet(b.nodes[m]) !! BindSet(b.nodes[j]);
  }

  /** What the pass knows about a pair that it merges. */
  lemma MergedPair(b: Body, i: nat)
    requires hide Vars, Uses; DedupReady(b) && i < |b.nodes| && Original(b.nodes, i).Some?
    ensures var j := Original(b.nodes, i).value;
            && j < i && IsFetch(b, i) && IsFetch(b, j)
            && b.nodes[i].kind.f.httpMethod == "GET" && QuietFetch(b.nodes[i].kind.f)
            && (b.nodes[i].kind.f.batch.Some?
               ==> b.nodes[i].kind.f.batch.value.mapped.None?
                   && b.nodes[i].kind.f.batch.value.ids == [])
            && b.nodes[j].binding == Some(BindingOf(b.nodes[j])) && b.nodes[i].binding.Some? && !b.nodes[i].effect
            && DedupNodes(b.nodes)[i] == Alias(b.nodes[i], j, BindingOf(b.nodes[j]))
  {
    hide Vars, KindVars, BodyVars, Uses, Printer.Print, DepsOf, ScopedLeaks, FetchSig;
    var j := Original(b.nodes, i).value;
    OriginalIsFirst(b.nodes, i);
    assert MergeOk(b, j, i);
    assert QuietKind(b.nodes[i].kind);
    assert b.nodes[i].effect == IsEffect(b.nodes[i].kind);
  }

  /** The same body after the pass, started alike. */
  ghost function After(c: Setup): Setup {
    c.(b := Body(DedupNodes(c.b.nodes), c.b.waves))
  }

  /** How many of the first `k` nodes the pass has rewritten. */
  function Merged(nodes: seq<Node>, k: nat): nat
    requires k <= |nodes|
  {
    hide *;
    if k == 0 then 0 else Merged(nodes, k - 1) + if Original(nodes, k - 1).Some? then 1 else 0
  }

  ghost predicate InStep(r: Run, s: Run, saved: nat) {
    s.env == r.env && s.ctl == r.ctl && Observe(s.evs) == Observe(r.evs) && Sends(s.evs) + saved == Sends(r.evs)
  }

  /** A fetch that succeeds without a batch has sent its one request. */
  lemma PlainGetSends(w: World, f: FetchIr, env: Env, hist: seq<Request>)
    requires EvalIds(f.batch, env) == Done(Some([]))
    ensures FetchOne(w, f, env, hist).val.Some? ==> Sends(FetchEvents(FetchOne(w, f, env, hist))) == 1
  {
    hide ApplyPipeline, EvalIds, Eval;
    var one := FetchOne(w, f, env, hist);
    if one.val.Some? { LaunchSends(Launch(one.before, if one.sent.Some? then [one.sent.value] else [], one.after,
        map[])); }
  }

  lemma AliasRuns(p: Prog, fuel: nat, b: Body, n: Node, name: string, env: Env, hist: seq<Request>)
    requires hide *; n.kind == LetN(Ident(name)) && Lookup(env, name).Some?
    ensures RunNode(p, InOrder, fuel, b, n, env, hist) == Run(BindTo(env, n.binding, Lookup(env, name).value), [],
            Next(None))
  {
  }

  /** In program order the duplicate binds what the first fetch bound, unseen and with one request. */
  lemma DuplicateStep(c: Setup, j: nat, i: nat)
    requires hide *; DedupReady(c.b) && i < |c.b.nodes| && Original(c.b.nodes, i) == Some(j)
    requires c.At(i).ctl.Next? && c.At(i + 1).ctl.Next?
    ensures j < i && Lookup(c.At(i).env, BindingOf(c.b.nodes[j])).Some?
    ensures c.At(i + 1).env == BindTo(c.At(i).env, c.b.nodes[i].binding,
            Lookup(c.At(i).env, BindingOf(c.b.nodes[j])).value)
    ensures c.At(i + 1).ctl == c.At(i).ctl && Observe(c.At(i + 1).evs) == Observe(c.At(i).evs)
    ensures Sends(c.At(i + 1).evs) == Sends(c.At(i).evs) + 1
  {
    hide RunBody, RunWaves, RunLoop, RunMatch, RunTail, NodeStep, RoundStep, LaunchTo, Prepare, EvalPath,
      ApplyPipeline, Vars, KindVars, BodyVars, Uses, Printer.Print, DepsOf, Eval, RunNode, RunOrder, FetchOne,
      FetchEvents, Observe, Sends;
    MergedPair(c.b, i);
    DuplicateSendsSameRequest(c, j, i, HistAt(c, i));
    FirstBindingKept(c, j, i, i);
    hide DedupReady, Original;
    Stays(c, j, i);
    Stays(c, j + 1, i);
    AtStep(c, i);
    AtStep(c, j);
    SingleRound(c.p, c.b, i, c.At(i), c.hist);
    SingleRound(c.p, c.b, j, c.At(j), c.hist);
    var f := c.b.nodes[i].kind.f;
    var one := FetchOne(c.p.world, f, c.At(i).env, HistAt(c, i));
    QuietGetUnobserved(c.p.world, f, c.At(i).env, HistAt(c, i));
    NoIds(f, c.At(i).env);
    PlainGetSends(c.p.world, f, c.At(i).env, HistAt(c, i));
    ObserveAppend(c.At(i).evs, FetchEvents(one));
    SendsAppend(c.At(i).evs, FetchEvents(one));
  }

  lemma AliasStep(c: Setup, j: nat, i: nat)
    requires hide RunBody, RunOrder, RunWaves, RunNode, RoundStep, FetchOne, Eval, Vars, Uses;
             DedupReady(c.b) && i < |c.b.nodes| && Original(c.b.nodes, i) == Some(j)
    requires c.At(i).ctl.Next? && c.At(i + 1).ctl.Next?
    requires InStep(c.At(i), After(c).At(i), Merged(c.b.nodes, i))
    ensures InStep(c.At(i + 1), After(c).At(i + 1), Merged(c.b.nodes, i + 1))
  {
    hide RunBody, RunWaves, RunLoop, RunMatch, RunTail, NodeStep, LaunchTo, Prepare, EvalPath, Eval, ApplyPipeline,
      Vars, KindVars, BodyVars, Uses, Printer.Print, DepsOf, RoundStep, FetchOne, Original, RunOrder, RunNode,
      Observe, Sends;
    var d := After(c);
    MergedPair(c.b, i);
    DuplicateStep(c, j, i);
    hide DedupReady;
    AtStep(d, i);
    AliasRuns(d.p, d.fuel, d.b, d.b.nodes[i], BindingOf(c.b.nodes[j]), d.At(i).env, HistAt(d, i));
    assert d.At(i).evs + [] == d.At(i).evs;
  }

  lemma BothAppend(r: Run, s: Run, es: seq<Event>, env: Env, ctl: Ctl, saved: nat)
    requires InStep(r, s, saved)
    ensures InStep(Run(env, r.evs + es, ctl), Run(env, s.evs + es, ctl), saved)
  {
    ObserveAppend(r.evs, es); ObserveAppend(s.evs, es);
    SendsAppend(r.evs, es); SendsAppend(s.evs, es);
  }

  /** A node the pass leaves alone does the same as before. */
  lemma KeptStep(c: Setup, i: nat)
    requires hide RunBody, RunOrder, RunWaves, RunNode, RoundStep, FetchOne, Eval, Vars, Uses;
             DedupReady(c.b) && i < |c.b.nodes| && Original(c.b.nodes, i).None?
    requires c.At(i).ctl.Next? && InStep(c.At(i), After(c).At(i), Merged(c.b.nodes, i))
    ensures InStep(c.At(i + 1), After(c).At(i + 1), Merged(c.b.nodes, i + 1))
  {
    hide RunBody, RunWaves, RunLoop, RunMatch, RunTail, NodeStep, RoundStep, LaunchTo, Prepare, EvalPath, Eval,
      ApplyPipeline, Vars, KindVars, BodyVars, Uses, Printer.Print, DepsOf, RunOrder, RunNode, FetchOne, FetchEvents;
    var d := After(c);
    var n := c.b.nodes[i];
    assert NoRetry(n.kind);
    hide DedupReady;
    assert d.b.nodes[i] == n;
    AtStep(c, i);
    AtStep(d, i);
    MutationsObserved(c.At(i).evs);
    MutationsObserved(d.At(i).evs);
    hide Observe, Sends, Mutations, CallsIn;
    var h := HistAt(c, i);
    assert HistAt(d, i) == h;
    var r, s := c.At(i), d.At(i);
    if IsFetch(c.b, i) {
      SingleRound(c.p, c.b, i, r, c.hist);
      SingleRound(d.p, d.b, i, s, d.hist);
      var es := FetchEvents(FetchOne(c.p.world, n.kind.f, r.env, h));
      BothAppend(r, s, es, c.At(i + 1).env, c.At(i + 1).ctl, Merged(c.b.nodes, i));
    } else {
      NodeIgnoresBody(c.p, InOrder, c.fuel, c.b, d.b, n, n, r.env, h);
      var es := RunNode(c.p, InOrder, c.fuel, c.b, n, r.env, h).evs;
      BothAppend(r, s, es, c.At(i + 1).env, c.At(i + 1).ctl, Merged(c.b.nodes, i));
    }
  }

  lemma StartInStep(c: Setup)
    ensures hide *; InStep(c.At(0), After(c).At(0), 0)
  {
    hide RunNode, RunLoop, RunMatch, LaunchTo, FetchOne, Prepare, Eval, ApplyPipeline, Vars, Printer.Print, DepsOf,
      DedupNodes;
    assert c.At(0).evs == [];
  }

  lemma EndedInStep(c: Setup, k: nat, saved: nat)
    requires hide RunBody, RunOrder, RunWaves, RunNode, RoundStep, FetchOne, Eval, Vars;
             0 < k <= |c.b.nodes| && !c.At(k - 1).ctl.Next? && InStep(c.At(k - 1), After(c).At(k - 1), saved)
    ensures InStep(c.At(k), After(c).At(k), saved)
  {
    hide RunBody, RunWaves, RunNode, RunLoop, RunMatch, RunTail, NodeStep, RoundStep, LaunchTo, FetchOne, Prepare,
      EvalPath, Eval, ApplyPipeline, Vars, Printer.Print, DepsOf, RunOrder, DedupNodes;
    Stays(c, k - 1, k);
    Stays(After(c), k - 1, k);
  }

  lemma {:induction false} DedupInStep(c: Setup, k: nat) returns (saved: nat)
    requires hide RunBody, RunOrder, RunWaves, RunNode, RoundStep, FetchOne, Eval, Vars, Uses;
             DedupReady(c.b) && k <= |c.b.nodes| && c.At(k).ctl != Fail(true)
    ensures saved <= Merged(c.b.nodes, k) && InStep(c.At(k), After(c).At(k), saved)
    ensures c.At(k).ctl.Next? ==> saved == Merged(c.b.nodes, k)
    decreases k
  {
    hide RunOrder, DedupReady, InStep, Original, After;
    if k == 0 {
      saved := 0;
      StartInStep(c);
    } else {
      Stays(c, k - 1, k);
      saved := DedupInStep(c, k - 1);
      if c.At(k - 1).ctl.Next? {
        var o := Original(c.b.nodes, k - 1);
        saved := Merged(c.b.nodes, k);
        if o.None? {
          KeptStep(c, k - 1);
        } else {
          DuplicateFails(c, o.value, k - 1);
          AliasStep(c, o.value, k - 1);
        }
      } else {
        EndedInStep(c, k, saved);
      }
    }
  }

  /** A duplicate fails only as a node that is not an effect. */
  lemma DuplicateFails(c: Setup, j: nat, i: nat)
    requires hide *; DedupReady(c.b) && i < |c.b.nodes| && Original(c.b.nodes, i) == Some(j) && c.At(i).ctl.Next?
    ensures c.At(i + 1).ctl.Next? || c.At(i + 1).ctl == Fail(true)
  {
    hide *;
    MergedPair(c.b, i);
    AtStep(c, i);
    SingleRound(c.p, c.b, i, c.At(i), c.hist);
  }

  /** Deduplication changes nothing that can be observed, nor any binding; it saves one request for
      every node it rewrites. */
  lemma DedupPreserves(p: Prog, fuel: nat, b: Body, env: Env, hist: seq<Request>)
    requires hide *; DedupReady(b) && RunBody(p, InOrder, fuel, b, env, hist).ctl != Fail(true)
    ensures var r := RunBody(p, InOrder, fuel, b, env, hist);
            var s := RunBody(p, InOrder, fuel, Body(DedupNodes(b.nodes), b.waves), env, hist);
            && s.ctl == r.ctl && s.env == r.env && Observe(s.evs) == Observe(r.evs)
            && Sends(s.evs) <= Sends(r.evs)
            && (r.ctl.Next? ==> Sends(s.evs) + Merged(b.nodes, |b.nodes|) == Sends(r.evs))
  {
    hide RunWaves, RunNode, RunLoop, RunMatch, RunTail, NodeStep, RoundStep, LaunchTo, FetchOne, Prepare, EvalPath,
      Eval, ApplyPipeline, Vars, KindVars, BodyVars, Uses, Printer.Print, DepsOf, DedupReady;
    var c := Setup(p, fuel, b, env, env, hist, false);
    assert c.At(|b.nodes|) == RunBody(p, InOrder, fuel, b, env, hist);
    assert After(c).At(|b.nodes|) == RunBody(p, InOrder, fuel, After(c).b, env, hist);
    hide RunOrder, RunBody;
    var saved := DedupInStep(c, |b.nodes|);
  }

  // ---------- what the signature does not see ----------

  /** `1 - (1 - 1)` and `(1 - 1) - 1` */
  function Nested(): Expr { Binary(Sub, Expr.Int(1), Binary(Sub, Expr.Int(1), Expr.Int(1))) }
  function Flat(): Expr { Binary(Sub, Binary(Sub, Expr.Int(1), Expr.Int(1)), Expr.Int(1)) }

  function GetOf(e: Expr): FetchIr { FetchIr("GET", "A", [Param(e)], [], None, None, None, None, [], false, None) }

  lemma NestedPrints()
    ensures Printer.Print(Nested()) == Printer.Print(Flat())
  {
    var one, minus := Expr.Int(1), Binary(Sub, Expr.Int(1), Expr.Int(1));
    assert Printer.Print(one) == [Num(1)];
    assert Printer.Print(minus) == [Num(1), OpT(Sub), Num(1)];
    assert Printer.Print(Nested()) == [Num(1), OpT(Sub)] + Printer.Print(minus);
    assert Printer.Print(Flat()) == Printer.Print(minus) + [OpT(Sub), Num(1)];
  }

  lemma NestedValues(env: Env)
    ensures Eval(Nested(), env, None) == Done(Value.Int(1)) && Eval(Flat(), env, None) == Done(Value.Int(-1))
  {
    assert Eval(Expr.Int(1), env, None) == Done(Value.Int(1));
    assert Eval(Binary(Sub, Expr.Int(1), Expr.Int(1)), env, None) == Done(Value.Int(0));
  }

  lemma GetPath(e: Expr, env: Env, n: int)
    requires hide *; Eval(e, env, None) == Done(Value.Int(n))
    ensures Prepare(GetOf(e), env).val.Some? && Prepare(GetOf(e), env).val.value.Some?
    ensures |Prepare(GetOf(e), env).val.value.value.path| == 1 + |IntText(n)|
  {
    hide Eval;
    assert [Param(e)][1..] == [];
    assert EvalPath([], env) == Done("");
    assert EvalPath([Param(e)], env).val == Some("/" + Value.Int(n).Display() + "");
  }

  /** `/x/{1 - (1 - 1)}` and `/x/{1 - 1 - 1}` have one signature but are different requests. */
  lemma GroupingIsLost(env: Env)
    ensures FetchSig(GetOf(Nested()), {}, {}) == FetchSig(GetOf(Flat()), {}, {})
            && SameRest(GetOf(Nested()), GetOf(Flat()))
    ensures Prepare(GetOf(Nested()), env) != Prepare(GetOf(Flat()), env)
  {
    hide EvalPath, Vars, Printer.Print, DepsOf, Eval, Prepare, IntText;
    NestedPrints();
    NestedValues(env);
    GetPath(Nested(), env, 1);
    GetPath(Flat(), env, -1);
    SignShows(1);
  }

  lemma SignShows(n: int)
    requires 0 < n < 10
    ensures |IntText(n)| < |IntText(-n)|
  {
    assert |IntText(n)| == 1 && |IntText(-n)| == 2;
  }

  /** Whether the binding asked for a `Result` is not part of the signature: when the request
      succeeds, the reused value is the right one exactly when both asked alike. */
  lemma ResultWrappingIsIgnored(w: World, f: FetchIr, env: Env, hist: seq<Request>, asked: bool)
    requires hide *; FetchOne(w, f.(asResult := false), env, hist).val.Some?
    requires Prepare(f, env).val.Some? && Prepare(f, env).val.value.Some?
    ensures FetchSig(f.(asResult := asked), {}, {}) == FetchSig(f, {}, {})
    ensures FetchOne(w, f.(asResult := asked), env, hist).val == FetchOne(w, f, env, hist).val <==> asked == f.asResult
  {
    hide Eval;
    var plain, wrapped := f.(asResult := false), f.(asResult := true);
    SamePlan(f, plain, env);
    SamePlan(f, wrapped, env);
    hide Prepare, ApplyPipeline;
    var o := Answer(w, hist, Prepare(f, env).val.value.value);
    var v := Finish(w, plain, env, o).val.value;
    assert Finish(w, wrapped, env, o).val == Some(Value.Ok(v));
    NotItsOwnWrapper(v);
  }

  lemma SamePlan(f: FetchIr, g: FetchIr, env: Env)
    requires g == f.(asResult := g.asResult)
    ensures Prepare(f, env) == Prepare(g, env)
  {
    hide Eval;
  }

  lemma NotItsOwnWrapper(v: Value)
    ensures v != Value.Ok(v)
  {
    assert v < Value.Ok(v);
  }
}
