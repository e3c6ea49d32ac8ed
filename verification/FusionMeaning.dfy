/** A batched request and its scatters bind what the separate requests did. */
module FusionMeaning {
  import opened Wrappers
  import opened Ast
  import opened Values
  import opened Evaluator
  import opened Frames
  import opened Ir
  import opened Exec
  import opened Quiet
  import opened Readiness
  import opened ReferenceRun
  import opened BodyEquality
  import opened FreshNames
  import opened Printer
  import opened Dedup
  import opened Fusion

  ghost function BatchNames(nodes: seq<Node>): set<string> {
    set g: nat | g < |Groups(nodes)| :: BatchName(g)
  }

  /** A literal segment that reads as a number is the number's own text. */
  predicate Canonical(s: PathSeg) {
    s.Literal? && ParseI64(s.text).Some? ==> IntText(ParseI64(s.text).value) == s.text
  }

  /** What the group key does not look at: a member whose value is used as it comes, without a
      `Result`, contract or body, and whose collection prefix reads nothing that this body binds. */
  ghost predicate PlainMember(b: Body, i: nat, first: nat)
    requires i < |b.nodes| && first < |b.nodes| && Batchable(b.nodes[i]) && Batchable(b.nodes[first])
  {
    hide *;
    var f := b.nodes[i].kind.f;
    && !f.asResult && f.contract.None? && f.body.None? && f.batch == b.nodes[first].kind.f.batch
    && PlainPath(f.path) && Canonical(f.path[|f.path| - 1])
    && PathVars(Prefix(f.path), true) !! Binds(b.nodes)
    && Vars(IdOf(b.nodes[i]), true) * Binds(b.nodes) <= Vars(IdOf(b.nodes[i]), false)
  }

  ghost predicate MembersPlain(b: Body, g: nat)
    requires g < |Groups(b.nodes)|
  {
    hide Vars, KeyOf, Groups;
    forall i | i in MembersOf(b.nodes, g) :: PlainMember(b, i, First(b.nodes, g))
  }

  /** The position of a group's first member, where its batch goes. */
  function First(nodes: seq<Node>, g: nat): (i: nat)
    requires g < |Groups(nodes)|
    ensures i < |nodes| && i in MembersOf(nodes, g) && Batchable(nodes[i])
  {
    hide *;
    GroupsFusable(nodes, g);
    var m := MembersOf(nodes, g);
    assert m[0] in m;
    m[0]
  }

  ghost predicate FuseReady(b: Body) {
    hide Vars, Uses, KeyOf, Groups;
    && ScopedLeaks(b) && SilentNodesQuiet(b)
    && (forall i: nat | i < |b.nodes| :: NoRetry(b.nodes[i].kind) && b.nodes[i].effect == IsEffect(b.nodes[i].kind))
    && Avoids(b, BatchNames(b.nodes)) && (forall i: nat | i < |b.nodes| :: Writes(b.nodes[i]) !! BatchNames(b.nodes))
    && (forall i: nat | i < |b.nodes| && Batchable(b.nodes[i]) :: SpelledPath(b.nodes[i].kind.f.path))
    && (forall g: nat | g < |Groups(b.nodes)| :: MembersPlain(b, g))
  }

  /** The printed prefix has tokens of its own, so that equal tokens are equal group keys. */
  predicate SpelledPath(path: seq<PathSeg>) {
    forall s | s in path :: s.Param? ==> Spelled(s.e)
  }

  // ---------- the batch contract ----------

  function SingleRequest(endpoint: string, path: string, want: Value): Request {
    Request("GET", endpoint, path + "/" + want.Display(), multiset{}, None, None)
  }

  function Displays(vs: seq<Value>): seq<string> {
    hide *;
    seq(|vs|, i requires 0 <= i < |vs| => vs[i].Display())
  }

  function BatchRequest(endpoint: string, path: string, param: string, wants: seq<Value>): Request {
    Request("GET", endpoint, path, multiset{(param, Join(Displays(wants)))}, None, None)
  }

  /** What the endpoint returns for a single id, if anything, carries that id in its key field. */
  predicate Keyed(w: World, endpoint: string, path: string, keyField: string, want: Value) {
    hide *;
    var o := w.get(SingleRequest(endpoint, path, want));
    o.Success? ==> o.v.GetField(keyField) == want
  }

  predicate Holds(w: World, endpoint: string, path: string, keyField: string, want: Value, items: seq<Value>) {
    hide *;
    var o := w.get(SingleRequest(endpoint, path, want));
    o.Success? ==> FirstWith(items, keyField, want) == o.v
  }

  /** The promise behind `batch:` — the batched answer is an array in which the first element with a
      requested id is what the request for that id alone would have returned. */
  ghost predicate BatchContract(w: World, endpoint: string, param: string, keyField: string) {
    hide *;
    forall path: string, wants: seq<Value> | (forall v | v in wants :: Keyed(w, endpoint, path, keyField, v)) ::
      var o := w.get(BatchRequest(endpoint, path, param, wants));
      o.Success? && o.v.Array? && forall v | v in wants :: Holds(w, endpoint, path, keyField, v, o.v.items)
  }

  // ---------- one member ----------

  ghost function WantAt(c: Setup, i: nat): Option<Value>
    requires i < |c.b.nodes| && Batchable(c.b.nodes[i])
  {
    hide *;
    Eval(IdOf(c.b.nodes[i]), c.At(i).env, None).val
  }

  ghost function PathAt(c: Setup, i: nat): Option<string>
    requires i < |c.b.nodes| && Batchable(c.b.nodes[i])
  {
    hide *;
    EvalPath(Prefix(c.b.nodes[i].kind.f.path), c.At(i).env).val
  }

  ghost function FetchedAt(c: Setup, i: nat): Fetched
    requires i < |c.b.nodes| && IsFetch(c.b, i)
  {
    hide RunBody, RunOrder, RunWaves, RunNode, RoundStep, FetchOne, Eval, ApplyPipeline, Vars, KeyOf, Groups;
    FetchOne(c.p.world, c.b.nodes[i].kind.f, c.At(i).env, HistAt(c, i))
  }

  function SegText(s: PathSeg, env: Env): Option<string> {
    hide *;
    match s
    case Literal(text) => Some(text)
    case Param(e) => var v := Eval(e, env, None).val; if v.None? then None else Some(v.value.Display())
  }

  lemma {:induction false} PathSnoc(p: seq<PathSeg>, s: PathSeg, env: Env)
    ensures hide *; EvalPath(p + [s], env).val ==
            var a, t := EvalPath(p, env).val, SegText(s, env);
            if a.Some? && t.Some? then Some(a.value + "/" + t.value) else None
  {
    hide Value.Display, Eval;
    if p == [] {
      assert p + [s] == [s] && [s][1..] == [];
      if SegText(s, env).Some? {
        var t := SegText(s, env).value;
        assert EvalPath([s], env).val == Some("/" + t + "");
        assert "/" + t + "" == "" + "/" + t;
      }
    } else {
      assert (p + [s])[0] == p[0] && (p + [s])[1..] == p[1..] + [s];
      PathSnoc(p[1..], s, env);
      var h, a, t := SegText(p[0], env), EvalPath(p[1..], env).val, SegText(s, env);
      if h.Some? && a.Some? && t.Some? {
        assert "/" + h.value + (a.value + "/" + t.value) == "/" + h.value + a.value + "/" + t.value;
      }
    }
  }

  /** The last segment prints as its id does. */
  lemma SegIsId(path: seq<PathSeg>, env: Env)
    requires hide *; path != [] && Canonical(path[|path| - 1])
    ensures var v := Eval(VaryingValue(path), env, None).val;
            SegText(path[|path| - 1], env) == if v.None? then None else Some(v.value.Display())
  {
    var s := path[|path| - 1];
    if s.Literal? {
      var e := VaryingValue(path);
      if ParseI64(s.text).Some? {
        assert Eval(e, env, None) == Done(Value.Int(ParseI64(s.text).value));
      } else {
        assert s.text + "" == s.text;
        assert EvalParts([], env, None).val == Some("");
        assert [Lit(s.text)][1..] == [];
        assert EvalParts([Lit(s.text)], env, None).val == Some(s.text);
        assert Eval(e, env, None).val == Some(Value.Str(s.text));
      }
    }
  }

  lemma SplitPath(path: seq<PathSeg>)
    requires path != []
    ensures path == Prefix(path) + [path[|path| - 1]]
  {
  }

  /** A plain single fetch asks for its id under its prefix and binds what comes back. */
  lemma SingleFetch(w: World, n: Node, env: Env, hist: seq<Request>)
    requires hide FetchOne, Eval, ApplyPipeline, Vars, KeyOf, Groups;
             Batchable(n) && !n.kind.f.asResult && n.kind.f.contract.None? && n.kind.f.body.None?
    requires Canonical(n.kind.f.path[|n.kind.f.path| - 1]) && QuietFetch(n.kind.f)
    requires FetchOne(w, n.kind.f, env, hist).val.Some?
    ensures var f := n.kind.f;
            var a, v, r := EvalPath(Prefix(f.path), env).val, Eval(IdOf(n), env, None).val, FetchOne(w, f, env, hist);
            && a.Some? && v.Some?
            && w.get(SingleRequest(f.endpoint, a.value, v.value)) == Success(r.val.value)
            && r.before == [] && r.after == [] && r.sent.Some?
  {
    hide ApplyPipeline;
    var f := n.kind.f;
    SplitPath(f.path);
    PathSnoc(Prefix(f.path), f.path[|f.path| - 1], env);
    SegIsId(f.path, env);
    NoIds(f, env);
    assert EvalParams([], env) == Done(multiset{});
    var a, v := EvalPath(Prefix(f.path), env).val, Eval(IdOf(n), env, None).val;
    QuietFetchOne(w, f, env, hist);
    hide Eval, EvalPath, EvalIds, QuietFetch;
    var none: multiset<(string, string)> := multiset{};
    assert none + none == none;
    assert Prepare(f, env).val == Some(Some(SingleRequest(f.endpoint, a.value, v.value)));
    PlainFinish(w, f, env, hist);
  }

  /** Without a pipeline, a contract or a `Result`, the bound value is the answer. */
  lemma PlainFinish(w: World, f: FetchIr, env: Env, hist: seq<Request>)
    requires hide *; f.httpMethod == "GET" && f.pipeline == [] && !f.asResult && f.contract.None?
    requires Prepare(f, env).val.Some? && Prepare(f, env).val.value.Some?
             && Prepare(f, env).val.value.value.httpMethod == "GET"
    ensures var o, r := w.get(Prepare(f, env).val.value.value), FetchOne(w, f, env, hist);
            r.sent == Some(Sent(Prepare(f, env).val.value.value, f.latency))
                && r.val == (if o.Success? then Some(o.v) else None)
  {
    hide Prepare;
    var o := w.get(Prepare(f, env).val.value.value);
    if o.Success? { assert ApplyPipeline(o.v, [], env) == Done(o.v); }
  }

  // ---------- the batch ----------

  lemma {:induction false} TextsAre(es: seq<Expr>, vs: seq<Value>, env: Env)
    requires hide *; |es| == |vs| && forall j | 0 <= j < |es| :: Eval(es[j], env, None).val == Some(vs[j])
    ensures EvalTexts(es, env).val == Some(Displays(vs))
  {
    hide Eval, Vars, KeyOf, Groups, Printer.Print;
    if es == [] {
      assert Displays(vs) == [];
    } else {
      assert Eval(es[0], env, None).val == Some(vs[0]);
      forall j | 0 <= j < |es[1..]| ensures Eval(es[1..][j], env, None).val == Some(vs[1..][j]) {
        assert es[1..][j] == es[j + 1];
      }
      TextsAre(es[1..], vs[1..], env);
      assert Displays(vs) == [vs[0].Display()] + Displays(vs[1..]);
    }
  }

  /** A batched fetch asks for all its ids at once and binds the array that comes back. */
  lemma BatchedFetch(w: World, f: FetchIr, env: Env, hist: seq<Request>, path: string, wants: seq<Value>)
    requires hide *;
             f.httpMethod == "GET" && f.params == [] && f.pipeline == [] && f.idempotencyKey.None? && f.body.None?
    requires !f.asResult && f.contract.None? && f.path != [] && f.batch.Some? && f.batch.value.mapped.None?
    requires EvalPath(f.path, env).val == Some(path) && wants != []
    requires EvalTexts(f.batch.value.ids, env).val == Some(Displays(wants))
    requires forall v | v in wants :: Keyed(w, f.endpoint, path, f.batch.value.keyField, v)
    requires BatchContract(w, f.endpoint, f.batch.value.queryParam, f.batch.value.keyField)
    ensures var r := FetchOne(w, f, env, hist);
            && r.val.Some? && r.val.value.Array? && r.sent.Some?
            && forall v | v in wants :: Holds(w, f.endpoint, path, f.batch.value.keyField, v, r.val.value.items)
  {
    hide Eval, ApplyPipeline, EvalPath, EvalTexts, FirstWith, Keyed, Holds;
    var spec := f.batch.value;
    assert EvalParams([], env) == Done(multiset{});
    assert |Displays(wants)| == |wants|;
    var none: multiset<(string, string)> := multiset{};
    assert none + multiset{(spec.queryParam, Join(Displays(wants)))}
        == multiset{(spec.queryParam, Join(Displays(wants)))};
    var req := BatchRequest(f.endpoint, path, spec.queryParam, wants);
    assert Prepare(f, env).val == Some(Some(req));
    PlainFinish(w, f, env, hist);
    assert w.get(req).Success? && w.get(req).v.Array?;
  }

  // ---------- groups, names and what members read ----------

  lemma FirstIsFirst(m: seq<nat>, i: nat)
    requires i in m && forall x: nat, y: nat | x < y < |m| :: m[x] < m[y]
    ensures m[0] <= i
  {
    var x: nat :| x < |m| && m[x] == i;
  }

  lemma PathPart(p: seq<PathSeg>, s: PathSeg)
    ensures hide *; PathVars(p, true) <= PathVars(p + [s], true)
    ensures s.Param? ==> Vars(s.e, true) <= PathVars(p + [s], true)
    decreases |p|
  {
    hide Vars, KeyOf, Groups, Printer.Print;
    if p == [] {
      assert p + [s] == [s] && [s][1..] == [];
    } else {
      assert (p + [s])[0] == p[0] && (p + [s])[1..] == p[1..] + [s];
      PathPart(p[1..], s);
    }
  }

  lemma IdIsUsed(b: Body, i: nat)
    requires hide Vars, Uses, KeyOf, Groups; i < |b.nodes| && Batchable(b.nodes[i])
    ensures Vars(IdOf(b.nodes[i]), true) <= Uses(b, i) && PathVars(Prefix(b.nodes[i].kind.f.path), true) <= Uses(b, i)
  {
    hide Vars, KeyOf, Groups, Printer.Print;
    var path := b.nodes[i].kind.f.path;
    SplitPath(path);
    PathPart(Prefix(path), path[|path| - 1]);
    if path[|path| - 1].Literal? { LiteralId(path); }
  }

  lemma LiteralId(path: seq<PathSeg>)
    requires hide *; path != [] && path[|path| - 1].Literal?
    ensures Vars(VaryingValue(path), true) == {}
  {
    var text := path[|path| - 1].text;
    if ParseI64(text).None? {
      assert [Lit(text)][1..] == [];
      assert PartsVars([Lit(text)], true) == {};
    }
  }

  lemma {:induction false} FilteredDistinct(nodes: seq<Node>, keys: seq<GroupKey>)
    requires hide *; forall x: nat, y: nat | x < y < |keys| :: keys[x] != keys[y]
    ensures forall x: nat, y: nat | x < y < |Filtered(nodes, keys)| ::
            Filtered(nodes, keys)[x] != Filtered(nodes, keys)[y]
  {
    hide Fusable;
    if keys != [] {
      var init := keys[..|keys| - 1];
      FilteredDistinct(nodes, init);
      KeysBatchable(nodes, init);
      var f := Filtered(nodes, init);
      forall x: nat | x < |f| ensures f[x] != keys[|keys| - 1] { assert f[x] in f; }
    }
  }

  lemma GroupsDistinct(nodes: seq<Node>, g: nat, h: nat)
    requires hide *; g < |Groups(nodes)| && h < |Groups(nodes)| && Groups(nodes)[g] == Groups(nodes)[h]
    ensures g == h
  {
    hide Vars, KeyOf, Printer.Print;
    KeysDistinct(nodes, |nodes|);
    FilteredDistinct(nodes, Keys(nodes, |nodes|));
  }

  lemma {:induction false} NatTextInjective(m: nat, n: nat)
    requires NatText(m) == NatText(n)
    ensures m == n
    decreases m
  {
    LastDigit(m);
    LastDigit(n);
    if m >= 10 && n >= 10 { NatTextInjective(m / 10, n / 10); }
  }

  lemma LastDigit(n: nat)
    ensures |NatText(n)| >= 1 && NatText(n)[|NatText(n)| - 1] == Digit(n % 10)
    ensures n < 10 <==> |NatText(n)| == 1
    ensures n >= 10 ==> NatText(n)[..|NatText(n)| - 1] == NatText(n / 10)
  {
  }

  lemma BatchNamesDistinct(g: nat, h: nat)
    requires BatchName(g) == BatchName(h)
    ensures g == h
  {
    var p := "__batch_";
    assert BatchName(g)[|p|..] == NatText(g) && BatchName(h)[|p|..] == NatText(h);
    NatTextInjective(g, h);
  }

  lemma GroupMember(nodes: seq<Node>, i: nat)
    requires hide *; i < |nodes| && GroupAt(nodes, i).Some?
    ensures var g := GroupAt(nodes, i).value;
            g < |Groups(nodes)| && i in MembersOf(nodes, g) && Batchable(nodes[i])
                && InGroup(nodes[First(nodes, g)], KeyOf(nodes[i]))
  {
    hide Vars, KeyOf, Groups, Printer.Print;
  }

  lemma {:induction false} QuietPathPart(p: seq<PathSeg>, s: PathSeg)
    requires hide *; QuietPath(p + [s])
    ensures QuietPath(p) && (s.Param? ==> Quiet.Quiet(s.e))
  {
    hide Vars, KeyOf, Groups, Printer.Print;
    if p == [] {
      assert p + [s] == [s];
    } else {
      assert (p + [s])[0] == p[0] && (p + [s])[1..] == p[1..] + [s];
      QuietPathPart(p[1..], s);
    }
  }

  lemma QuietId(n: Node)
    requires hide Vars, KeyOf, Groups; Batchable(n) && QuietFetch(n.kind.f)
    ensures Quiet.Quiet(IdOf(n)) && QuietPath(Prefix(n.kind.f.path))
  {
    hide Vars, KeyOf, Groups, Printer.Print;
    var path := n.kind.f.path;
    SplitPath(path);
    QuietPathPart(Prefix(path), path[|path| - 1]);
    if path[|path| - 1].Literal? && ParseI64(path[|path| - 1].text).None? {
      var parts := [Lit(path[|path| - 1].text)];
      assert parts[1..] == [];
      assert QuietParts(parts);
    }
  }

  lemma {:induction false} AllQuiet(es: seq<Expr>)
    requires forall e | e in es :: Quiet.Quiet(e)
    ensures QuietAll(es)
  {
    hide Vars, KeyOf, Groups, Printer.Print;
    if es != [] { assert es[0] in es; AllQuiet(es[1..]); }
  }

  lemma {:induction false} AllAvoid(es: seq<Expr>, f: set<string>)
    requires forall e | e in es :: Vars(e, true) !! f
    ensures ExprsVars(es, true) !! f
  {
    hide Vars, KeyOf, Groups, Printer.Print;
    if es != [] { assert es[0] in es; AllAvoid(es[1..], f); }
  }
}
