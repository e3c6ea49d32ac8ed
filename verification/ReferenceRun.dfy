/** The reference run in program order, and the invariant that ties a wave run to it. */
module ReferenceRun {
  import opened Wrappers
  import opened Ast
  import opened Values
  import opened Evaluator
  import opened Frames
  import opened Ir
  import opened Exec
  import opened Quiet
  import opened FetchFrames
  import opened Dependencies
  import opened Readiness
  import opened Traces

  /** Same ending and same observable behaviour. */
  ghost predicate Same(r: Run, s: Run) {
    r.ctl == s.ctl && Observe(r.evs) == Observe(s.evs)
  }

  /** The runs compared: neither stops on an error of a node that is not an effect.  When returns
      come last and the first run succeeds, nothing need be known of the second. */
  ghost predicate Comparable(late: bool, r: Run, s: Run) {
    r.ctl != Fail(true) && (s.ctl != Fail(true) || (late && !r.ctl.Fail?))
  }

  ghost predicate LateProg(p: Prog) {
    forall f | f in p.flows :: ReturnsLast(f.body)
  }

  /** A body, the environments its two runs start from, and the reference run. */
  datatype Setup = Setup(p: Prog, fuel: nat, b: Body, ea: Env, eb: Env, hist: seq<Request>, late: bool) {
    ghost function At(k: nat): Run
      requires k <= |b.nodes|
    {
      hide *;
      RunOrder(p, fuel, b, k, ea, hist)
    }

    ghost predicate Valid() {
      && ReadyProg(p) && Ready(b) && Agree(ea, eb, BodyVars(b, true))
      && (late ==> LateProg(p) && ReturnsLast(b))
    }

    /** The reference run completes nodes before `s`, and stops at `s` unless all are done. */
    ghost predicate Stops(s: nat) {
      hide *;
      && s <= |b.nodes| && At(s).ctl.Next?
      && (s < |b.nodes| ==> !At(s + 1).ctl.Next? && At(s + 1).ctl != Fail(true) && At(|b.nodes|) == At(s + 1))
    }

    /** Errors of nodes that are not effects are ruled out. */
    ghost predicate Good() {
      hide *;
      late && !At(|b.nodes|).ctl.Fail?
    }
  }

  // ---------- the reference run ----------

  lemma {:induction false} Stays(c: Setup, k: nat, j: nat)
    requires hide *; k <= j <= |c.b.nodes|
    ensures !c.At(k).ctl.Next? ==> c.At(j) == c.At(k)
    decreases j
  {
    hide RunNode, RunLoop, RunMatch, LaunchTo, FetchOne, Prepare, Eval, ApplyPipeline, Vars, DepsOf;
    if k < j {
      Stays(c, k, j - 1);
      OrderUnfolds(c.p, c.fuel, c.b, j, c.ea, c.hist);
    }
  }

  lemma {:induction false} StopPoint(c: Setup, k: nat) returns (s: nat)
    requires hide *; k <= |c.b.nodes| && c.At(k).ctl.Next?
    requires c.At(|c.b.nodes|).ctl != Fail(true)
    ensures c.Stops(s)
    decreases |c.b.nodes| - k
  {
    hide RunBody, RunOrder, RunWaves, RunNode, RunLoop, RunMatch, RunTail, NodeStep, RoundStep, LaunchTo, FetchOne,
      Prepare, EvalPath, Eval, ApplyPipeline, Vars, DepsOf;
    if k == |c.b.nodes| {
      s := k;
    } else if c.At(k + 1).ctl.Next? {
      s := StopPoint(c, k + 1);
    } else {
      Stays(c, k + 1, |c.b.nodes|);
      s := k;
    }
  }

  lemma NextBefore(c: Setup, s: nat, k: nat)
    requires hide RunBody, RunOrder, RunWaves, RunNode, RoundStep, FetchOne, Eval, Vars; c.Stops(s) && k <= s
    ensures c.At(k).ctl.Next?
  {
    hide RunBody, RunOrder, RunWaves, RunNode, RunLoop, RunMatch, RunTail, NodeStep, RoundStep, LaunchTo, FetchOne,
      Prepare, EvalPath, Eval, ApplyPipeline, Vars, DepsOf;
    Stays(c, k, s);
  }

  /** The history a node of the reference run sees. */
  ghost function HistAt(c: Setup, k: nat): seq<Request>
    requires k <= |c.b.nodes|
  {
    hide *;
    c.hist + Mutations(c.At(k).evs)
  }

  lemma AtStep(c: Setup, k: nat)
    requires hide *; k < |c.b.nodes| && c.At(k).ctl.Next?
    ensures !IsFetch(c.b, k) ==>
              c.At(k + 1) == Append(c.At(k),
                  RunNode(c.p, InOrder, c.fuel, c.b, c.b.nodes[k], c.At(k).env, HistAt(c, k)))
    ensures IsFetch(c.b, k) ==>
              c.At(k + 1) == RoundStep(c.p, c.b, [k], [k], c.At(k), c.hist)
  {
    hide RunNode, RunLoop, RunMatch, LaunchTo, FetchOne, Prepare, Eval, ApplyPipeline, Vars, DepsOf;
    OrderUnfolds(c.p, c.fuel, c.b, k + 1, c.ea, c.hist);
    var r := c.At(k);
    assert NodeStep(c.p, InOrder, c.fuel, c.b, k, r, c.hist)
           == Append(r, RunNode(c.p, InOrder, c.fuel, c.b, c.b.nodes[k], r.env, HistAt(c, k)));
  }

  lemma OrderUnfolds(p: Prog, fuel: nat, b: Body, k: nat, env: Env, hist: seq<Request>)
    requires hide *; 0 < k <= |b.nodes|
    ensures RunOrder(p, fuel, b, k, env, hist)
         == (var r := RunOrder(p, fuel, b, k - 1, env, hist);
             if IsFetch(b, k - 1) then RoundStep(p, b, [k - 1], [k - 1], r, hist)
             else NodeStep(p, InOrder, fuel, b, k - 1, r, hist))
  {
    hide RunNode, RunLoop, RunMatch, LaunchTo, FetchOne, Prepare, Eval, ApplyPipeline, Vars, DepsOf;
  }

  lemma StepWrites(c: Setup, k: nat)
    requires hide *; k < |c.b.nodes|
    ensures Within(c.At(k).env, c.At(k + 1).env, Writes(c.b.nodes[k]))
  {
    hide RunNode, RunLoop, RunMatch, LaunchTo, FetchOne, Prepare, Eval, ApplyPipeline, Vars, DepsOf;
    var r := c.At(k);
    OrderUnfolds(c.p, c.fuel, c.b, k + 1, c.ea, c.hist);
    if r.ctl.Next? {
      AtStep(c, k);
      if IsFetch(c.b, k) { SingleRound(c.p, c.b, k, r, c.hist); }
      else { NodeWithin(c.p, InOrder, c.fuel, c.b, c.b.nodes[k], r.env, HistAt(c, k)); }
    }
  }

  /** A value once bound is never overwritten. */
  lemma {:induction false} BindingStays(c: Setup, j: nat, i: nat, x: string)
    requires hide *; Sound(c.b) && j < i <= |c.b.nodes| && x in BindSet(c.b.nodes[j])
    ensures Lookup(c.At(i).env, x) == Lookup(c.At(j + 1).env, x)
    decreases i
  {
    hide RunOrder, Sound, Writes;
    if j + 1 < i {
      BindingStays(c, j, i - 1, x);
      StepWrites(c, i - 1);
      NotOverwritten(c.b, j, i - 1, x);
    }
  }

  lemma NotOverwritten(b: Body, j: nat, i: nat, x: string)
    requires hide *; Sound(b) && j < i < |b.nodes| && x in BindSet(b.nodes[j])
    ensures x !in Writes(b.nodes[i])
  {
    hide Recorded, SilentNodesQuiet, KindVars, Leaks;
  }

  /** A name that no earlier node writes still has its initial value. */
  lemma {:induction false} Untouched(c: Setup, i: nat, x: string)
    requires hide *; i <= |c.b.nodes| && forall m: nat | m < i :: x !in Writes(c.b.nodes[m])
    ensures Lookup(c.At(i).env, x) == Lookup(c.ea, x)
  {
    hide RunNode, RunLoop, RunMatch, LaunchTo, FetchOne, Prepare, Eval, ApplyPipeline, Vars, DepsOf;
    if i > 0 {
      Untouched(c, i - 1, x);
      StepWrites(c, i - 1);
    }
  }

  lemma {:induction false} SameOs(c: Setup, i: nat)
    requires hide *; i <= |c.b.nodes|
    ensures c.At(i).env.os == c.ea.os
  {
    hide RunNode, RunLoop, RunMatch, LaunchTo, FetchOne, Prepare, Eval, ApplyPipeline, Vars, DepsOf;
    if i > 0 { SameOs(c, i - 1); StepWrites(c, i - 1); }
  }

  /** Nodes that are not effects are not observed. */
  lemma {:induction false} SilentStretch(c: Setup, s: nat, q: nat, i: nat)
    requires hide RunBody, RunOrder, RunWaves, RunNode, RoundStep, FetchOne, Eval, Vars, Uses;
             c.Stops(s) && Sound(c.b) && q <= i <= s
    requires forall j: nat | q <= j < i :: !c.b.nodes[j].effect
    ensures Observe(c.At(i).evs) == Observe(c.At(q).evs)
    ensures c.At(q).ctl.Next? && c.At(i).ctl == c.At(q).ctl
    ensures HistAt(c, i) == HistAt(c, q)
    decreases i
  {
    hide RunBody, RunWaves, RunNode, RunLoop, RunMatch, RunTail, NodeStep, RoundStep, LaunchTo, FetchOne, Prepare,
      EvalPath, Eval, ApplyPipeline, Vars, KindVars, BodyVars, Uses, DepsOf, RunOrder, Observe, Mutations;
    NextBefore(c, s, q);
    if q < i {
      SilentStretch(c, s, q, i - 1);
      NextBefore(c, s, i);
      SilentStep(c, i - 1);
      SameHist(c, q, i);
    }
  }

  lemma SameHist(c: Setup, q: nat, i: nat)
    requires hide *; q <= |c.b.nodes| && i <= |c.b.nodes| && Observe(c.At(i).evs) == Observe(c.At(q).evs)
    ensures HistAt(c, i) == HistAt(c, q)
  {
    hide RunBody, RunOrder, RunWaves, RunNode, RunLoop, RunMatch, RunTail, NodeStep, RoundStep, LaunchTo, FetchOne,
      Prepare, EvalPath, Eval, ApplyPipeline, Vars, DepsOf;
    MutationsObserved(c.At(i).evs);
    MutationsObserved(c.At(q).evs);
  }

  lemma SilentStep(c: Setup, k: nat)
    requires hide *; Sound(c.b) && k < |c.b.nodes| && !c.b.nodes[k].effect
    requires c.At(k).ctl.Next? && c.At(k + 1).ctl.Next?
    ensures Observe(c.At(k + 1).evs) == Observe(c.At(k).evs) && c.At(k + 1).ctl == c.At(k).ctl
  {
    hide RunBody, RunOrder, RunWaves, RunLoop, RunMatch, RunTail, NodeStep, RoundStep, LaunchTo, FetchOne, Prepare,
      EvalPath, ApplyPipeline, Vars, KindVars, BodyVars, Uses, DepsOf, Eval, RunNode;
    var n, r := c.b.nodes[k], c.At(k);
    assert QuietKind(n.kind);
    AtStep(c, k);
    if IsFetch(c.b, k) {
      SingleRound(c.p, c.b, k, r, c.hist);
      QuietGetUnobserved(c.p.world, n.kind.f, r.env, HistAt(c, k));
      ObserveAppend(r.evs, FetchEvents(FetchOne(c.p.world, n.kind.f, r.env, HistAt(c, k))));
    } else {
      SilentNode(c.p, InOrder, c.fuel, c.b, n, r.env, HistAt(c, k));
      assert r.evs + [] == r.evs;
    }
  }

  /** A `let` or a scatter prints nothing and does not depend on the mode or the history. */
  lemma SilentNode(p: Prog, mode: Mode, fuel: nat, b: Body, n: Node, env: Env, hist: seq<Request>)
    requires hide *; !IsEffect(n.kind) && !n.kind.FetchN? && QuietKind(n.kind)
    ensures var r := RunNode(p, mode, fuel, b, n, env, hist);
            r.evs == [] && (r.ctl == Next(None) || r.ctl == Fail(true))
            && r == RunNode(p, InOrder, 0, b, n, env, [])
            && (n.binding.None? ==> r.env == env)
  {
    hide FetchOne, Prepare, Eval, ApplyPipeline, Vars;
    match n.kind {
      case LetN(e) => QuietEval(e, env, None);
      case ScatterN(_, _, want) => QuietEval(want, env, None);
      case _ =>
    }
  }

  lemma SilentFrame(p: Prog, b: Body, n: Node, a: Env, e: Env, x: string)
    requires hide *; !IsEffect(n.kind) && !n.kind.FetchN? && x in BindSet(n)
    requires Agree(a, e, KindVars(n.kind, true))
    ensures var r, s := RunNode(p, InOrder, 0, b, n, a, []), RunNode(p, InOrder, 0, b, n, e, []);
            r.ctl == s.ctl && (r.ctl.Next? ==> Lookup(r.env, x) == Lookup(s.env, x))
  {
    hide FetchOne, Prepare, Eval, ApplyPipeline, Vars;
    match n.kind {
      case LetN(v) => EvalFrame(v, a, e, None);
      case ScatterN(batch, _, want) =>
        EvalFrame(want, a, e, None);
        assert Lookup(a, batch) == Lookup(e, batch);
      case _ =>
    }
  }

  // ---------- the invariant of the wave run ----------

  /** After the nodes in `done`, in whatever order: every one of them that the reference run
      completes left the same binding, and nothing else changed but leaked names. */
  ghost predicate EnvInv(c: Setup, s: nat, env: Env, done: set<NodeId>)
    requires s <= |c.b.nodes|
  {
    hide *;
    && env.os == c.eb.os
    && (forall j: nat, x: string | j in done && j < s && x in BindSet(c.b.nodes[j]) ::
          Lookup(env, x) == Lookup(c.At(j + 1).env, x))
    && (forall x: string | x !in Binds(c.b.nodes)
                           && (forall j: nat | j in done && j < |c.b.nodes| :: x !in Leaks(c.b.nodes[j].kind)) ::
          Lookup(env, x) == Lookup(c.eb, x))
  }

  /** The effects done are those before `q`, and they were observed as in the reference run. */
  ghost predicate TraceInv(c: Setup, s: nat, r: Run, done: set<NodeId>, q: nat)
    requires s <= |c.b.nodes|
  {
    hide *;
    && q <= s && c.At(q).ctl.Next?
    && (forall e: nat | e < |c.b.nodes| && c.b.nodes[e].effect :: e in done <==> e < q)
    && Observe(r.evs) == Observe(c.At(q).evs)
    && r.ctl == c.At(q).ctl
  }

  ghost predicate Traced(c: Setup, s: nat, r: Run, done: set<NodeId>)
    requires s <= |c.b.nodes|
  {
    hide *;
    exists q :: TraceInv(c, s, r, done, q)
  }

  /** The wave run has ended the way the reference run does. */
  ghost predicate Stopped(c: Setup, s: nat, r: Run)
    requires s <= |c.b.nodes|
  {
    hide *;
    s < |c.b.nodes| && !c.At(s + 1).ctl.Next? && Same(r, c.At(s + 1))
  }

  /** The states a wave run can be in. */
  ghost predicate Tracks(c: Setup, s: nat, r: Run, done: set<NodeId>)
    requires s <= |c.b.nodes|
  {
    hide *;
    || (r.ctl == Fail(true) && !c.Good())
    || Stopped(c, s, r)
    || (EnvInv(c, s, r.env, done) && Traced(c, s, r, done))
  }

  ghost predicate DepsDone(b: Body, i: nat, done: set<NodeId>)
    requires i < |b.nodes|
  {
    i !in done && b.nodes[i].deps <= done
  }

  /** What a ready node reads has the value it has in the reference run. */
  lemma ReadsAgree(c: Setup, s: nat, env: Env, done: set<NodeId>, i: nat)
    requires hide RunBody, RunOrder, RunWaves, RunNode, RoundStep, FetchOne, Eval, Vars, Uses;
             c.Valid() && c.Stops(s) && i <= s && i < |c.b.nodes|
    requires EnvInv(c, s, env, done) && DepsDone(c.b, i, done)
    ensures Agree(c.At(i).env, env, Uses(c.b, i))
  {
    hide RunBody, RunOrder, RunWaves, RunNode, RunLoop, RunMatch, RunTail, NodeStep, RoundStep, LaunchTo, FetchOne,
      Prepare, EvalPath, Eval, ApplyPipeline, Vars, KindVars, BodyVars, Uses, DepsOf;
    SameOs(c, i);
    forall x | x in Uses(c.b, i)
      ensures Lookup(c.At(i).env, x) == Lookup(env, x)
    {
      if x in Binds(c.b.nodes) {
        ReadOfBinding(c, s, env, done, i, x);
      } else {
        ReadFromOutside(c, s, env, done, i, x);
      }
    }
  }

  /** A bound name that a node reads was bound by a node it depends on. */
  lemma BinderOf(b: Body, i: nat, x: string) returns (w: nat)
    requires hide *; Sound(b) && i < |b.nodes| && x in Uses(b, i) && x in Binds(b.nodes)
    ensures w < i && w in b.nodes[i].deps && x in BindSet(b.nodes[w])
  {
    hide Vars, Uses, ScopedLeaks, SilentNodesQuiet;
    var n :| n in b.nodes && n.binding == Some(x);
    var j: nat :| j < |b.nodes| && b.nodes[j] == n;
    assert x in BindSet(b.nodes[j]);
    assert j < i;
    assert x in b.nodes[i].inputs;
    var latest := LastWriter(b.nodes, i, x);
    assert latest.Some? && latest.value in DepsOf(b.nodes, i);
    w := latest.value;
  }

  lemma ReadOfBinding(c: Setup, s: nat, env: Env, done: set<NodeId>, i: nat, x: string)
    requires hide RunBody, RunOrder, RunWaves, RunNode, RoundStep, FetchOne, Eval, Vars, Uses;
             c.Valid() && c.Stops(s) && i <= s && i < |c.b.nodes|
    requires EnvInv(c, s, env, done) && DepsDone(c.b, i, done)
    requires x in Uses(c.b, i) && x in Binds(c.b.nodes)
    ensures Lookup(c.At(i).env, x) == Lookup(env, x)
  {
    hide RunBody, RunWaves, RunNode, RunLoop, RunMatch, RunTail, NodeStep, RoundStep, LaunchTo, FetchOne, Prepare,
      EvalPath, Eval, ApplyPipeline, Vars, KindVars, BodyVars, DepsOf, Sound, Uses, Binds, RunOrder;
    assert Sound(c.b);
    var w := BinderOf(c.b, i, x);
    BindingStays(c, w, i, x);
  }

  lemma ReadFromOutside(c: Setup, s: nat, env: Env, done: set<NodeId>, i: nat, x: string)
    requires hide RunBody, RunOrder, RunWaves, RunNode, RoundStep, FetchOne, Eval, Vars, Uses;
             c.Valid() && c.Stops(s) && i <= s && i < |c.b.nodes|
    requires EnvInv(c, s, env, done) && DepsDone(c.b, i, done)
    requires x in Uses(c.b, i) && x !in Binds(c.b.nodes)
    ensures Lookup(c.At(i).env, x) == Lookup(env, x)
  {
    hide RunNode, RunLoop, RunMatch, LaunchTo, FetchOne, Prepare, Eval, ApplyPipeline, Vars, DepsOf, RunOrder,
      Setup.At;
    forall m: nat | m < |c.b.nodes| && m != i
      ensures x !in Leaks(c.b.nodes[m].kind) && x !in Writes(c.b.nodes[m])
    {
      assert Leaks(c.b.nodes[m].kind) !! Uses(c.b, i) + BindSet(c.b.nodes[i]);
      assert c.b.nodes[m] in c.b.nodes;
    }
    Untouched(c, i, x);
    NodeVarsIn(c.b.nodes, i);
    assert x in BodyVars(c.b, true);
  }

  lemma {:induction false} NodeVarsIn(nodes: seq<Node>, i: nat)
    requires hide *; i < |nodes|
    ensures KindVars(nodes[i].kind, true) <= NodesVars(nodes, true)
  {
    hide Vars, KindVars, BodyVars, DepsOf;
    if i > 0 { NodeVarsIn(nodes[1..], i - 1); }
  }

  /** Running one more node keeps the environment invariant. */
  lemma EnvStep(c: Setup, s: nat, env: Env, done: set<NodeId>, i: nat, after: Env)
    requires hide *; Sound(c.b) && s <= |c.b.nodes| && EnvInv(c, s, env, done) && i < |c.b.nodes| && i !in done
    requires Within(env, after, Writes(c.b.nodes[i]))
    requires i < s ==> forall x | x in BindSet(c.b.nodes[i]) :: Lookup(after, x) == Lookup(c.At(i + 1).env, x)
    ensures EnvInv(c, s, after, done + {i})
  {
    hide RunBody, RunOrder, RunWaves, RunNode, RunLoop, RunMatch, RunTail, NodeStep, RoundStep, LaunchTo, FetchOne,
      Prepare, EvalPath, Eval, ApplyPipeline, Vars, KindVars, BodyVars, DepsOf, NodesWrites, RetryTarget, Recorded,
      Setup.At, Uses, SilentNodesQuiet;
    var n := c.b.nodes[i];
    forall j: nat, x: string | j in done && j < s && x in BindSet(c.b.nodes[j])
      ensures Lookup(after, x) == Lookup(c.At(j + 1).env, x)
    {
      assert Leaks(n.kind) !! Uses(c.b, j) + BindSet(c.b.nodes[j]);
      assert x !in Writes(n);
    }
    forall x: string | x !in Binds(c.b.nodes)
                       && (forall j: nat | j in done + {i} && j < |c.b.nodes| :: x !in Leaks(c.b.nodes[j].kind))
      ensures Lookup(after, x) == Lookup(c.eb, x)
    {
      assert i in done + {i} && n in c.b.nodes;
      forall j: nat | j in done && j < |c.b.nodes| ensures x !in Leaks(c.b.nodes[j].kind) {
        assert j in done + {i};
      }
    }
  }

  /** A ready effect is the next one, and the reference run reaches it. */
  lemma NextEffect(c: Setup, s: nat, r: Run, done: set<NodeId>, q: nat, i: nat)
    requires hide RunBody, RunOrder, RunWaves, RunNode, RoundStep, FetchOne, Eval, Vars, Uses;
             c.Valid() && c.Stops(s) && TraceInv(c, s, r, done, q)
    requires i < |c.b.nodes| && c.b.nodes[i].effect && DepsDone(c.b, i, done)
    ensures q <= i <= s
    ensures forall j: nat | q <= j < i :: !c.b.nodes[j].effect
    ensures Observe(r.evs) == Observe(c.At(i).evs) && r.ctl == c.At(i).ctl
    ensures c.hist + Mutations(r.evs) == HistAt(c, i)
  {
    hide FetchOne, Prepare, Eval, ApplyPipeline, Vars, Setup.At;
    assert i >= q;
    var e := LastEffect(c.b.nodes, i);
    if e.Some? {
      assert e.value in c.b.nodes[i].deps;
      assert e.value < q;
    }
    if s < i { StopIsEffect(c, s); }
    SilentStretch(c, s, q, i);
    MutationsObserved(r.evs);
    MutationsObserved(c.At(i).evs);
  }

  lemma StopIsEffect(c: Setup, s: nat)
    requires hide *; c.Valid() && c.Stops(s) && s < |c.b.nodes|
    ensures c.b.nodes[s].effect
  {
    hide RunBody, RunOrder, RunWaves, RunNode, RunLoop, RunMatch, RunTail, NodeStep, RoundStep, LaunchTo, FetchOne,
      Prepare, EvalPath, ApplyPipeline, Vars, KindVars, BodyVars, Uses, DepsOf, Eval;
    var n := c.b.nodes[s];
    AtStep(c, s);
    if !n.effect {
      assert QuietKind(n.kind);
      if IsFetch(c.b, s) { SingleRound(c.p, c.b, s, c.At(s), c.hist); }
      else { SilentNode(c.p, InOrder, c.fuel, c.b, n, c.At(s).env, HistAt(c, s)); }
    }
  }

  /** When returns come last and the reference run succeeds, it completes every node that is not
      an effect. */
  lemma SilentReached(c: Setup, s: nat, i: nat)
    requires hide *; c.Valid() && c.Stops(s) && c.Good() && i < |c.b.nodes| && !c.b.nodes[i].effect
    ensures i < s
  {
    hide *;
    if s < |c.b.nodes| {
      StopCanReturn(c, s);
      StopIsEffect(c, s);
    }
  }

  lemma StopCanReturn(c: Setup, s: nat)
    requires c.Valid() && c.Stops(s) && c.Good() && s < |c.b.nodes|
    ensures s == |c.b.nodes| - 1
  {
    hide RunBody, RunOrder, RunWaves, RunNode, RunLoop, RunMatch, RunTail, NodeStep, RoundStep, LaunchTo, FetchOne,
      Prepare, EvalPath, Eval, ApplyPipeline, Vars, KindVars, BodyVars, Uses, DepsOf, Ready;
    AtStep(c, s);
    if IsFetch(c.b, s) { SingleRound(c.p, c.b, s, c.At(s), c.hist); }
    else { ReturnComesFrom(c.p, InOrder, c.fuel, c.b, c.b.nodes[s], c.At(s).env, HistAt(c, s)); }
  }

  lemma ReturnComesFrom(p: Prog, mode: Mode, fuel: nat, b: Body, n: Node, env: Env, hist: seq<Request>)
    ensures RunNode(p, mode, fuel, b, n, env, hist).ctl.Return? ==> CanReturn(n.kind)
  {
    hide FetchOne, Prepare, Eval, ApplyPipeline, Vars;
    match n.kind {
      case ForEachN(fe) =>
        var v := Eval(fe.iter, env, None);
        if v.val.Some? {
          LoopReturns(p, mode, fuel, fe, v.val.value.Items(), |v.val.value.Items()|, env, hist);
        }
      case MatchN(m) => MatchNeverReturns(p, mode, fuel, m, b, env, hist, MAX_RETRIES);
      case ExprN(e) => assert !RunExpr(p, mode, fuel, n, e, env, hist).ctl.Return?;
      case _ =>
    }
  }

  lemma {:induction false} LoopReturns(p: Prog, mode: Mode, fuel: nat, fe: ForEachIr, items: seq<Value>, k: nat,
      env: Env, hist: seq<Request>)
    requires hide *; k <= |items|
    ensures RunLoop(p, mode, fuel, fe, items, k, env, hist).ctl.Return? ==> fe.canReturn
    ensures RunLoop(p, mode, fuel, fe, items, k, env, hist).ctl.Next? ==>
              RunLoop(p, mode, fuel, fe, items, k, env, hist).ctl == Next(None)
  {
    hide FetchOne, Prepare, Eval, ApplyPipeline, Vars;
    if k > 0 { LoopReturns(p, mode, fuel, fe, items, k - 1, env, hist); }
  }

  lemma RefetchNeverReturns(w: World, m: MatchIr, b: Body, env: Env, hist: seq<Request>)
    ensures !Refetch(w, m, b, env, hist).ctl.Return?
  {
    hide Prepare, EvalPath, Eval, ApplyPipeline, Vars, DepsOf, FetchOne;
  }

  lemma {:induction false} MatchNeverReturns(p: Prog, mode: Mode, fuel: nat, m: MatchIr, b: Body, env: Env,
      hist: seq<Request>, attempts: nat)
    ensures !RunMatch(p, mode, fuel, m, b, env, hist, attempts).ctl.Return?
    decreases attempts
  {
    hide Eval, MatchPattern, RunBody, RunEffects, Refetch, Mutations, InsertAll, Prints, FirstArm;
    var v := Eval(m.scrutinee, env, None);
    if v.val.Some? && attempts > 0 {
      var chosen := FirstArm(m.arms, v.val.value);
      if chosen.Some? {
        FirstArmIn(m.arms, v.val.value);
        match chosen.value.body {
          case ValueArm(_) =>
          case BodyArm(_) =>
          case RetryArm(_) =>
            var inner := InsertAll(env, MatchPattern(chosen.value.pattern, v.val.value).value);
            var first := Refetch(p.world, m, b, inner, hist);
            RefetchNeverReturns(p.world, m, b, inner, hist);
            MatchNeverReturns(p, mode, fuel, m, b, first.env, hist + Mutations(first.evs), attempts - 1);
        }
      }
    }
  }
}
