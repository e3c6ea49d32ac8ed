/** The static request-cost analysis against the executor: what it reports bounds every run. */
module CostBounds {
  import opened Wrappers
  import opened Ast
  import opened Values
  import opened Evaluator
  import opened Ir
  import opened Exec
  import opened Traces
  import opened Costs
  import opened Metering

  // ---------- the programs the bound is about ----------

  /** Only live nodes are scheduled, each at most once. */
  ghost predicate LaidOut(b: Body) {
    && (forall k: nat, i: nat {:trigger i in b.waves[k]} | k < |b.waves| && i in b.waves[k] ::
          i < |b.nodes| && b.nodes[i].live)
    && (forall k: nat, x: nat, y: nat | k < |b.waves| && x < y < |b.waves[k]| :: b.waves[k][x] != b.waves[k][y])
    && (forall k: nat, l: nat, i: nat | k < l < |b.waves| && i in b.waves[k] :: i !in b.waves[l])
  }

  /** Laid out, in every nested body too. */
  ghost predicate Laid(b: Body)
    decreases b
  {
    LaidOut(b) && forall n | n in b.nodes :: LaidKind(n.kind)
  }

  ghost predicate LaidKind(k: NodeKind)
    decreases k
  {
    match k
    case MatchN(m) => forall a | a in m.arms :: LaidArm(a)
    case ForEachN(fe) => Laid(fe.body)
    case _ => true
  }

  ghost predicate LaidArm(a: ArmIr)
    decreases a
  {
    a.body.BodyArm? ==> assert a.body < a; Laid(a.body.b)
  }

  ghost predicate LaidProg(p: Prog) {
    && (forall ids: seq<NodeId>, env: Env :: multiset(p.world.arrival(ids, env)) == multiset(ids))
    && forall f | f in p.flows :: Laid(f.body)
  }

  predicate Retries(arms: seq<ArmIr>) {
    exists a :: a in arms && a.body.RetryArm?
  }

  /** Nodes at two places of one wave that both issue requests are both fetches. */
  ghost predicate Unmixed(flows: seq<Flow>, b: Body, visiting: seq<string>) {
    hide *;
    forall k: nat, x: nat, y: nat | k < |b.waves| && x < |b.waves[k]| && y < |b.waves[k]| && x != y ::
      && NodeCost(flows, b, b.waves[k][x], visiting).depth > 0
      && NodeCost(flows, b, b.waves[k][y], visiting).depth > 0
      ==> IsFetch(b, b.waves[k][x]) && IsFetch(b, b.waves[k][y])
  }

  /** The walk of the analysis meets none of the things it does not account for: a call to a flow
      that is already on the stack; beside a retry arm, a block arm that may issue more than one
      request; and, for rounds and time, any retry arm, or a wave that issues requests from a fetch
      and from another node. */
  ghost predicate Covered(flows: seq<Flow>, b: Body, visiting: seq<string>, timed: bool)
    decreases Unvisited(flows, visiting), b, 1
  {
    hide *;
    && (timed ==> Unmixed(flows, b, visiting))
    && forall n | n in b.nodes && n.live :: CoveredKind(flows, n.kind, visiting, timed)
  }

  ghost predicate CoveredKind(flows: seq<Flow>, k: NodeKind, visiting: seq<string>, timed: bool)
    decreases Unvisited(flows, visiting), k, 0
  {
    hide *;
    match k
    case ExprN(e) => CoveredCall(flows, e, visiting, timed)
    case MatchN(m) =>
      && (Retries(m.arms) ==> !timed && forall a | a in m.arms
         && a.body.BodyArm? :: ArmCost(flows, a, visiting).requests <= 1)
      && forall a | a in m.arms :: CoveredArm(flows, a, visiting, timed)
    case ForEachN(fe) => Covered(flows, fe.body, visiting, timed)
    case _ => true
  }

  ghost predicate CoveredArm(flows: seq<Flow>, a: ArmIr, visiting: seq<string>, timed: bool)
    decreases Unvisited(flows, visiting), a, 0
  {
    hide *;
    a.body.BodyArm? ==> assert a.body < a; Covered(flows, a.body.b, visiting, timed)
  }

  ghost predicate CoveredCall(flows: seq<Flow>, e: Expr, visiting: seq<string>, timed: bool)
    decreases Unvisited(flows, visiting), e, 0
  {
    hide *;
    var name := CallName(e);
    name.Some? && FindFlow(flows, name.value).Some? ==>
      name.value !in visiting
      && (Entered(flows, visiting, name.value);
          Covered(flows, FindFlow(flows, name.value).value.body, visiting + [name.value], timed))
  }

  // ---------- adding up the requests of the nodes run so far ----------

  /** What the nodes in `done` may send, among the first `n`. */
  ghost function Spent(flows: seq<Flow>, b: Body, visiting: seq<string>, n: nat, done: set<NodeId>): nat
    requires n <= |b.nodes|
  {
    hide *;
    if n == 0 then 0
    else Spent(flows, b, visiting, n - 1, done) + if n - 1 in done then NodeCost(flows, b, n - 1,
        visiting).requests else 0
  }

  lemma {:induction false} SpentAtMost(flows: seq<Flow>, b: Body, visiting: seq<string>, n: nat, done: set<NodeId>)
    requires hide *; n <= |b.nodes|
    ensures Spent(flows, b, visiting, n, done) <= NodesCost(flows, b, n, visiting).requests
  {
    hide NodeCost;
    if n > 0 { SpentAtMost(flows, b, visiting, n - 1, done); }
  }

  lemma {:induction false} SpentOneMore(flows: seq<Flow>, b: Body, visiting: seq<string>, n: nat, done: set<NodeId>,
      i: NodeId)
    requires hide *; n <= |b.nodes| && i !in done
    ensures Spent(flows, b, visiting, n, done + {i})
         == Spent(flows, b, visiting, n, done) + if i < n then NodeCost(flows, b, i, visiting).requests else 0
  {
    hide NodeCost;
    if n > 0 { SpentOneMore(flows, b, visiting, n - 1, done, i); }
  }

  lemma {:induction false} NotUnbounded(flows: seq<Flow>, b: Body, visiting: seq<string>, n: nat, i: nat)
    requires hide *; i < n <= |b.nodes| && !NodesCost(flows, b, n, visiting).unbounded
    ensures !NodeCost(flows, b, i, visiting).unbounded
  {
    hide NodeCost;
    if i < n - 1 { NotUnbounded(flows, b, visiting, n - 1, i); }
  }

  lemma {:induction false} InWaveCost(flows: seq<Flow>, b: Body, wave: seq<NodeId>, k: nat, visiting: seq<string>,
      x: nat)
    requires hide *; x < k <= |wave|
    ensures var c, n := WaveCost(flows, b, wave, k, visiting), NodeCost(flows, b, wave[x], visiting);
            n.depth <= c.depth && (c.latency.Some? ==> n.latency.Some? && n.latency.value <= c.latency.value)
  {
    hide NodeCost;
    if x < k - 1 { InWaveCost(flows, b, wave, k - 1, visiting, x); }
  }

  lemma {:induction false} InArmsCost(flows: seq<Flow>, arms: seq<ArmIr>, k: nat, visiting: seq<string>, x: nat)
    requires hide *; x < k <= |arms|
    ensures var c, a := ArmsCost(flows, arms, k, visiting), ArmCost(flows, arms[x], visiting);
            && a.requests <= c.requests && a.depth <= c.depth && (a.unbounded ==> c.unbounded)
               && a.parallel <= c.parallel
            && (c.latency.Some? ==> a.latency.Some? && a.latency.value <= c.latency.value)
  {
    hide ArmCost;
    if x < k - 1 { InArmsCost(flows, arms, k - 1, visiting, x); }
  }

  lemma ArmWithin(flows: seq<Flow>, arms: seq<ArmIr>, arm: ArmIr, visiting: seq<string>)
    requires hide *; arm in arms
    ensures var c, a := ArmsCost(flows, arms, |arms|, visiting), ArmCost(flows, arm, visiting);
            && a.requests <= c.requests && a.depth <= c.depth && (a.unbounded ==> c.unbounded)
               && a.parallel <= c.parallel
            && (c.latency.Some? ==> a.latency.Some? && a.latency.value <= c.latency.value)
  {
    hide *;
    var x: nat :| x < |arms| && arms[x] == arm;
    InArmsCost(flows, arms, |arms|, visiting, x);
  }

  // ---------- the run ----------

  /** A run of a body that the analysis covers. */
  datatype Case = Case(
    p: Prog, fuel: nat, b: Body, env: Env, hist: seq<Request>, visiting: seq<string>, timed: bool, took: Sent -> nat)
  {
    ghost predicate Valid() {
      && LaidProg(p) && Laid(b) && Covered(p.flows, b, visiting, timed) && Punctual(took)
      && !BodyCost(p.flows, b, visiting).unbounded
    }

    ghost function NodeAt(i: nat): Cost { NodeCost(p.flows, b, i, visiting) }

    ghost function Total(done: set<NodeId>): nat { hide *; Spent(p.flows, b, visiting, |b.nodes|, done) }

    ghost function Wave(k: nat): Cost
      requires k < |b.waves|
    {
      hide *;
      WaveCost(p.flows, b, b.waves[k], |b.waves[k]|, visiting)
    }
  }

  /** The nodes in the first `k` waves. */
  ghost function SpentBy(b: Body, k: nat): set<NodeId>
    requires k <= |b.waves|
  {
    if k == 0 then {} else SpentBy(b, k - 1) + Ids(b.waves[k - 1])
  }

  lemma {:induction false} DoneEarlier(b: Body, k: nat, i: NodeId) returns (w: nat)
    requires k <= |b.waves| && i in SpentBy(b, k)
    ensures w < k && i in b.waves[w]
  {
    if i in b.waves[k - 1] { w := k - 1; } else { w := DoneEarlier(b, k - 1, i); }
  }

  lemma NotYetDone(b: Body, k: nat, i: NodeId)
    requires LaidOut(b) && k < |b.waves| && i in b.waves[k]
    ensures i !in SpentBy(b, k) && i < |b.nodes| && b.nodes[i].live
  {
    hide SpentBy;
    if i in SpentBy(b, k) {
      var w := DoneEarlier(b, k, i);
    }
  }

  lemma FetchCost(flows: seq<Flow>, b: Body, i: NodeId, visiting: seq<string>)
    requires IsFetch(b, i) && b.nodes[i].live
    ensures NodeCost(flows, b, i, visiting) == Cost(1, 0, 1, b.nodes[i].kind.f.latency, false)
  {
  }

  /** Every live fetch of a round is paid for. */
  lemma {:induction false} RoundSpent(c: Case, done: set<NodeId>, ids: seq<NodeId>)
    requires forall i | i in ids :: i !in done && IsFetch(c.b, i) && c.b.nodes[i].live
    requires forall x: nat, y: nat | x < y < |ids| :: ids[x] != ids[y]
    ensures c.Total(done + Ids(ids)) == c.Total(done) + |ids|
  {
    if ids == [] {
      assert done + Ids(ids) == done;
    } else {
      var init, last := ids[..|ids| - 1], ids[|ids| - 1];
      RoundSpent(c, done, init);
      assert last !in init;
      assert done + Ids(ids) == (done + Ids(init)) + {last};
      SpentOneMore(c.p.flows, c.b, c.visiting, |c.b.nodes|, done + Ids(init), last);
    }
  }

  lemma {:induction false} LaunchSent(w: World, b: Body, arrive: seq<NodeId>, k: nat, env: Env, hist: seq<Request>)
    requires hide FetchOne, Eval, ApplyPipeline; k <= |arrive|
    ensures var l := LaunchTo(w, b, arrive, k, env, hist);
            && |l.sent| <= k
            && forall s | s in l.sent ::
               exists i ::
                 i in arrive && IsFetch(b, i)
                 && s.latency == b.nodes[i].kind.f.latency
  {
    hide Prepare, Eval, ApplyPipeline, MutationsOf;
    if k > 0 {
      LaunchSent(w, b, arrive, k - 1, env, hist);
      var l, id := LaunchTo(w, b, arrive, k - 1, env, hist), arrive[k - 1];
      if IsFetch(b, id) {
        SentLatency(w, b.nodes[id].kind.f, env, hist + MutationsOf(l.sent));
        hide FetchOne;
        assert id in arrive;
      }
    }
  }

  lemma SentLatency(w: World, f: FetchIr, env: Env, hist: seq<Request>)
    ensures hide *; FetchOne(w, f, env, hist).sent.Some? ==> FetchOne(w, f, env, hist).sent.value.latency == f.latency
  {
    hide Eval, ApplyPipeline;
  }

  lemma {:induction false} SlowestAtMost(sent: seq<Sent>, took: Sent -> nat, most: nat)
    requires forall s | s in sent :: took(s) <= most
    ensures Slowest(sent, took) <= most
  {
    if sent != [] { SlowestAtMost(sent[..|sent| - 1], took, most); }
  }

  lemma {:induction false} CollectSendsNothing(b: Body, ids: seq<NodeId>, k: nat, vals: map<NodeId, Option<Value>>,
      r: Run)
    requires k <= |ids|
    ensures Collect(b, ids, k, vals, r).evs == r.evs
  {
    if k > 0 { CollectSendsNothing(b, ids, k - 1, vals, r); }
  }

  /** What the events of wave `k` may be once its round and the first `j` places are done. */
  ghost predicate InWave(c: Case, k: nat, j: nat, evs: seq<Event>)
    requires k < |c.b.waves| && j <= |c.b.waves[k]|
  {
    hide *;
    && Rounds(evs) <= c.Wave(k).depth
    && (c.Wave(k).latency.Some? ==> Elapsed(evs, c.took) <= c.Wave(k).latency.value)
    && (Rounds(evs) > 0 ==> exists x: nat :: Requested(c, k, j, x))
  }

  /** Place `x` of the wave has had its turn and may have issued requests. */
  ghost predicate Requested(c: Case, k: nat, j: nat, x: nat)
    requires k < |c.b.waves| && j <= |c.b.waves[k]|
  {
    hide *;
    x < |c.b.waves[k]| && c.NodeAt(c.b.waves[k][x]).depth > 0 && (IsFetch(c.b, c.b.waves[k][x]) || x < j)
  }

  ghost function DoneIn(c: Case, k: nat, j: nat): set<NodeId>
    requires k < |c.b.waves| && j <= |c.b.waves[k]|
  {
    SpentBy(c.b, k) + Ids(FetchIds(c.b, c.b.waves[k])) + Ids(c.b.waves[k][..j])
  }

  lemma RoundBound(c: Case, k: nat, r: Run) returns (more: seq<Event>)
    requires hide *; c.Valid() && k < |c.b.waves|
    ensures var ids := FetchIds(c.b, c.b.waves[k]);
            RoundStep(c.p, c.b, ids, c.p.world.arrival(ids, r.env), r, c.hist).evs == r.evs + more
    ensures Sends(more) + c.Total(SpentBy(c.b, k)) <= c.Total(DoneIn(c, k, 0))
    ensures c.timed ==> InWave(c, k, 0, more)
  {
    hide RunNode, RunLoop, RunMatch, LaunchTo, FetchOne, Prepare, Eval, ApplyPipeline;
    var wave := c.b.waves[k];
    var ids := FetchIds(c.b, wave);
    FetchIdsMembers(c.b, wave);
    FetchIdsDistinct(c.b, wave);
    forall i | i in ids ensures i !in SpentBy(c.b, k) && c.b.nodes[i].live { NotYetDone(c.b, k, i); }
    RoundSpent(c, SpentBy(c.b, k), ids);
    assert DoneIn(c, k, 0) == SpentBy(c.b, k) + Ids(ids);
    more := [];
    if r.ctl.Next? {
      var arrive := c.p.world.arrival(ids, r.env);
      var hist := c.hist + Mutations(r.evs);
      var l := LaunchTo(c.p.world, c.b, arrive, |arrive|, r.env, hist);
      more := LaunchEvents(l);
      assert |multiset(arrive)| == |multiset(ids)| == |ids|;
      LaunchSent(c.p.world, c.b, arrive, |arrive|, r.env, hist);
      LaunchMeters(l, c.took);
      CollectSendsNothing(c.b, ids, |ids|, l.vals, r.(evs := r.evs + more));
      if l.sent != [] { LaunchInWave(c, k, ids, arrive, l); }
    }
  }

  /** A round of a wave stays within the wave's cost. */
  lemma LaunchInWave(c: Case, k: nat, ids: seq<NodeId>, arrive: seq<NodeId>, l: Launch)
    requires hide RunBody, RunOrder, RunWaves, RunNode, RoundStep, FetchOne, Eval;
             c.Valid() && k < |c.b.waves| && l.sent != []
    requires forall i | i in ids :: i in c.b.waves[k] && IsFetch(c.b, i) && c.b.nodes[i].live
    requires multiset(arrive) == multiset(ids)
    requires forall s | s in l.sent ::
             exists i ::
               i in arrive && IsFetch(c.b, i)
               && s.latency == c.b.nodes[i].kind.f.latency
    ensures InWave(c, k, 0, LaunchEvents(l))
  {
    hide RunBody, RunOrder, RunWaves, RunNode, RunLoop, RunMatch, RunTail, NodeStep, RoundStep, LaunchTo, FetchOne,
      Prepare, EvalPath, Eval, ApplyPipeline, KindVars, BodyVars;
    var wave := c.b.waves[k];
    LaunchMeters(l, c.took);
    forall s | s in l.sent
      ensures c.Wave(k).latency.Some? ==> c.took(s) <= c.Wave(k).latency.value
      ensures exists x: nat :: Requested(c, k, 0, x)
      ensures c.Wave(k).depth >= 1
    {
      var i :| i in arrive && IsFetch(c.b, i) && s.latency == c.b.nodes[i].kind.f.latency;
      assert i in multiset(arrive);
      assert i in ids;
      var x: nat :| x < |wave| && wave[x] == i;
      FetchCost(c.p.flows, c.b, i, c.visiting);
      InWaveCost(c.p.flows, c.b, wave, |wave|, c.visiting, x);
      assert Requested(c, k, 0, x);
    }
    assert l.sent[0] in l.sent;
    if c.Wave(k).latency.Some? { SlowestAtMost(l.sent, c.took, c.Wave(k).latency.value); }
  }

  lemma {:induction false} BodyBound(c: Case)
    requires c.Valid()
    ensures Bounded(RunBody(c.p, Waves, c.fuel, c.b, c.env, c.hist).evs, BodyCost(c.p.flows, c.b, c.visiting), c.timed,
            c.took)
    decreases c.fuel, c.b, 9, 0
  {
    hide RunNode, RunLoop, RunMatch, LaunchTo, FetchOne, Prepare, Eval, ApplyPipeline;
    WavesBound(c, |c.b.waves|);
    SpentAtMost(c.p.flows, c.b, c.visiting, |c.b.nodes|, SpentBy(c.b, |c.b.waves|));
  }

  lemma {:induction false} WavesBound(c: Case, k: nat)
    requires hide *; c.Valid() && k <= |c.b.waves|
    ensures var evs, w := RunWaves(c.p, c.fuel, c.b, k, c.env, c.hist).evs, WavesCost(c.p.flows, c.b, k, c.visiting);
            && Sends(evs) <= c.Total(SpentBy(c.b, k))
            && (c.timed ==> Rounds(evs) <= w.depth && (w.latency.Some? ==> Elapsed(evs, c.took) <= w.latency.value))
    decreases c.fuel, c.b, 8, k
  {
    hide RunNode, RunLoop, RunMatch, LaunchTo, FetchOne, Prepare, Eval, ApplyPipeline, FetchIds, InWave, Laid,
      Covered, BodyCost, NodeCost, Spent, Sends, Rounds, Elapsed, RoundStep, RunTail;
    if k == 0 {
      NothingRun(c.took);
    } else {
      WavesBound(c, k - 1);
      var r := RunWaves(c.p, c.fuel, c.b, k - 1, c.env, c.hist);
      var first := RoundBound(c, k - 1, r);
      var wave := c.b.waves[k - 1];
      var ids := FetchIds(c.b, wave);
      var s := RoundStep(c.p, c.b, ids, c.p.world.arrival(ids, r.env), r, c.hist);
      var more := TailBound(c, k - 1, |wave|, r.evs, first, s);
      WaveDone(c, k - 1);
      MetersAppend(r.evs, more, c.took);
      if c.timed { InWaveBounds(c, k - 1, |wave|, more); }
    }
  }

  lemma NothingRun(took: Sent -> nat)
    ensures Sends([]) == Rounds([]) == Elapsed([], took) == 0
  {
  }

  lemma InWaveBounds(c: Case, k: nat, j: nat, evs: seq<Event>)
    requires hide *; k < |c.b.waves| && j <= |c.b.waves[k]| && InWave(c, k, j, evs)
    ensures Rounds(evs) <= c.Wave(k).depth
    ensures c.Wave(k).latency.Some? ==> Elapsed(evs, c.took) <= c.Wave(k).latency.value
  {
  }

  lemma WaveDone(c: Case, k: nat)
    requires hide *; c.Valid() && k < |c.b.waves|
    ensures DoneIn(c, k, |c.b.waves[k]|) == SpentBy(c.b, k + 1)
  {
    hide RunBody, RunOrder, RunWaves, RunNode, RunLoop, RunMatch, RunTail, NodeStep, RoundStep, LaunchTo, FetchOne,
      Prepare, EvalPath, Eval, ApplyPipeline, KindVars, BodyVars, LaidKind, Covered, BodyCost;
    var wave := c.b.waves[k];
    assert wave[..|wave|] == wave;
    FetchIdsMembers(c.b, wave);
    FetchIdsDistinct(c.b, wave);
  }

  lemma TailDone(c: Case, k: nat, j: nat)
    requires hide *; c.Valid() && k < |c.b.waves| && 0 < j <= |c.b.waves[k]|
    ensures var i := c.b.waves[k][j - 1];
            && i < |c.b.nodes| && c.b.nodes[i].live
            && c.Total(DoneIn(c, k, j))
               == c.Total(DoneIn(c, k, j - 1)) + if IsFetch(c.b, i) then 0 else c.NodeAt(i).requests
  {
    hide RunBody, RunOrder, RunWaves, RunNode, RunLoop, RunMatch, RunTail, NodeStep, RoundStep, LaunchTo, FetchOne,
      Prepare, EvalPath, Eval, ApplyPipeline, KindVars, BodyVars;
    var wave, i := c.b.waves[k], c.b.waves[k][j - 1];
    NotYetDone(c.b, k, i);
    FetchIdsMembers(c.b, wave);
    FetchIdsDistinct(c.b, wave);
    assert wave[..j] == wave[..j - 1] + [i];
    if IsFetch(c.b, i) {
      assert DoneIn(c, k, j) == DoneIn(c, k, j - 1);
    } else {
      assert DoneIn(c, k, j) == DoneIn(c, k, j - 1) + {i};
      assert i !in wave[..j - 1];
      SpentOneMore(c.p.flows, c.b, c.visiting, |c.b.nodes|, DoneIn(c, k, j - 1), i);
    }
  }

  /** A node that is not a fetch issues requests only when nothing else in its wave does. */
  lemma TailInWave(c: Case, k: nat, j: nat, so: seq<Event>, m: seq<Event>)
    requires hide *; Unmixed(c.p.flows, c.b, c.visiting) && k < |c.b.waves| && 0 < j <= |c.b.waves[k]|
    requires InWave(c, k, j - 1, so) && !IsFetch(c.b, c.b.waves[k][j - 1])
    requires Bounded(m, c.NodeAt(c.b.waves[k][j - 1]), true, c.took)
    ensures InWave(c, k, j, so + m)
  {
    hide NodeCost, WaveCost;
    var wave, i := c.b.waves[k], c.b.waves[k][j - 1];
    MetersAppend(so, m, c.took);
    InWaveCost(c.p.flows, c.b, wave, |wave|, c.visiting, j - 1);
    if Rounds(so) > 0 {
      var x: nat :| Requested(c, k, j - 1, x);
      assert NodeCost(c.p.flows, c.b, wave[x], c.visiting).depth > 0;
      assert c.NodeAt(i).depth == 0;
      NoRounds(m, c.took);
      assert Requested(c, k, j, x);
    } else {
      NoRounds(so, c.took);
      if Rounds(m) > 0 { assert Requested(c, k, j, j - 1); } else { NoRounds(m, c.took); }
    }
  }

  lemma StillInWave(c: Case, k: nat, j: nat, so: seq<Event>)
    requires hide *; k < |c.b.waves| && 0 < j <= |c.b.waves[k]| && InWave(c, k, j - 1, so)
    ensures InWave(c, k, j, so)
  {
    hide NodeCost, WaveCost;
    if Rounds(so) > 0 {
      var x: nat :| Requested(c, k, j - 1, x);
      assert Requested(c, k, j, x);
    }
  }

  lemma {:induction false} TailBound(c: Case, k: nat, j: nat, before: seq<Event>, first: seq<Event>,
      s: Run) returns (more: seq<Event>)
    requires hide *; c.Valid() && k < |c.b.waves| && j <= |c.b.waves[k]|
    requires s.evs == before + first
    requires Sends(first) + c.Total(SpentBy(c.b, k)) <= c.Total(DoneIn(c, k, 0))
    requires c.timed ==> InWave(c, k, 0, first)
    ensures RunTail(c.p, c.fuel, c.b, c.b.waves[k], j, s, c.hist).evs == before + more
    ensures Sends(more) + c.Total(SpentBy(c.b, k)) <= c.Total(DoneIn(c, k, j))
    ensures c.timed ==> InWave(c, k, j, more)
    decreases c.fuel, c.b, 7, j
  {
    hide RunLoop, RunMatch, LaunchTo, FetchOne, Prepare, Eval, ApplyPipeline, InWave, DoneIn, SpentBy, Laid,
      Covered, RunNode, BodyCost, Spent, Sends;
    if j == 0 {
      more := first;
    } else {
      var so := TailBound(c, k, j - 1, before, first, s);
      var wave := c.b.waves[k];
      var t := RunTail(c.p, c.fuel, c.b, wave, j - 1, s, c.hist);
      var i := wave[j - 1];
      TailDone(c, k, j);
      if c.timed { StillInWave(c, k, j, so); }
      more := so;
      if !IsFetch(c.b, i) && t.ctl.Next? {
        var h := c.hist + Mutations(t.evs);
        var m := RunNode(c.p, Waves, c.fuel, c.b, c.b.nodes[i], t.env, h);
        assert c.b.nodes[i] < c.b;
        NodeBound(c, i, t.env, h);
        more := so + m.evs;
        MetersAppend(so, m.evs, c.took);
        assert before + so + m.evs == before + more;
        if c.timed { CaseUnmixed(c); TailInWave(c, k, j, so, m.evs); }
      }
    }
  }

  lemma CaseUnmixed(c: Case)
    requires c.Valid() && c.timed
    ensures Unmixed(c.p.flows, c.b, c.visiting)
  {
    hide RunBody, RunOrder, RunWaves, RunNode, RunLoop, RunMatch, RunTail, NodeStep, RoundStep, LaunchTo, FetchOne,
      Prepare, EvalPath, Eval, ApplyPipeline, KindVars, BodyVars;
  }

  /** What the walk knows about a live node. */
  lemma CoveredNode(c: Case, i: nat)
    requires hide *; c.Valid() && i < |c.b.nodes| && c.b.nodes[i].live
    ensures LaidKind(c.b.nodes[i].kind) && CoveredKind(c.p.flows, c.b.nodes[i].kind, c.visiting, c.timed)
    ensures c.NodeAt(i) == KindCost(c.p.flows, c.b.nodes[i].kind, c.visiting) && !c.NodeAt(i).unbounded
  {
    hide RunBody, RunOrder, RunWaves, RunNode, RunLoop, RunMatch, RunTail, NodeStep, RoundStep, LaunchTo, FetchOne,
      Prepare, EvalPath, Eval, ApplyPipeline, KindVars, BodyVars, Unmixed;
    assert c.b.nodes[i] in c.b.nodes;
    NotUnbounded(c.p.flows, c.b, c.visiting, |c.b.nodes|, i);
  }

  lemma {:induction false} NodeBound(c: Case, i: nat, env: Env, hist: seq<Request>)
    requires hide *; c.Valid() && i < |c.b.nodes| && c.b.nodes[i].live && !IsFetch(c.b, i)
    ensures Bounded(RunNode(c.p, Waves, c.fuel, c.b, c.b.nodes[i], env, hist).evs, c.NodeAt(i), c.timed, c.took)
    decreases c.fuel, c.b.nodes[i], 5, 0
  {
    hide FetchOne, Prepare, ApplyPipeline;
    CoveredNode(c, i);
    hide Laid, Covered, Bounded, BodyCost, Eval, RunMatch, RunLoop, RunExpr, ArmsCost, NodeCost;
    var n := c.b.nodes[i];
    match n.kind {
      case ExprN(e) => ExprBound(c, n, e, env, hist);
      case MatchN(m) => MatchBound(c, m, env, hist);
      case ForEachN(fe) =>
        var v := Eval(fe.iter, env, None);
        if v.val.Some? {
          var items := v.val.value.Items();
          LoopBound(c, fe, items, |items|, env, hist);
          var r := RunLoop(c.p, Waves, c.fuel, fe, items, |items|, env, hist);
          SilentLoop(c, fe, r.evs);
          PrintsFirst(v.out, r.evs, c.NodeAt(i), c.timed, c.took);
        } else {
          OnlyPrints(v.out, c.NodeAt(i), c.timed, c.took);
        }
      case LetN(e) => OnlyPrints(Eval(e, env, None).out, c.NodeAt(i), c.timed, c.took);
      case ScatterN(_, _, e) => OnlyPrints(Eval(e, env, None).out, c.NodeAt(i), c.timed, c.took);
      case AssertN(e) => OnlyPrints(Eval(e, env, None).out, c.NodeAt(i), c.timed, c.took);
      case LogN(e) =>
        var v := Eval(e, env, None);
        OnlyPrints(v.out, c.NodeAt(i), c.timed, c.took);
        if v.val.Some? {
          var lines := v.out + [v.val.value.Display()];
          assert Prints(lines) == Prints(v.out) + [Print(v.val.value.Display())];
          OnlyPrints(lines, c.NodeAt(i), c.timed, c.took);
        }
      case ReturnN(e) =>
        OnlyPrints((if e.None? then Done(Value.Null) else Eval(e.value, env, None)).out, c.NodeAt(i), c.timed, c.took);
      case FetchN(_) =>
    }
  }

  lemma SilentLoop(c: Case, fe: ForEachIr, evs: seq<Event>)
    requires Sends(evs) == 0
    ensures Bounded(evs, KindCost(c.p.flows, ForEachN(fe), c.visiting), c.timed, c.took)
  {
    hide BodyCost;
    NothingSent(evs, c.took);
  }

  lemma {:induction false} ExprBound(c: Case, n: Node, e: Expr, env: Env, hist: seq<Request>)
    requires LaidProg(c.p) && Punctual(c.took) && CoveredCall(c.p.flows, e, c.visiting, c.timed)
    requires !CallCost(c.p.flows, e, c.visiting).unbounded
    ensures Bounded(RunExpr(c.p, Waves, c.fuel, n, e, env, hist).evs, CallCost(c.p.flows, e, c.visiting), c.timed,
            c.took)
    decreases c.fuel, n, 4, 0
  {
    hide RunOrder, RunWaves, RunNode, RunLoop, RunMatch, RunTail, NodeStep, RoundStep, LaunchTo, FetchOne, Prepare,
      EvalPath, ApplyPipeline, KindVars, BodyVars, Laid, Covered, Bounded, BodyCost, Eval, RunBody;
    var cost := CallCost(c.p.flows, e, c.visiting);
    var name := CallName(e);
    if name.Some? && FindFlow(c.p.flows, name.value).Some? {
      var args := ArgValues(e.args, env);
      OnlyPrints(args.out, cost, c.timed, c.took);
      if args.val.Some? && c.fuel > 0 {
        var flow := FindFlow(c.p.flows, name.value).value;
        Entered(c.p.flows, c.visiting, name.value);
        var inner := Case(c.p, c.fuel - 1, flow.body, Env(ParamEnv(flow.params, args.val.value), env.os), hist,
                          c.visiting + [name.value], c.timed, c.took);
        BodyBound(inner);
        PrintsFirst(args.out, RunBody(c.p, Waves, c.fuel - 1, flow.body, inner.env, hist).evs, cost, c.timed, c.took);
      }
    } else {
      OnlyPrints(Eval(e, env, None).out, cost, c.timed, c.took);
    }
  }

  /** A loop that the analysis calls bounded sends nothing at all. */
  lemma {:induction false} LoopBound(c: Case, fe: ForEachIr, items: seq<Value>, k: nat, env: Env, hist: seq<Request>)
    requires hide *; k <= |items| && LaidProg(c.p) && Punctual(c.took) && Laid(fe.body)
             && Covered(c.p.flows, fe.body, c.visiting, c.timed)
    requires !BodyCost(c.p.flows, fe.body, c.visiting).unbounded
             && BodyCost(c.p.flows, fe.body, c.visiting).requests == 0
    ensures Sends(RunLoop(c.p, Waves, c.fuel, fe, items, k, env, hist).evs) == 0
    decreases c.fuel, fe, 3, k
  {
    hide FetchOne, Prepare, Eval, ApplyPipeline, Laid, Covered, BodyCost, RunBody;
    if k > 0 {
      LoopBound(c, fe, items, k - 1, env, hist);
      var r := RunLoop(c.p, Waves, c.fuel, fe, items, k - 1, env, hist);
      if r.ctl.Next? {
        var inner := Case(c.p, c.fuel, fe.body, Insert(r.env, fe.loopVar, items[k - 1]), hist + Mutations(r.evs),
                          c.visiting, c.timed, c.took);
        BodyBound(inner);
        MetersAppend(r.evs, RunBody(c.p, Waves, c.fuel, fe.body, inner.env, inner.hist).evs, c.took);
      }
    }
  }

  /** The events of one arm that is not a retry. */
  lemma {:induction false} ArmBound(c: Case, m: MatchIr, arm: ArmIr, inner: Env, hist: seq<Request>)
    requires hide *; LaidProg(c.p) && Punctual(c.took) && arm in m.arms && arm.body.BodyArm?
    requires LaidArm(arm) && CoveredArm(c.p.flows, arm, c.visiting, c.timed)
    requires !ArmCost(c.p.flows, arm, c.visiting).unbounded
    ensures Bounded(RunBody(c.p, Waves, c.fuel, arm.body.b, inner, hist).evs, ArmCost(c.p.flows, arm, c.visiting),
            c.timed, c.took)
    decreases c.fuel, arm, 2
  {
    hide RunOrder, RunWaves, RunNode, RunLoop, RunMatch, RunTail, NodeStep, RoundStep, LaunchTo, FetchOne, Prepare,
      EvalPath, Eval, ApplyPipeline, KindVars, BodyVars, Laid, Covered, BodyCost, RunBody;
    assert arm.body < arm;
    BodyBound(Case(c.p, c.fuel, arm.body.b, inner, hist, c.visiting, c.timed, c.took));
  }

  ghost predicate MatchCovered(c: Case, m: MatchIr) {
    hide *;
    && LaidProg(c.p) && Punctual(c.took)
    && (forall a | a in m.arms :: LaidArm(a) && CoveredArm(c.p.flows, a, c.visiting, c.timed))
    && !ArmsCost(c.p.flows, m.arms, |m.arms|, c.visiting).unbounded
    && (Retries(m.arms) ==> !c.timed && forall a | a in m.arms
       && a.body.BodyArm? :: ArmCost(c.p.flows, a, c.visiting).requests <= 1)
  }

  lemma {:induction false} MatchBound(c: Case, m: MatchIr, env: Env, hist: seq<Request>)
    requires hide *; MatchCovered(c, m)
    ensures Bounded(RunMatch(c.p, Waves, c.fuel, m, c.b, env, hist, MAX_RETRIES).evs,
                    ArmsCost(c.p.flows, m.arms, |m.arms|, c.visiting), c.timed, c.took)
    decreases c.fuel, m, 4, 0
  {
    hide RunBody, RunOrder, RunWaves, RunNode, RunLoop, RunMatch, RunTail, NodeStep, RoundStep, LaunchTo, FetchOne,
      Prepare, EvalPath, Eval, ApplyPipeline;
    if Retries(m.arms) {
      var a :| a in m.arms && a.body.RetryArm?;
      ArmWithin(c.p.flows, m.arms, a, c.visiting);
      RetriesBound(c, m, env, hist, MAX_RETRIES);
    } else {
      OneArmBound(c, m, env, hist, MAX_RETRIES);
    }
  }

  /** With a retry arm, every attempt sends at most one request. */
  lemma {:induction false} RetriesBound(c: Case, m: MatchIr, env: Env, hist: seq<Request>, attempts: nat)
    requires MatchCovered(c, m) && Retries(m.arms)
    ensures Sends(RunMatch(c.p, Waves, c.fuel, m, c.b, env, hist, attempts).evs) <= attempts
    decreases c.fuel, m, 3, attempts
  {
    hide FetchOne, Prepare, ApplyPipeline, Laid, Covered, Eval, MatchPattern, RunBody, Refetch, ArmCost, ArmsCost;
    var v := Eval(m.scrutinee, env, None);
    var out := Prints(v.out);
    PrintsAreFree(v.out, c.took);
    if v.val.Some? && attempts > 0 {
      FirstArmIn(m.arms, v.val.value);
      var chosen := FirstArm(m.arms, v.val.value);
      if chosen.Some? {
        var arm := chosen.value;
        var inner := InsertAll(env, MatchPattern(arm.pattern, v.val.value).value);
        match arm.body {
          case ValueArm(e) =>
            PrintsAreFree(Eval(e, inner, None).out, c.took);
            MetersAppend(out, Prints(Eval(e, inner, None).out), c.took);
          case BodyArm(b) =>
            assert arm < m;
            ArmWithin(c.p.flows, m.arms, arm, c.visiting);
            ArmBound(c, m, arm, inner, hist);
            MetersAppend(out, RunBody(c.p, Waves, c.fuel, b, inner, hist).evs, c.took);
          case RetryArm(effects) => RetryBound(c, m, inner, hist, attempts, v.out, effects);
        }
      }
    }
  }

  lemma {:induction false} RetryBound(c: Case, m: MatchIr, inner: Env, hist: seq<Request>, attempts: nat,
      before: seq<string>, effects: seq<Effect>)
    requires hide *; MatchCovered(c, m) && Retries(m.arms) && attempts > 0
    ensures var waited, first := RunEffects(effects, inner), Refetch(c.p.world, m, c.b, inner, hist);
            var again := RunMatch(c.p, Waves, c.fuel, m, c.b, first.env, hist + Mutations(first.evs), attempts - 1);
            && Sends(Prints(before) + Prints(waited.out)) == 0
            && Sends(Prints(before) + Prints(waited.out) + first.evs) <= 1
            && Sends(Prints(before) + Prints(waited.out) + first.evs + again.evs) <= attempts
    decreases c.fuel, m, 3, attempts, 0
  {
    hide MatchCovered, RunMatch, Refetch, RunEffects, Mutations, Sends, Rounds, Elapsed, Prints;
    var waited, first := RunEffects(effects, inner), Refetch(c.p.world, m, c.b, inner, hist);
    var again := RunMatch(c.p, Waves, c.fuel, m, c.b, first.env, hist + Mutations(first.evs), attempts - 1);
    PrintsAreFree(before, c.took);
    PrintsAreFree(waited.out, c.took);
    MetersAppend(Prints(before), Prints(waited.out), c.took);
    RefetchSendsOne(c.p.world, m, c.b, inner, hist, c.took);
    MetersAppend(Prints(before) + Prints(waited.out), first.evs, c.took);
    RetriesBound(c, m, first.env, hist + Mutations(first.evs), attempts - 1);
    MetersAppend(Prints(before) + Prints(waited.out) + first.evs, again.evs, c.took);
  }

  lemma RefetchSendsOne(w: World, m: MatchIr, b: Body, env: Env, hist: seq<Request>, took: Sent -> nat)
    ensures Sends(Refetch(w, m, b, env, hist).evs) <= 1
  {
    hide Prepare, EvalPath, Eval, ApplyPipeline, FetchOne;
    if m.scrutinee.Ident? && FindFetch(b.nodes, m.scrutinee.name).Some? {
      var r := FetchOne(w, FindFetch(b.nodes, m.scrutinee.name).value, env, hist);
      LaunchMeters(Launch(r.before, if r.sent.Some? then [r.sent.value] else [], r.after, map[]), took);
    }
  }

  lemma {:induction false} OneArmBound(c: Case, m: MatchIr, env: Env, hist: seq<Request>, attempts: nat)
    requires hide *; MatchCovered(c, m) && !Retries(m.arms)
    ensures Bounded(RunMatch(c.p, Waves, c.fuel, m, c.b, env, hist, attempts).evs,
                    ArmsCost(c.p.flows, m.arms, |m.arms|, c.visiting), c.timed, c.took)
    decreases c.fuel, m, 3, 0
  {
    hide FetchOne, Prepare, ApplyPipeline, Laid, Covered, Eval, MatchPattern, RunBody, ArmCost, ArmsCost, Bounded;
    var cost := ArmsCost(c.p.flows, m.arms, |m.arms|, c.visiting);
    var v := Eval(m.scrutinee, env, None);
    var out := Prints(v.out);
    OnlyPrints(v.out, cost, c.timed, c.took);
    if v.val.Some? && attempts > 0 {
      FirstArmIn(m.arms, v.val.value);
      var chosen := FirstArm(m.arms, v.val.value);
      if chosen.Some? {
        var arm := chosen.value;
        var inner := InsertAll(env, MatchPattern(arm.pattern, v.val.value).value);
        assert !arm.body.RetryArm?;
        match arm.body {
          case ValueArm(e) =>
            OnlyPrints(Eval(e, inner, None).out, cost, c.timed, c.took);
            PrintsFirst(v.out, Prints(Eval(e, inner, None).out), cost, c.timed, c.took);
          case BodyArm(b) =>
            assert arm < m;
            ArmWithin(c.p.flows, m.arms, arm, c.visiting);
            ArmBound(c, m, arm, inner, hist);
            var evs := RunBody(c.p, Waves, c.fuel, b, inner, hist).evs;
            Looser(evs, ArmCost(c.p.flows, arm, c.visiting), cost, c.timed, c.took);
            PrintsFirst(v.out, evs, cost, c.timed, c.took);
          case RetryArm(_) =>
        }
      }
    }
  }

  lemma Looser(evs: seq<Event>, c: Cost, d: Cost, timed: bool, took: Sent -> nat)
    requires Bounded(evs, c, timed, took) && c.requests <= d.requests && c.depth <= d.depth
    requires d.latency.Some? ==> c.latency.Some? && c.latency.value <= d.latency.value
    ensures Bounded(evs, d, timed, took)
  {
  }

  // ---------- the theorems ----------

  /** No run of a covered body sends more requests than the analysis reports. */
  lemma RequestsBounded(p: Prog, fuel: nat, b: Body, env: Env, hist: seq<Request>)
    requires LaidProg(p) && Laid(b) && Covered(p.flows, b, [], false) && !RequestCost(b, p.flows).unbounded
    ensures Sends(RunBody(p, Waves, fuel, b, env, hist).evs) <= RequestCost(b, p.flows).requests
  {
    hide RunBody, RunOrder, RunWaves, RunNode, RunLoop, RunMatch, RunTail, NodeStep, RoundStep, LaunchTo, FetchOne,
      Prepare, EvalPath, Eval, ApplyPipeline, KindVars, BodyVars;
    BodyBound(Case(p, fuel, b, env, hist, [], false, s => 0));
  }

  /** Nor does one take more sequential rounds, or, when every hop declares its latency and no
      request is later than declared, more request time. */
  lemma HopsAndLatencyBounded(p: Prog, fuel: nat, b: Body, env: Env, hist: seq<Request>, took: Sent -> nat)
    requires hide *; LaidProg(p) && Laid(b) && Covered(p.flows, b, [], true) && !RequestCost(b, p.flows).unbounded
    requires Punctual(took)
    ensures var evs, c := RunBody(p, Waves, fuel, b, env, hist).evs, RequestCost(b, p.flows);
            Rounds(evs) <= c.depth && (c.latency.Some? ==> Elapsed(evs, took) <= c.latency.value)
  {
    hide RunBody, RunOrder, RunWaves, RunNode, RunLoop, RunMatch, RunTail, NodeStep, RoundStep, LaunchTo, FetchOne,
      Prepare, EvalPath, Eval, ApplyPipeline, KindVars, BodyVars;
    BodyBound(Case(p, fuel, b, env, hist, [], true, took));
  }

  // ---------- programs without recursion or retries are covered ----------

  /** Every call to a declared flow goes to one of rank below `rank`; no retry arms. */
  ghost predicate Descends(flows: seq<Flow>, rank: string -> nat, most: nat, b: Body)
    decreases b
  {
    hide *;
    forall n | n in b.nodes :: DescendsKind(flows, rank, most, n.kind)
  }

  ghost predicate DescendsKind(flows: seq<Flow>, rank: string -> nat, most: nat, k: NodeKind)
    decreases k
  {
    hide *;
    match k
    case ExprN(e) => CallName(e).Some? && FindFlow(flows, CallName(e).value).Some? ==> rank(CallName(e).value) < most
    case MatchN(m) => forall a | a in m.arms :: DescendsArm(flows, rank, most, a)
    case ForEachN(fe) => Descends(flows, rank, most, fe.body)
    case _ => true
  }

  ghost predicate DescendsArm(flows: seq<Flow>, rank: string -> nat, most: nat, a: ArmIr)
    decreases a
  {
    hide *;
    !a.body.RetryArm? && (a.body.BodyArm? ==> assert a.body < a; Descends(flows, rank, most, a.body.b))
  }

  /** Calls go from every flow to flows of lower rank, so there is no recursion. */
  ghost predicate Acyclic(flows: seq<Flow>, rank: string -> nat) {
    forall f | f in flows :: Descends(flows, rank, rank(f.name), f.body)
  }

  /** Without recursion and retries the walk is never cut, so the request bound holds. */
  lemma {:induction false} AcyclicIsCovered(flows: seq<Flow>, rank: string -> nat, most: nat, b: Body,
      visiting: seq<string>)
    requires Acyclic(flows, rank) && Descends(flows, rank, most, b) && forall v | v in visiting :: rank(v) >= most
    ensures Covered(flows, b, visiting, false)
    decreases Unvisited(flows, visiting), b, 1
  {
    hide Acyclic;
    forall n | n in b.nodes && n.live ensures CoveredKind(flows, n.kind, visiting, false) {
      AcyclicKind(flows, rank, most, n.kind, visiting);
    }
  }

  lemma {:induction false} AcyclicKind(flows: seq<Flow>, rank: string -> nat, most: nat, k: NodeKind,
      visiting: seq<string>)
    requires Acyclic(flows, rank) && DescendsKind(flows, rank, most, k) && forall v | v in visiting :: rank(v) >= most
    ensures CoveredKind(flows, k, visiting, false)
    decreases Unvisited(flows, visiting), k, 0
  {
    match k {
      case ExprN(e) =>
        var name := CallName(e);
        if name.Some? && FindFlow(flows, name.value).Some? {
          Entered(flows, visiting, name.value);
          var flow := FindFlow(flows, name.value).value;
          AcyclicIsCovered(flows, rank, rank(name.value), flow.body, visiting + [name.value]);
        }
      case MatchN(m) =>
        forall a | a in m.arms ensures CoveredArm(flows, a, visiting, false) && !a.body.RetryArm? {
          if a.body.BodyArm? {
            assert a.body < a && a < m;
            AcyclicIsCovered(flows, rank, most, a.body.b, visiting);
          }
        }
      case ForEachN(fe) => AcyclicIsCovered(flows, rank, most, fe.body, visiting);
      case _ =>
    }
  }
}
