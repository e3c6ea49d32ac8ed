/** Liveness and the wave schedule, and what they guarantee. */
module Schedule {
  import opened Wrappers
  import opened Ir
  import opened Exec
  import opened Dependencies
  import opened Readiness

  ghost predicate BackwardDeps(nodes: seq<Node>) {
    forall i: nat, d: nat | i < |nodes| && d in nodes[i].deps :: d < i
  }

  // ---------- liveness ----------

  /** An effect, or something a live node depends on. */
  ghost predicate IsLive(nodes: seq<Node>, i: nat)
    requires i < |nodes|
    decreases |nodes| - i
  {
    nodes[i].effect || exists j: nat | i < j < |nodes| :: i in nodes[j].deps && IsLive(nodes, j)
  }

  ghost predicate Closed(nodes: seq<Node>, live: set<NodeId>) {
    && (forall i: nat | i < |nodes| && nodes[i].effect :: i in live)
    && (forall i: nat, d: nat | i < |nodes| && i in live && d in nodes[i].deps :: d in live)
  }

  ghost function LiveSet(nodes: seq<Node>): set<NodeId> {
    set i: nat | i < |nodes| && IsLive(nodes, i)
  }

  lemma {:induction false} LiveInClosed(nodes: seq<Node>, live: set<NodeId>, i: nat)
    requires Closed(nodes, live) && i < |nodes| && IsLive(nodes, i)
    ensures i in live
    decreases |nodes| - i
  {
    if !nodes[i].effect {
      var j: nat :| i < j < |nodes| && i in nodes[j].deps && IsLive(nodes, j);
      LiveInClosed(nodes, live, j);
    }
  }

  /** The live nodes are the least set that holds every effect and everything they need. */
  lemma LivenessIsLeast(nodes: seq<Node>)
    requires BackwardDeps(nodes)
    ensures Closed(nodes, LiveSet(nodes))
    ensures forall live: set<NodeId> | Closed(nodes, live) :: LiveSet(nodes) <= live
  {
    forall live: set<NodeId> | Closed(nodes, live) ensures LiveSet(nodes) <= live {
      forall i | i in LiveSet(nodes) ensures i in live { LiveInClosed(nodes, live, i); }
    }
  }

  ghost function WithLive(nodes: seq<Node>): seq<Node> {
    seq(|nodes|, i requires 0 <= i < |nodes| => nodes[i].(live := IsLive(nodes, i)))
  }

  // ---------- levels ----------

  /** One more than the highest level among the live dependencies. */
  function Level(nodes: seq<Node>, i: nat): nat
    decreases i, 1, 0
  {
    LevelTo(nodes, i, i)
  }

  function LevelTo(nodes: seq<Node>, i: nat, k: nat): nat
    requires k <= i
    decreases i, 0, k
  {
    if k == 0 || i >= |nodes| then 0
    else
      var rest := LevelTo(nodes, i, k - 1);
      if k - 1 in nodes[i].deps && nodes[k - 1].live then Max(rest, Level(nodes, k - 1) + 1) else rest
  }

  lemma {:induction false} LevelAbove(nodes: seq<Node>, i: nat, k: nat, d: nat)
    requires d < k <= i < |nodes| && d in nodes[i].deps && nodes[d].live
    ensures LevelTo(nodes, i, k) >= Level(nodes, d) + 1
  {
    if d < k - 1 { LevelAbove(nodes, i, k - 1, d); }
  }

  lemma {:induction false} LevelAttained(nodes: seq<Node>, i: nat, k: nat) returns (d: nat)
    requires k <= i < |nodes| && LevelTo(nodes, i, k) > 0
    ensures d < k && d in nodes[i].deps && nodes[d].live && LevelTo(nodes, i, k) == Level(nodes, d) + 1
  {
    if k - 1 in nodes[i].deps && nodes[k - 1].live && LevelTo(nodes, i, k) == Level(nodes, k - 1) + 1 {
      d := k - 1;
    } else {
      d := LevelAttained(nodes, i, k - 1);
    }
  }

  /** A chain of live nodes, each depending on the one before, that ends at `i`. */
  ghost predicate Chain(nodes: seq<Node>, c: seq<NodeId>, i: nat) {
    && c != [] && c[|c| - 1] == i
    && (forall j | 0 <= j < |c| :: c[j] < |nodes| && nodes[c[j]].live)
    && (forall j | 0 < j < |c| :: c[j - 1] in nodes[c[j]].deps)
  }

  lemma {:induction false} ChainBound(nodes: seq<Node>, c: seq<NodeId>, i: nat)
    requires BackwardDeps(nodes) && Chain(nodes, c, i)
    ensures |c| <= Level(nodes, i) + 1
    decreases |c|
  {
    if |c| > 1 {
      var d := c[|c| - 2];
      assert c[|c| - 1 - 1] in nodes[c[|c| - 1]].deps;
      assert Chain(nodes, c[..|c| - 1], d);
      ChainBound(nodes, c[..|c| - 1], d);
      LevelAbove(nodes, i, i, d);
    }
  }

  lemma {:induction false} LongestChain(nodes: seq<Node>, i: nat) returns (c: seq<NodeId>)
    requires i < |nodes| && nodes[i].live
    ensures Chain(nodes, c, i) && |c| == Level(nodes, i) + 1
    decreases i
  {
    if Level(nodes, i) == 0 {
      c := [i];
    } else {
      var d := LevelAttained(nodes, i, i);
      var init := LongestChain(nodes, d);
      c := init + [i];
      forall j | 0 < j < |c| ensures c[j - 1] in nodes[c[j]].deps {
        if j < |init| { assert c[j] == init[j] && c[j - 1] == init[j - 1]; }
      }
    }
  }

  /** The level of a node is the length of the longest dependency chain below it. */
  lemma LevelIsLongestChain(nodes: seq<Node>, i: nat)
    requires BackwardDeps(nodes) && i < |nodes| && nodes[i].live
    ensures forall c: seq<NodeId> | Chain(nodes, c, i) :: |c| <= Level(nodes, i) + 1
    ensures exists c: seq<NodeId> :: Chain(nodes, c, i) && |c| == Level(nodes, i) + 1
  {
    forall c: seq<NodeId> | Chain(nodes, c, i) ensures |c| <= Level(nodes, i) + 1 { ChainBound(nodes, c, i); }
    var c := LongestChain(nodes, i);
  }

  // ---------- waves ----------

  /** The live nodes below `n` on level `l`, in order. */
  function WaveTo(nodes: seq<Node>, l: nat, n: nat): seq<NodeId>
    requires n <= |nodes|
  {
    if n == 0 then []
    else WaveTo(nodes, l, n - 1) + (if nodes[n - 1].live && Level(nodes, n - 1) == l then [n - 1] else [])
  }

  function DepthTo(nodes: seq<Node>, n: nat): nat
    requires n <= |nodes|
  {
    if n == 0 then 0
    else if nodes[n - 1].live then Max(DepthTo(nodes, n - 1), Level(nodes, n - 1) + 1)
    else DepthTo(nodes, n - 1)
  }

  function Waves(nodes: seq<Node>): seq<seq<NodeId>> {
    seq(DepthTo(nodes, |nodes|), l requires l >= 0 => WaveTo(nodes, l, |nodes|))
  }

  lemma {:induction false} WaveMembers(nodes: seq<Node>, l: nat, n: nat)
    requires n <= |nodes|
    ensures forall i: nat :: i in WaveTo(nodes, l, n) <==> i < n && nodes[i].live && Level(nodes, i) == l
    ensures forall x: nat, y: nat | x < y < |WaveTo(nodes, l, n)| :: WaveTo(nodes, l, n)[x] < WaveTo(nodes, l, n)[y]
  {
    if n > 0 {
      WaveMembers(nodes, l, n - 1);
      var w := WaveTo(nodes, l, n - 1);
      forall x: nat | x < |w| ensures w[x] < n - 1 { assert w[x] in w; }
    }
  }

  lemma {:induction false} DepthBound(nodes: seq<Node>, n: nat, i: nat)
    requires i < n <= |nodes| && nodes[i].live
    ensures Level(nodes, i) < DepthTo(nodes, n)
  {
    if i < n - 1 { DepthBound(nodes, n - 1, i); }
  }

  lemma {:induction false} DepthAttained(nodes: seq<Node>, n: nat) returns (i: nat)
    requires n <= |nodes| && DepthTo(nodes, n) > 0
    ensures i < n && nodes[i].live && Level(nodes, i) + 1 == DepthTo(nodes, n)
  {
    if nodes[n - 1].live && Level(nodes, n - 1) + 1 == DepthTo(nodes, n) {
      i := n - 1;
    } else {
      i := DepthAttained(nodes, n - 1);
    }
  }

  /** No level below that of a live node is empty. */
  lemma {:induction false} LevelsFilled(nodes: seq<Node>, i: nat, l: nat) returns (j: nat)
    requires i < |nodes| && nodes[i].live && l <= Level(nodes, i)
    ensures j < |nodes| && nodes[j].live && Level(nodes, j) == l
    decreases i
  {
    if l == Level(nodes, i) {
      j := i;
    } else {
      var d := LevelAttained(nodes, i, i);
      j := LevelsFilled(nodes, d, l);
    }
  }

  predicate OnLevel(nodes: seq<Node>, i: NodeId, l: nat) {
    i < |nodes| && nodes[i].live && Level(nodes, i) == l
  }

  /** The schedule places every live node once, on its level and nothing else, and leaves no
      wave empty. */
  lemma WavesExact(nodes: seq<Node>)
    ensures forall l: nat | l < |Waves(nodes)| :: Waves(nodes)[l] != []
    ensures forall l: nat, i: nat | l < |Waves(nodes)| && i in Waves(nodes)[l] :: OnLevel(nodes, i, l)
    ensures forall i: nat | i < |nodes| && nodes[i].live ::
              Level(nodes, i) < |Waves(nodes)| && i in Waves(nodes)[Level(nodes, i)]
    ensures forall l: nat, x: nat, y: nat | l < |Waves(nodes)| && x < y < |Waves(nodes)[l]| ::
              Waves(nodes)[l][x] < Waves(nodes)[l][y]
  {
    var n := |nodes|;
    forall l: nat | l < |Waves(nodes)| ensures Waves(nodes)[l] != [] {
      var top := DepthAttained(nodes, n);
      var j := LevelsFilled(nodes, top, l);
      WaveMembers(nodes, l, n);
      assert j in WaveTo(nodes, l, n);
    }
    forall l: nat, i: nat | l < |Waves(nodes)| && i in Waves(nodes)[l] ensures OnLevel(nodes, i, l) {
      WaveMembers(nodes, l, n);
    }
    forall i: nat | i < n && nodes[i].live
      ensures Level(nodes, i) < |Waves(nodes)| && i in Waves(nodes)[Level(nodes, i)]
    {
      DepthBound(nodes, n, i);
      WaveMembers(nodes, Level(nodes, i), n);
    }
    forall l: nat, x: nat, y: nat | l < |Waves(nodes)| && x < y < |Waves(nodes)[l]|
      ensures Waves(nodes)[l][x] < Waves(nodes)[l][y]
    {
      WaveMembers(nodes, l, n);
    }
  }

  // ---------- optimality ----------

  /** An assignment of steps in which live nodes come after their live dependencies. */
  ghost predicate Respects(nodes: seq<Node>, step: NodeId -> nat) {
    forall i: nat, d: nat | i < |nodes| && d < |nodes| && nodes[i].live && nodes[d].live && d in nodes[i].deps ::
      step(d) < step(i)
  }

  lemma {:induction false} StepAtLeastLevel(nodes: seq<Node>, step: NodeId -> nat, i: nat)
    requires Respects(nodes, step) && i < |nodes| && nodes[i].live
    ensures Level(nodes, i) <= step(i)
    decreases i
  {
    if Level(nodes, i) > 0 {
      var d := LevelAttained(nodes, i, i);
      StepAtLeastLevel(nodes, step, d);
    }
  }

  /** No schedule that respects the dependencies needs fewer steps than there are waves. */
  lemma WavesOptimal(nodes: seq<Node>, step: NodeId -> nat, steps: nat)
    requires Respects(nodes, step)
    requires forall i: nat | i < |nodes| && nodes[i].live :: step(i) < steps
    ensures |Waves(nodes)| <= steps
  {
    if |Waves(nodes)| > 0 {
      var top := DepthAttained(nodes, |nodes|);
      StepAtLeastLevel(nodes, step, top);
    }
  }

  // ---------- the optimized body ----------

  /** The nodes with their liveness, and their schedule. */
  ghost function Optimized(nodes: seq<Node>): Body {
    Body(WithLive(nodes), Waves(WithLive(nodes)))
  }

  lemma DepsBackward(nodes: seq<Node>)
    requires Wired(nodes)
    ensures BackwardDeps(nodes)
  {
  }

  /** The computed schedule is one the executor can follow. */
  lemma OptimizedIsScheduled(nodes: seq<Node>)
    requires BackwardDeps(nodes)
    ensures Scheduled(Optimized(nodes))
  {
    var b := Optimized(nodes);
    var ns := b.nodes;
    LivenessIsLeast(nodes);
    WavesExact(ns);
    forall k: nat, l: nat, i: nat | k < l < |b.waves| && i in b.waves[k] ensures i !in b.waves[l] {
      assert OnLevel(ns, i, k);
    }
    assert BackwardDeps(ns);
    forall i: nat | i < |ns| && ns[i].live ensures InWaves(b, Level(ns, i) + 1, i) {
      assert i in b.waves[Level(ns, i)];
    }
    forall k: nat, i: nat | k < |b.waves| && i in b.waves[k] ensures DepsBefore(b, k, i) {
      assert OnLevel(ns, i, k);
      forall d | d in ns[i].deps ensures InWaves(b, k, d) {
        assert i in LiveSet(nodes) && d in LiveSet(nodes);
        LevelAbove(ns, i, i, d);
        assert d in b.waves[Level(ns, d)];
      }
    }
    forall i: nat | i < |ns| && ns[i].effect ensures InWaves(b, |b.waves|, i) {
      assert i in LiveSet(nodes);
      assert i in b.waves[Level(ns, i)];
    }
  }

  lemma LevelIs(nodes: seq<Node>, i: nat)
    ensures Level(nodes, i) == LevelTo(nodes, i, i)
  {
  }

  /** At most one effect stands in any wave, and effects stand in waves in their written order. */
  lemma EffectsInOrder(nodes: seq<Node>, i: nat, j: nat)
    requires Wired(nodes)
    requires i < j < |nodes| && nodes[i].effect && nodes[j].effect
    ensures Level(WithLive(nodes), i) < Level(WithLive(nodes), j)
    decreases j
  {
    hide Wired, Level, LevelTo;
    var ns := WithLive(nodes);
    var e := PreviousEffect(nodes, i, j);
    assert ns[j].deps == nodes[j].deps && ns[e].live;
    hide IsLive, WithLive;
    LevelAbove(ns, j, j, e);
    LevelIs(ns, j);
    if i < e { EffectsInOrder(nodes, i, e); }
  }

  lemma PreviousEffect(nodes: seq<Node>, i: nat, j: nat) returns (e: nat)
    requires i < j < |nodes| && nodes[i].effect && nodes[j].effect && Wired(nodes)
    ensures i <= e < j && nodes[e].effect && e in nodes[j].deps
  {
    e := LastEffect(nodes, j).value;
  }
}
