/** The optimizer's passes as they run: each overwrites the nodes or the waves of the body it holds. */
module Optimizer {
  import opened Wrappers
  import opened Ir
  import Frames
  import opened Dependencies
  import opened Schedule
  import opened Dedup
  import Fusion
  import LoopFusion

  ghost predicate Positions(nodes: seq<Node>) {
    forall i: nat | i < |nodes| :: nodes[i].id == i
  }

  /** A later fetch, the earlier one it repeats, and the name that one binds. */
  datatype Rewrite = Rewrite(alias: NodeId, first: NodeId, name: string)

  /** The rewrites found among the first `k` nodes. */
  function Rewrites(nodes: seq<Node>, k: nat): seq<Rewrite>
    requires k <= |nodes|
  {
    hide *;
    if k == 0 then []
    else
      var o := Original(nodes, k - 1);
      Rewrites(nodes, k - 1)
      + if o.Some? && o.value < |nodes| then [Rewrite(k - 1, o.value, BindingOf(nodes[o.value]))] else []
  }

  /** The nodes with the rewrites made. */
  function Rewritten(nodes: seq<Node>, rewrites: seq<Rewrite>): (r: seq<Node>)
    ensures |r| == |nodes|
  {
    hide *;
    if rewrites == [] then nodes
    else
      var before, w := Rewritten(nodes, rewrites[..|rewrites| - 1]), rewrites[|rewrites| - 1];
      if w.alias < |nodes| then before[w.alias := Alias(before[w.alias], w.first, w.name)] else before
  }

  lemma OneMoreRewrite(nodes: seq<Node>, done: seq<Rewrite>, w: Rewrite)
    requires hide *; w.alias < |nodes|
    ensures Rewritten(nodes, done + [w]) == Rewritten(nodes,
            done)[w.alias := Alias(Rewritten(nodes, done)[w.alias], w.first, w.name)]
  {
    hide Alias;
    assert (done + [w])[..|done|] == done;
  }

  lemma RewrittenStep(nodes: seq<Node>, k: nat, i: nat)
    requires hide *; k < |nodes| && i < |nodes| && Rewritten(nodes, Rewrites(nodes, k))[k] == nodes[k]
    ensures Rewritten(nodes, Rewrites(nodes, k + 1))[i]
         == if i == k then DedupNode(nodes, k) else Rewritten(nodes, Rewrites(nodes, k))[i]
  {
    hide Original, Alias, Rewrites, Rewritten, BindingOf;
    RewritesStep(nodes, k);
    var o := Original(nodes, k);
    if o.Some? && o.value < |nodes| {
      OneMoreRewrite(nodes, Rewrites(nodes, k), Rewrite(k, o.value, BindingOf(nodes[o.value])));
    }
  }

  lemma NothingRewritten(nodes: seq<Node>)
    ensures hide *; Rewritten(nodes, Rewrites(nodes, 0)) == nodes
  {
    hide Original, DedupNode;
  }

  lemma {:induction false} RewrittenTo(nodes: seq<Node>, k: nat, i: nat)
    requires hide *; k <= |nodes| && i < |nodes|
    ensures Rewritten(nodes, Rewrites(nodes, k))[i] == if i < k then DedupNode(nodes, i) else nodes[i]
  {
    hide Original, DedupNode, Rewrites, Rewritten;
    if k == 0 {
      NothingRewritten(nodes);
    } else {
      RewrittenTo(nodes, k - 1, i);
      RewrittenTo(nodes, k - 1, k - 1);
      RewrittenStep(nodes, k - 1, i);
    }
  }

  lemma RewritesStep(nodes: seq<Node>, k: nat)
    requires hide *; k < |nodes|
    ensures var o, done := Original(nodes, k), Rewrites(nodes, k);
            if o.Some? && o.value < |nodes| then
              var w := Rewrite(k, o.value, BindingOf(nodes[o.value]));
              Rewrites(nodes, k + 1) == done + [w]
            else Rewrites(nodes, k + 1) == done
  {
    hide Original;
  }

  /** What looking at node `k` does to the signatures seen and the rewrites found. */
  lemma SeenStep(nodes: seq<Node>, k: nat)
    requires hide Fusion.Groups; k < |nodes|
    ensures var n := nodes[k];
            if Eligible(n) && SigOf(n) in Seen(nodes, k) then
              && Seen(nodes, k)[SigOf(n)] < |nodes| && Seen(nodes, k + 1) == Seen(nodes, k)
              && Original(nodes, k) == (if n.binding.Some? then Some(Seen(nodes, k)[SigOf(n)]) else None)
            else
              && Original(nodes, k).None?
              && Seen(nodes, k + 1)
                 == if Eligible(n) && n.binding.Some? then Seen(nodes, k)[SigOf(n) := k] else Seen(nodes, k)
  {
    hide Frames.Vars, Fusion.KeyOf, Fusion.Groups, DepsOf, FetchSig;
    var n := nodes[k];
    if Eligible(n) && SigOf(n) in Seen(nodes, k) { SeenOrigin(nodes, k, SigOf(n)); }
  }

  class Optimizer {
    var nodes: seq<Node>
    var waves: seq<seq<NodeId>>
    var counter: nat

    constructor (b: Body, counter: nat)
      ensures nodes == b.nodes && waves == b.waves && this.counter == counter
    {
      nodes, waves, this.counter := b.nodes, b.waves, counter;
    }

    /** Collapse identical requests: a repeated GET becomes a `let` of the earlier binding. */
    method DedupRequests()
      requires Positions(nodes)
      modifies this`nodes
      ensures nodes == DedupNodes(old(nodes))
    {
      ghost var was := nodes;
      var rewrites := FindRewrites();
      var x := 0;
      while x < |rewrites|
        invariant x <= |rewrites| && nodes == Rewritten(was, rewrites[..x])
      {
        var w := rewrites[x];
        assert rewrites[..x + 1][..x] == rewrites[..x];
        if w.alias < |nodes| { nodes := nodes[w.alias := Alias(nodes[w.alias], w.first, w.name)]; }
        x := x + 1;
      }
      assert rewrites[..x] == rewrites;
      forall i: nat | i < |was| ensures nodes[i] == DedupNode(was, i) { RewrittenTo(was, |was|, i); }
    }

    /** The fetches that repeat an earlier bound one. */
    method FindRewrites() returns (rewrites: seq<Rewrite>)
      requires Positions(nodes)
      ensures rewrites == Rewrites(nodes, |nodes|)
    {
      hide FetchSig, Original, Seen;
      var seen: map<Sig, NodeId> := map[];
      rewrites := [];
      NothingSeen(nodes);
      var k := 0;
      while k < |nodes|
        invariant k <= |nodes|
        invariant seen == Seen(nodes, k) && rewrites == Rewrites(nodes, k)
      {
        SeenStep(nodes, k);
        RewritesStep(nodes, k);
        var n := nodes[k];
        if Eligible(n) {
          var sig := SigOf(n);
          if sig in seen {
            if n.binding.Some? { rewrites := rewrites + [Rewrite(n.id, seen[sig], BindingOf(nodes[seen[sig]]))]; }
          } else if n.binding.Some? {
            seen := seen[sig := n.id];
          }
        }
        k := k + 1;
      }
    }

    /** Mark what is reached backward from the effects. */
    method Liveness()
      requires Positions(nodes) && BackwardDeps(nodes)
      modifies this`nodes
      ensures nodes == WithLive(old(nodes))
    {
      hide IsLive;
      ghost var was := nodes;
      var live := Reached();
      var i := 0;
      while i < |nodes|
        invariant i <= |nodes| && |nodes| == |was|
        invariant forall j: nat | j < i :: nodes[j] == was[j].(live := IsLive(was, j))
        invariant forall j: nat | i <= j < |was| :: nodes[j] == was[j]
      {
        nodes := nodes[i := nodes[i].(live := nodes[i].id in live)];
        i := i + 1;
      }
    }

    /** Backward reachability from the effects, with a stack of nodes still to look through. */
    method Reached() returns (live: set<NodeId>)
      requires Positions(nodes) && BackwardDeps(nodes)
      ensures forall i: nat | i < |nodes| :: i in live <==> IsLive(nodes, i)
    {
      hide IsLive, Worklist;
      var stack;
      live, stack := Roots();
      while stack != []
        invariant Worklist(nodes, live, stack)
        decreases 2 * (|nodes| - |live|) + |stack|
      {
        MarkedInRange(nodes, live, stack);
        Bounded(live, |nodes|);
        var id := stack[|stack| - 1];
        assert stack[..|stack| - 1] + [id] == stack;
        live, stack := Follow(id, live, stack[..|stack| - 1]);
        MarkedInRange(nodes, live, stack);
        Bounded(live, |nodes|);
      }
      LiveIsReached(nodes, live);
    }

    /** The effects, all still to be looked through. */
    method Roots() returns (live: set<NodeId>, stack: seq<NodeId>)
      requires Positions(nodes)
      ensures Worklist(nodes, live, stack)
    {
      live, stack := {}, [];
      var i := 0;
      while i < |nodes|
        invariant i <= |nodes|
        invariant forall j: nat | j < i && nodes[j].effect :: j in live
        invariant forall j | j in live :: j < i && nodes[j].effect && j in stack
        invariant forall j | j in stack :: j in live
      {
        if nodes[i].effect && nodes[i].id !in live {
          live, stack := live + {nodes[i].id}, stack + [nodes[i].id];
        }
        i := i + 1;
      }
    }

    /** Mark what `id` depends on, and push what was not marked before. */
    method Follow(id: NodeId, live: set<NodeId>, stack: seq<NodeId>) returns (marked: set<NodeId>, pushed: seq<NodeId>)
      requires BackwardDeps(nodes) && Worklist(nodes, live, stack + [id])
      ensures Worklist(nodes, marked, pushed)
      ensures |live| <= |marked| && |pushed| - |stack| == |marked| - |live|
    {
      assert id in stack + [id];
      marked, pushed := live, stack;
      var rest := nodes[id].deps;
      while rest != {}
        invariant rest <= nodes[id].deps && |live| <= |marked|
        invariant forall d | d in nodes[id].deps :: d in rest || d in marked
        invariant Worklist(nodes, marked, pushed + [id])
        invariant |pushed| - |stack| == |marked| - |live|
        decreases |rest|
      {
        var d :| d in rest;
        rest := rest - {d};
        if d !in marked {
          MarkedWorklist(nodes, marked, pushed, id, d);
          marked, pushed := marked + {d}, pushed + [d];
        }
      }
      WorklistDone(nodes, marked, pushed, id);
    }

    /** Level the live nodes in one forward pass, and put each level in a wave. */
    method ScheduleWaves()
      requires Positions(nodes) && BackwardDeps(nodes)
      modifies this`waves
      ensures waves == Waves(nodes)
    {
      hide Level;
      var level := new nat[|nodes|](i => 0);
      var top := 0;
      var i := 0;
      while i < |nodes|
        invariant i <= |nodes|
        invariant forall j: nat | j < i && nodes[j].live :: level[j] == Level(nodes, j)
        invariant top + 1 == Max(DepthTo(nodes, i), 1)
      {
        if nodes[i].live {
          var l := LevelFrom(level, i);
          level[i] := l;
          top := Max(top, l);
        }
        i := i + 1;
      }
      var buckets: seq<seq<NodeId>> := seq(top + 1, l => []);
      i := 0;
      while i < |nodes|
        invariant i <= |nodes|
        invariant forall j: nat | j < |nodes| && nodes[j].live :: level[j] == Level(nodes, j)
        invariant |buckets| == top + 1 && forall l: nat | l < |buckets| :: buckets[l] == WaveTo(nodes, l, i)
      {
        if nodes[i].live {
          DepthBound(nodes, |nodes|, i);
          var l := level[nodes[i].id];
          buckets := buckets[l := buckets[l] + [nodes[i].id]];
        }
        i := i + 1;
      }
      waves := NonEmpty(buckets);
      BucketsAreWaves(nodes, buckets);
    }

    /** One more than the highest level among the live dependencies of node `i`. */
    method LevelFrom(level: array<nat>, i: nat) returns (l: nat)
      requires i < |nodes| && level.Length == |nodes| && BackwardDeps(nodes)
      requires forall j: nat | j < i && nodes[j].live :: level[j] == Level(nodes, j)
      ensures l == Level(nodes, i)
    {
      l := 0;
      var rest := nodes[i].deps;
      while rest != {}
        invariant rest <= nodes[i].deps
        invariant forall d | d in nodes[i].deps && d !in rest && nodes[d].live :: Level(nodes, d) + 1 <= l
        invariant l == 0 || exists d :: d in nodes[i].deps && nodes[d].live && l == Level(nodes, d) + 1
        decreases |rest|
      {
        var d :| d in rest;
        rest := rest - {d};
        if nodes[d].live { l := Max(l, level[d] + 1); }
      }
      HighestIsLevel(nodes, i, l);
    }

    /** Replace each group of near-identical GETs by one batched request and a scatter for each. */
    method FuseRequests()
      modifies this`nodes
      ensures nodes == Fusion.FuseNodes(old(nodes))
    {
      hide Fusion.Batchable, Fusion.KeyOf, Fusion.Groups, Fusion.BatchNode, Fusion.ScatterNode, Fusion.Rebuild,
        Planned;
      var order, members := GroupCandidates();
      var groups, plan := PlanGroups(order, members);
      if groups == [] { return; }
      ghost var was := nodes;
      var built: seq<Node> := [];
      NothingRebuilt(nodes);
      var k := 0;
      while k < |nodes|
        invariant k <= |nodes| && nodes == was && built == Fusion.Rebuild(nodes, k)
      {
        PlanIsGroup(nodes, groups, plan, k);
        RebuildStep(nodes, plan, k);
        if k !in plan {
          built := built + [nodes[k].(id := |built|)];
        } else {
          var g := plan[k].0;
          if plan[k].1 {
            built := built + [Fusion.BatchNode(nodes, g, |built|), Fusion.ScatterNode(nodes, g, nodes[k], |built| + 1)];
          } else {
            built := built + [Fusion.ScatterNode(nodes, g, nodes[k], |built|)];
          }
        }
        k := k + 1;
      }
      nodes := Rewired(built);
    }

    /** The keys of the candidates in order of first appearance, and the candidates of each. */
    method GroupCandidates() returns (order: seq<Fusion.GroupKey>, members: map<Fusion.GroupKey, seq<nat>>)
      ensures order == Fusion.Keys(nodes, |nodes|) && members.Keys == (set key | key in order)
      ensures forall key | key in order :: members[key] == Fusion.Members(nodes, key, |nodes|)
    {
      hide Fusion.Batchable, Fusion.KeyOf, Fusion.Keys, Fusion.Members;
      order, members := [], map[];
      NoKeyYet(nodes);
      var k := 0;
      while k < |nodes|
        invariant k <= |nodes| && order == Fusion.Keys(nodes, k) && members.Keys == (set key | key in order)
        invariant forall key | key in order :: members[key] == Fusion.Members(nodes, key, k)
      {
        CandidateStep(nodes, k);
        if Fusion.Batchable(nodes[k]) {
          var key := Fusion.KeyOf(nodes[k]);
          if key in members {
            members := members[key := members[key] + [k]];
          } else {
            order, members := order + [key], members[key := [k]];
          }
        }
        k := k + 1;
      }
    }

    /** The groups that can be fused, and for each member its group and whether it comes first. */
    method PlanGroups(order: seq<Fusion.GroupKey>, members: map<Fusion.GroupKey, seq<nat>>)
      returns (groups: seq<Fusion.GroupKey>, plan: map<nat, (nat, bool)>)
      requires order == Fusion.Keys(nodes, |nodes|) && members.Keys == (set key | key in order)
      requires forall key | key in order :: members[key] == Fusion.Members(nodes, key, |nodes|)
      ensures groups == Fusion.Groups(nodes) && Planned(nodes, groups, plan)
    {
      hide Fusion.Batchable, Fusion.KeyOf, Planned, Fusion.Members;
      groups, plan := [], map[];
      NothingPlanned(nodes);
      var j := 0;
      while j < |order|
        invariant j <= |order| && groups == Fusion.Filtered(nodes, order[..j]) && Planned(nodes, groups, plan)
      {
        FilteredStep(nodes, j);
        var key := order[j];
        var m := members[key];
        if |m| >= 2 && Available(nodes, m) {
          PlannedMore(nodes, groups, plan, key);
          plan := plan + map i | i in m :: (|groups|, i == m[0]);
          groups := groups + [key];
        }
        j := j + 1;
      }
      assert order[..j] == order;
    }

    /** Hoist the per-element GETs of every loop into one batched request each. */
    method FuseLoops()
      modifies this`nodes, this`counter
      ensures nodes == LoopFusion.FuseLoops(old(nodes), old(counter))
      ensures counter == LoopFusion.NextName(old(nodes), |old(nodes)|, old(counter))
    {
      hide LoopFusion.LoopExpand, LoopFusion.Plans;
      if forall n | n in nodes :: !LoopFusion.FusesLoop(n) {
        NothingNamed(nodes, |nodes|, counter);
        return;
      }
      ghost var was, from := nodes, counter;
      var built: seq<Node> := [];
      var k := 0;
      while k < |nodes|
        invariant k <= |nodes| && nodes == was
        invariant built == LoopFusion.LoopRebuild(was, k, from) && counter == LoopFusion.NextName(was, k, from)
      {
        var pieces := Expand(nodes[k], |built|);
        built := built + pieces;
        k := k + 1;
      }
      nodes := Rewired(built);
    }

    /** A node and, before it, the batched requests hoisted out of it. */
    method Expand(n: Node, at: nat) returns (pieces: seq<Node>)
      modifies this`counter
      ensures pieces == LoopFusion.LoopExpand(n, old(counter), at)
      ensures counter == old(counter) + if LoopFusion.FusesLoop(n) then LoopFusion.Plans(n.kind.fe) else 0
    {
      hide LoopFusion.HoistedLoop, LoopFusion.LoopBatches, LoopFusion.PlanCount;
      if !n.kind.ForEachN? || LoopFusion.Plans(n.kind.fe) == 0 {
        pieces := [n.(id := at)];
      } else {
        var batches, fe := Hoist(n.kind.fe, at);
        var inputs := Frames.Vars(fe.iter, false) + InputsOf(fe.body.nodes) - Binds(fe.body.nodes) - {fe.loopVar};
        pieces := batches + [n.(id := at + |batches|, kind := ForEachN(fe), inputs := inputs)];
      }
    }

    /** The batched requests of one loop, to stand from position `at` on, and the loop that picks from them. */
    method Hoist(fe: ForEachIr, at: nat) returns (batches: seq<Node>, hoisted: ForEachIr)
      modifies this`counter
      ensures batches == LoopFusion.LoopBatches(fe, |fe.body.nodes|, old(counter), at)
      ensures hoisted == LoopFusion.HoistedLoop(fe, old(counter)) && counter == old(counter) + LoopFusion.Plans(fe)
    {
      hide LoopFusion.Hoistable, LoopFusion.LoopBatchNode, LoopFusion.LoopScatterNode;
      ghost var from := counter;
      batches := [];
      var inner := fe.body.nodes;
      var i := 0;
      while i < |fe.body.nodes|
        invariant i <= |fe.body.nodes| && counter == from + LoopFusion.PlanCount(fe, i)
        invariant batches == LoopFusion.LoopBatches(fe, i, from, at)
        invariant |inner| == |fe.body.nodes|
        invariant forall j: nat | j < i :: inner[j] == LoopFusion.InLoop(fe, j, from)
        invariant forall j: nat | i <= j < |inner| :: inner[j] == fe.body.nodes[j]
      {
        var n := fe.body.nodes[i];
        if LoopFusion.Hoistable(fe, n) {
          batches := batches + [LoopFusion.LoopBatchNode(fe, n, counter, at + |batches|)];
          inner := inner[i := LoopFusion.LoopScatterNode(fe, n, counter)];
          counter := counter + 1;
        }
        i := i + 1;
      }
      assert inner == LoopFusion.LoopBodyNodes(fe, from);
      inner := Rewired(inner);
      hoisted := fe.(body := Body(inner, fe.body.waves));
    }

    /** All passes over one body, in the order in which they are run. */
    method Optimize()
      requires Positions(nodes) && Wired(nodes)
      modifies this
      ensures var fused := Fusion.FuseNodes(DedupNodes(LoopFusion.FuseLoops(old(nodes), old(counter))));
              nodes == Optimized(fused).nodes && waves == Optimized(fused).waves
    {
      LoopsStayPlaced(nodes, counter);
      FuseLoops();
      ghost var looped := nodes;
      DedupRequests();
      DedupStaysPlaced(looped);
      ghost var merged := nodes;
      FuseRequests();
      FusedStaysPlaced(merged);
      Liveness();
      ScheduleWaves();
    }
  }

  /** The dependency edges computed anew. */
  method Rewired(nodes: seq<Node>) returns (r: seq<Node>)
    ensures r == WithDeps(nodes)
  {
    var a := new Node[|nodes|](i requires 0 <= i < |nodes| => nodes[i]);
    assert a[..] == nodes;
    ComputeDeps(a);
    r := a[..];
  }

  function NonEmpty(buckets: seq<seq<NodeId>>): seq<seq<NodeId>> {
    if buckets == [] then []
    else NonEmpty(buckets[..|buckets| - 1]) + if buckets[|buckets| - 1] == [] then [] else [buckets[|buckets| - 1]]
  }

  lemma {:induction false} AllKept(buckets: seq<seq<NodeId>>)
    requires forall l: nat | l < |buckets| :: buckets[l] != []
    ensures NonEmpty(buckets) == buckets
  {
    if buckets != [] { AllKept(buckets[..|buckets| - 1]); }
  }

  /** No level is empty, unless nothing is live. */
  lemma BucketsAreWaves(nodes: seq<Node>, buckets: seq<seq<NodeId>>)
    requires |buckets| == Max(DepthTo(nodes, |nodes|), 1)
    requires forall l: nat | l < |buckets| :: buckets[l] == WaveTo(nodes, l, |nodes|)
    ensures NonEmpty(buckets) == Waves(nodes)
  {
    if DepthTo(nodes, |nodes|) == 0 {
      WaveMembers(nodes, 0, |nodes|);
      if buckets[0] != [] {
        assert buckets[0][0] in WaveTo(nodes, 0, |nodes|);
        DepthBound(nodes, |nodes|, buckets[0][0]);
      }
      assert buckets[..0] == [];
    } else {
      assert buckets == Waves(nodes);
      WavesExact(nodes);
      AllKept(buckets);
    }
  }

  lemma HighestIsLevel(nodes: seq<Node>, i: nat, l: nat)
    requires i < |nodes| && BackwardDeps(nodes)
    requires forall d | d in nodes[i].deps && nodes[d].live :: Level(nodes, d) + 1 <= l
    requires l == 0 || exists d :: d in nodes[i].deps && nodes[d].live && l == Level(nodes, d) + 1
    ensures l == Level(nodes, i)
  {
    LevelIs(nodes, i);
    if LevelTo(nodes, i, i) > 0 {
      var d := LevelAttained(nodes, i, i);
    }
    if l > 0 {
      var d :| d in nodes[i].deps && nodes[d].live && l == Level(nodes, d) + 1;
      LevelAbove(nodes, i, i, d);
    }
  }

  // ---------- the plan of a fusion ----------

  /** `plan` gives every member of `groups` its group, and whether it is the first member. */
  ghost predicate Planned(nodes: seq<Node>, groups: seq<Fusion.GroupKey>, plan: map<nat, (nat, bool)>) {
    hide *;
    forall i: nat | i < |nodes| :: PlannedAt(nodes, groups, plan, i)
  }

  ghost predicate PlannedAt(nodes: seq<Node>, groups: seq<Fusion.GroupKey>, plan: map<nat, (nat, bool)>, i: nat)
    requires i < |nodes|
  {
    hide *;
    && (i in plan <==> Fusion.Batchable(nodes[i]) && Fusion.KeyOf(nodes[i]) in groups)
    && (i in plan ==>
          Fusion.IndexOf(groups, Fusion.KeyOf(nodes[i])) == Some(plan[i].0)
          && plan[i].1 == (var m := Fusion.Members(nodes, Fusion.KeyOf(nodes[i]), |nodes|); m != [] && m[0] == i))
  }

  lemma {:induction false} IndexOfMore(groups: seq<Fusion.GroupKey>, key: Fusion.GroupKey, other: Fusion.GroupKey)
    requires key !in groups
    ensures Fusion.IndexOf(groups + [key], other) ==
            if other == key then Some(|groups|) else Fusion.IndexOf(groups, other)
  {
    if groups != [] {
      assert (groups + [key])[1..] == groups[1..] + [key];
      IndexOfMore(groups[1..], key, other);
    }
  }

  lemma PlannedMore(nodes: seq<Node>, groups: seq<Fusion.GroupKey>, plan: map<nat, (nat, bool)>, key: Fusion.GroupKey)
    requires hide *; Planned(nodes, groups, plan) && key !in groups
    ensures var m := Fusion.Members(nodes, key, |nodes|);
            Planned(nodes, groups + [key], plan + map i | i in m :: (|groups|, i == m[0]))
  {
    hide Fusion.Members, Fusion.Batchable, Fusion.KeyOf;
    var m := Fusion.Members(nodes, key, |nodes|);
    var more := plan + map i | i in m :: (|groups|, i == m[0]);
    forall i: nat | i < |nodes| ensures PlannedAt(nodes, groups + [key], more, i) {
      assert PlannedAt(nodes, groups, plan, i);
      assert i in m <==> Fusion.InGroup(nodes[i], key);
      if Fusion.Batchable(nodes[i]) { IndexOfMore(groups, key, Fusion.KeyOf(nodes[i])); }
    }
  }

  /** Every id of the group can be computed where its first member stands. */
  predicate Available(nodes: seq<Node>, m: seq<nat>)
    requires m != [] && forall i | i in m :: i < |nodes| && Fusion.Batchable(nodes[i])
  {
    hide *;
    forall i | i in m :: Frames.Vars(Fusion.IdOf(nodes[i]), false) !! Fusion.BoundFrom(nodes, m[0])
  }

  lemma NothingPlanned(nodes: seq<Node>)
    ensures Planned(nodes, [], map[])
  {
    hide Frames.Vars, Fusion.KeyOf, Fusion.Groups;
  }

  /** Whether the next key makes a group. */
  lemma FilteredStep(nodes: seq<Node>, j: nat)
    requires hide *; j < |Fusion.Keys(nodes, |nodes|)|
    ensures var order := Fusion.Keys(nodes, |nodes|);
            var key := order[j];
            var m := Fusion.Members(nodes, key, |nodes|);
            && (forall i | i in m :: i < |nodes| && Fusion.Batchable(nodes[i]))
            && key !in Fusion.Filtered(nodes, order[..j])
            && Fusion.Filtered(nodes, order[..j + 1])
               == Fusion.Filtered(nodes, order[..j]) + if |m| >= 2 && Available(nodes, m) then [key] else []
  {
    hide Frames.Vars, Fusion.Groups, DepsOf, LoopFusion.HoistedLoop, Fusion.Batchable, Fusion.KeyOf;
    var order := Fusion.Keys(nodes, |nodes|);
    Fusion.KeysDistinct(nodes, |nodes|);
    assert order[..j + 1][..j] == order[..j];
    Fusion.KeysBatchable(nodes, order[..j]);
    hide Fusion.Keys;
    assert Fusion.Fusable(nodes, order[j]) <==>
           (var m := Fusion.Members(nodes, order[j], |nodes|); |m| >= 2 && Available(nodes, m));
  }

  /** The plan says where node `k` belongs. */
  lemma PlanIsGroup(nodes: seq<Node>, groups: seq<Fusion.GroupKey>, plan: map<nat, (nat, bool)>, k: nat)
    requires hide *; k < |nodes| && groups == Fusion.Groups(nodes) && Planned(nodes, groups, plan)
    ensures k !in plan ==> Fusion.GroupAt(nodes, k).None?
    ensures k in plan
            ==> Fusion.Batchable(nodes[k]) && plan[k].0 < |groups|
                && Fusion.GroupAt(nodes, k) == Some(plan[k].0)
                              && plan[k].1 == Fusion.Leads(nodes, k, plan[k].0)
  {
    hide Fusion.Batchable, Fusion.KeyOf, Fusion.Groups, Fusion.Members;
    assert PlannedAt(nodes, groups, plan, k);
  }

  lemma NothingRebuilt(nodes: seq<Node>)
    ensures hide *; Fusion.Rebuild(nodes, 0) == []
  {
    hide Frames.Vars, Fusion.KeyOf, Fusion.Groups, DepsOf;
  }

  /** What node `k` adds to the rewritten list, by the plan. */
  lemma RebuildStep(nodes: seq<Node>, plan: map<nat, (nat, bool)>, k: nat)
    requires hide *; k < |nodes|
    requires k !in plan ==> Fusion.GroupAt(nodes, k).None?
    requires k in plan ==> Fusion.Batchable(nodes[k]) && plan[k].0 < |Fusion.Groups(nodes)|
                           && Fusion.GroupAt(nodes, k) == Some(plan[k].0)
                              && plan[k].1 == Fusion.Leads(nodes, k, plan[k].0)
    ensures var done := Fusion.Rebuild(nodes, k);
            Fusion.Rebuild(nodes, k + 1) == done +
              (if k !in plan then [nodes[k].(id := |done|)]
               else if plan[k].1 then
                 [Fusion.BatchNode(nodes, plan[k].0, |done|),
                     Fusion.ScatterNode(nodes, plan[k].0, nodes[k], |done| + 1)]
               else [Fusion.ScatterNode(nodes, plan[k].0, nodes[k], |done|)])
  {
    hide Fusion.Batchable, Fusion.GroupAt, Fusion.Leads, Fusion.Groups, Fusion.BatchNode, Fusion.ScatterNode;
  }

  lemma NoKeyYet(nodes: seq<Node>)
    ensures hide *; Fusion.Keys(nodes, 0) == []
  {
    hide Frames.Vars, Fusion.KeyOf, Fusion.Groups;
  }

  /** What node `k` adds to the keys and to their members. */
  lemma CandidateStep(nodes: seq<Node>, k: nat)
    requires hide *; k < |nodes|
    ensures var keys, n := Fusion.Keys(nodes, k), nodes[k];
            Fusion.Keys(nodes, k + 1)
            == if Fusion.Batchable(n) && Fusion.KeyOf(n) !in keys then keys + [Fusion.KeyOf(n)] else keys
    ensures forall key :: Fusion.Members(nodes, key, k + 1)
                          == Fusion.Members(nodes, key, k) + if Fusion.InGroup(nodes[k], key) then [k] else []
    ensures forall key | key !in Fusion.Keys(nodes, k) :: Fusion.Members(nodes, key, k) == []
  {
    hide Frames.Vars, Fusion.Groups, DepsOf;
    NoMembersYet(nodes, k);
    hide Fusion.Batchable, Fusion.KeyOf;
  }

  /** A key not seen among the first `k` nodes has no member there. */
  lemma {:induction false} NoMembersYet(nodes: seq<Node>, k: nat)
    requires hide *; k <= |nodes|
    ensures forall key | key !in Fusion.Keys(nodes, k) :: Fusion.Members(nodes, key, k) == []
  {
    hide Fusion.Batchable, Fusion.KeyOf;
    if k > 0 { NoMembersYet(nodes, k - 1); }
  }

  lemma {:induction false} NothingNamed(nodes: seq<Node>, k: nat, s: nat)
    requires hide *; k <= |nodes| && forall n | n in nodes :: !LoopFusion.FusesLoop(n)
    ensures LoopFusion.NextName(nodes, k, s) == s
  {
    hide Frames.Vars, Fusion.KeyOf, Fusion.Groups, DepsOf, LoopFusion.HoistedLoop;
    if k > 0 { NothingNamed(nodes, k - 1, s); }
  }

  // ---------- between the passes ----------

  lemma LoopsStayPlaced(nodes: seq<Node>, s: nat)
    requires Positions(nodes) && Wired(nodes)
    ensures Positions(LoopFusion.FuseLoops(nodes, s)) && BackwardDeps(LoopFusion.FuseLoops(nodes, s))
  {
    hide Frames.Vars, Fusion.KeyOf, Fusion.Groups, DepsOf, LoopFusion.HoistedLoop;
    if exists n :: n in nodes && LoopFusion.FusesLoop(n) {
      LoopFusion.LoopsWellFormed(nodes, s);
    }
    DepsBackward(LoopFusion.FuseLoops(nodes, s));
  }

  lemma DedupStaysPlaced(nodes: seq<Node>)
    requires Positions(nodes) && BackwardDeps(nodes)
    ensures Positions(DedupNodes(nodes)) && BackwardDeps(DedupNodes(nodes))
  {
    hide Frames.Vars, Fusion.KeyOf, Fusion.Groups;
    forall i: nat, d: nat | i < |nodes| && d in DedupNodes(nodes)[i].deps ensures d < i {
      assert DedupNodes(nodes)[i] == DedupNode(nodes, i);
      if Original(nodes, i).Some? { OriginalIsFirst(nodes, i); }
    }
  }

  lemma FusedStaysPlaced(nodes: seq<Node>)
    requires Positions(nodes) && BackwardDeps(nodes)
    ensures Positions(Fusion.FuseNodes(nodes)) && BackwardDeps(Fusion.FuseNodes(nodes))
  {
    hide Frames.Vars, Fusion.KeyOf, Fusion.Groups, DepsOf;
    if Fusion.Groups(nodes) != [] { Fusion.FusedWellFormed(nodes); }
  }

  /** Everything marked is live, every effect is marked, and what a marked node depends on is marked unless
      the node is still on the stack. */
  ghost predicate Worklist(nodes: seq<Node>, live: set<NodeId>, stack: seq<NodeId>) {
    && (forall i | i in live :: i < |nodes| && IsLive(nodes, i))
    && (forall i: nat | i < |nodes| && nodes[i].effect :: i in live)
    && (forall i | i in stack :: i in live)
    && (forall i, d | i in live && i < |nodes| && i !in stack && d in nodes[i].deps :: d in live)
  }

  lemma MarkedInRange(nodes: seq<Node>, live: set<NodeId>, stack: seq<NodeId>)
    requires Worklist(nodes, live, stack)
    ensures forall i | i in live :: i < |nodes|
  {
  }

  lemma NothingSeen(nodes: seq<Node>)
    ensures hide *; Seen(nodes, 0) == map[]
  {
    hide Frames.Vars, Fusion.KeyOf, Fusion.Groups, DepsOf;
  }

  lemma MarkedWorklist(nodes: seq<Node>, live: set<NodeId>, stack: seq<NodeId>, id: NodeId, d: NodeId)
    requires BackwardDeps(nodes) && Worklist(nodes, live, stack + [id]) && id < |nodes| && d in nodes[id].deps
    ensures Worklist(nodes, live + {d}, stack + [d] + [id])
  {
    assert id in stack + [id];
    assert d < id && id in live && IsLive(nodes, id);
    assert IsLive(nodes, d);
    forall i, e | i in live + {d} && i < |nodes| && i !in stack + [d] + [id] && e in nodes[i].deps
        ensures e in live + {d} {
      assert i != d by { assert d in stack + [d] + [id]; }
      assert forall x | x in stack + [id] :: x in stack + [d] + [id];
    }
  }

  lemma WorklistDone(nodes: seq<Node>, live: set<NodeId>, stack: seq<NodeId>, id: NodeId)
    requires Worklist(nodes, live, stack + [id]) && id < |nodes| && forall d | d in nodes[id].deps :: d in live
    ensures Worklist(nodes, live, stack)
  {
    forall i | i in stack ensures i in live { assert i in stack + [id]; }
    forall i, d | i in live && i < |nodes| && i !in stack && d in nodes[i].deps ensures d in live {
      if i != id { assert i !in stack + [id]; }
    }
  }

  lemma {:induction false} Bounded(live: set<NodeId>, n: nat)
    requires forall i | i in live :: i < n
    ensures |live| <= n
  {
    if n > 0 { Bounded(live - {n - 1}, n - 1); }
  }

  /** With nothing left on the stack, the marked nodes are the live ones. */
  lemma LiveIsReached(nodes: seq<Node>, live: set<NodeId>)
    requires Worklist(nodes, live, [])
    ensures forall i: nat | i < |nodes| :: i in live <==> IsLive(nodes, i)
  {
    assert Closed(nodes, live);
    forall i: nat | i < |nodes| && IsLive(nodes, i) ensures i in live { LiveInClosed(nodes, live, i); }
  }
}
