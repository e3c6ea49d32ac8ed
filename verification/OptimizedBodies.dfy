/** The side conditions of the cost and effect analyses, for the bodies that the optimizer makes. */
module OptimizedBodies {
  import opened Wrappers
  import opened Ast
  import opened Frames
  import opened Ir
  import opened Exec
  import opened Dependencies
  import opened Readiness
  import opened Schedule
  import opened CostBounds
  import opened Capabilities
  import opened FanOut

  /** The computed schedule holds only live nodes, each once. */
  lemma OptimizedIsLaidOut(nodes: seq<Node>)
    ensures LaidOut(Optimized(nodes))
  {
    var b := Optimized(nodes);
    WavesExact(b.nodes);
    forall k: nat, i: nat | k < |b.waves| && i in b.waves[k] ensures OnLevel(b.nodes, i, k) {
    }
    forall k: nat, l: nat, i: nat | k < l < |b.waves| && i in b.waves[k] ensures i !in b.waves[l] {
      assert OnLevel(b.nodes, i, k);
      assert !OnLevel(b.nodes, i, l);
    }
  }

  /** Two nodes of one wave are never both effects, so only a fetch can stand beside a call, a match
      or a loop. */
  lemma OneEffectPerWave(nodes: seq<Node>, k: nat, i: nat, j: nat)
    requires Wired(nodes) && k < |Optimized(nodes).waves| && i in Optimized(nodes).waves[k]
             && j in Optimized(nodes).waves[k]
    requires i < j
    ensures j < |nodes| && !(nodes[i].effect && nodes[j].effect)
  {
    var ns := WithLive(nodes);
    WavesExact(ns);
    assert OnLevel(ns, i, k) && OnLevel(ns, j, k);
    if nodes[i].effect && nodes[j].effect { EffectsInOrder(nodes, i, j); }
  }

  lemma {:induction false} FindFetchAt(nodes: seq<Node>, name: string) returns (j: nat)
    requires FindFetch(nodes, name).Some?
    ensures j < |nodes| && nodes[j].binding == Some(name) && nodes[j].kind == FetchN(FindFetch(nodes, name).value)
  {
    if nodes[0].kind.FetchN? && nodes[0].binding == Some(name) {
      j := 0;
    } else {
      var i := FindFetchAt(nodes[1..], name);
      j := i + 1;
    }
  }

  /** In a single-assignment body the fetch that a retry runs again is the one that the match
      depends on, so it is live. */
  lemma OptimizedRetries(nodes: seq<Node>)
    requires Recorded(Body(nodes, [])) && SingleAssignment(Body(nodes, []))
    ensures RetriesLiveFetches(Optimized(nodes))
  {
    hide Vars, KindVars, BodyVars, Uses, DepsOf;
    var b := Optimized(nodes);
    forall n | n in b.nodes && n.live && n.kind.MatchN? && Retries(n.kind.m.arms) && n.kind.m.scrutinee.Ident?
      && FindFetch(b.nodes, n.kind.m.scrutinee.name).Some?
      ensures Fetches(b, FindFetch(b.nodes, n.kind.m.scrutinee.name).value)
    {
      var i: nat :| i < |b.nodes| && b.nodes[i] == n;
      var j := FindFetchAt(b.nodes, n.kind.m.scrutinee.name);
      ScrutineeIsDep(nodes, i, j);
      assert b.nodes[j].live;
      assert b.nodes[j] in b.nodes;
    }
  }

  lemma ScrutineeIsDep(nodes: seq<Node>, i: nat, j: nat)
    requires hide *; Recorded(Body(nodes, [])) && SingleAssignment(Body(nodes, []))
    requires i < |nodes| && j < |nodes| && nodes[i].kind.MatchN? && nodes[i].kind.m.scrutinee.Ident?
    requires nodes[j].binding == Some(nodes[i].kind.m.scrutinee.name) && IsLive(nodes, i)
    ensures j < i && j in nodes[i].deps && IsLive(nodes, j)
  {
    var b := Body(nodes, []);
    var x := nodes[i].kind.m.scrutinee.name;
    assert x in Vars(nodes[i].kind.m.scrutinee, true);
    assert x in Uses(b, i) && x in BindSet(b.nodes[j]);
    assert j < i;
    assert nodes[j] in nodes;
    assert x in nodes[i].inputs;
    var w := LastWriter(nodes, i, x);
    assert w.Some? && x in BindSet(b.nodes[w.value]);
    assert w.value == j;
    assert j in DepsOf(nodes, i);
  }
}
