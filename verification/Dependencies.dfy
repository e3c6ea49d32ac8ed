/** Dependency edges: a node depends on the latest earlier writer of each name it reads, and an
    effect on the effect before it. */
module Dependencies {
  import opened Wrappers
  import opened Ir

  function LastWriter(nodes: seq<Node>, i: nat, name: string): (r: Option<NodeId>)
    requires i <= |nodes|
    ensures r.Some? ==> r.value < i && nodes[r.value].binding == Some(name)
    ensures forall j | (if r.Some? then r.value + 1 else 0) <= j < i :: nodes[j].binding != Some(name)
  {
    if i == 0 then None
    else if nodes[i - 1].binding == Some(name) then Some(i - 1)
    else LastWriter(nodes, i - 1, name)
  }

  function LastEffect(nodes: seq<Node>, i: nat): (r: Option<NodeId>)
    requires i <= |nodes|
    ensures r.Some? ==> r.value < i && nodes[r.value].effect
    ensures forall j | (if r.Some? then r.value + 1 else 0) <= j < i :: !nodes[j].effect
  {
    if i == 0 then None
    else if nodes[i - 1].effect then Some(i - 1)
    else LastEffect(nodes, i - 1)
  }

  function DepsOf(nodes: seq<Node>, i: nat): set<NodeId>
    requires i < |nodes|
  {
    (set x | x in nodes[i].inputs && LastWriter(nodes, i, x).Some? :: LastWriter(nodes, i, x).value)
    + (if nodes[i].effect && LastEffect(nodes, i).Some? then {LastEffect(nodes, i).value} else {})
  }

  function WithDeps(nodes: seq<Node>): seq<Node> {
    seq(|nodes|, i requires 0 <= i < |nodes| => nodes[i].(deps := DepsOf(nodes, i)))
  }

  ghost predicate Wired(nodes: seq<Node>) {
    forall i: nat | i < |nodes| :: nodes[i].deps == DepsOf(nodes, i)
  }

  /** `d` is the last member of `marks` before `i`. */
  ghost predicate Latest(marks: set<NodeId>, d: NodeId, i: NodeId) {
    d in marks && d < i && forall j | d < j < i :: j !in marks
  }

  ghost function Writers(nodes: seq<Node>, name: string): set<NodeId> {
    set j: nat | j < |nodes| && nodes[j].binding == Some(name)
  }

  ghost function Effects(nodes: seq<Node>): set<NodeId> {
    set j: nat | j < |nodes| && nodes[j].effect
  }

  /** The edges are exactly the reaching definitions and the effect chain. */
  lemma DepsMeaning(nodes: seq<Node>, i: nat, d: nat)
    requires i < |nodes|
    ensures d in DepsOf(nodes, i) <==>
            (exists x :: x in nodes[i].inputs && Latest(Writers(nodes, x), d, i))
            || (nodes[i].effect && Latest(Effects(nodes), d, i))
  {
    forall x | x in nodes[i].inputs
      ensures LastWriter(nodes, i, x) == Some(d) <==> Latest(Writers(nodes, x), d, i)
    {
      var w := LastWriter(nodes, i, x);
      assert forall j: nat | j < i :: j in Writers(nodes, x) <==> nodes[j].binding == Some(x);
      assert w.Some? ==> w.value in Writers(nodes, x);
    }
    var e := LastEffect(nodes, i);
    assert forall j | d < j < i :: j in Effects(nodes) <==> nodes[j].effect;
    if e.Some? { assert e.value in Effects(nodes); }
    if Latest(Effects(nodes), d, i) { assert nodes[d].effect; }
    if exists x :: x in nodes[i].inputs && Latest(Writers(nodes, x), d, i) {
      var x :| x in nodes[i].inputs && Latest(Writers(nodes, x), d, i);
      assert LastWriter(nodes, i, x) == Some(d);
      assert d in DepsOf(nodes, i);
    }
  }

  /** Only bindings, effects and reads matter to the edges. */
  ghost predicate SameShape(a: seq<Node>, b: seq<Node>) {
    |a| == |b| && forall i | 0 <= i < |a| ::
      a[i].binding == b[i].binding && a[i].effect == b[i].effect && a[i].inputs == b[i].inputs
  }

  lemma SameEdges(a: seq<Node>, b: seq<Node>, i: nat)
    requires SameShape(a, b) && i < |a|
    ensures DepsOf(a, i) == DepsOf(b, i)
  {
    forall x ensures LastWriter(a, i, x) == LastWriter(b, i, x) { SameLast(a, b, i, x); }
    SameLast(a, b, i, "");
  }

  lemma {:induction false} SameLast(a: seq<Node>, b: seq<Node>, i: nat, x: string)
    requires SameShape(a, b) && i <= |a|
    ensures LastWriter(a, i, x) == LastWriter(b, i, x)
    ensures LastEffect(a, i) == LastEffect(b, i)
  {
    if i > 0 { SameLast(a, b, i - 1, x); }
  }

  /** Wiring is idempotent: the wired list already has its own edges. */
  lemma WithDepsFixed(nodes: seq<Node>, i: nat)
    requires i < |nodes|
    ensures WithDeps(nodes)[i].deps == DepsOf(WithDeps(nodes), i)
  {
    SameEdges(nodes, WithDeps(nodes), i);
  }

  function Find(writers: map<string, NodeId>, name: string): Option<NodeId> {
    if name in writers then Some(writers[name]) else None
  }

  lemma DepsFromMaps(nodes: seq<Node>, i: nat, writers: map<string, NodeId>, deps: set<NodeId>)
    requires i < |nodes|
    requires forall x :: Find(writers, x) == LastWriter(nodes, i, x)
    requires deps == set x | x in nodes[i].inputs && x in writers :: writers[x]
    ensures DepsOf(nodes, i)
         == deps + (if nodes[i].effect && LastEffect(nodes, i).Some? then {LastEffect(nodes, i).value} else {})
  {
    forall x | x in nodes[i].inputs
      ensures x in writers <==> LastWriter(nodes, i, x).Some?
      ensures x in writers ==> LastWriter(nodes, i, x) == Some(writers[x])
    {
      assert Find(writers, x) == LastWriter(nodes, i, x);
    }
  }

  lemma WriterStep(nodes: seq<Node>, i: nat, writers: map<string, NodeId>)
    requires i < |nodes|
    requires forall x :: Find(writers, x) == LastWriter(nodes, i, x)
    ensures var next := if nodes[i].binding.Some? then writers[nodes[i].binding.value := i] else writers;
            forall x :: Find(next, x) == LastWriter(nodes, i + 1, x)
  {
    var next := if nodes[i].binding.Some? then writers[nodes[i].binding.value := i] else writers;
    forall x ensures Find(next, x) == LastWriter(nodes, i + 1, x) {
      assert Find(writers, x) == LastWriter(nodes, i, x);
    }
  }

  method Edges(ghost nodes: seq<Node>, i: nat, n: Node, writers: map<string, NodeId>, effect: Option<NodeId>)
    returns (deps: set<NodeId>)
    requires i < |nodes| && n == nodes[i]
    requires forall x :: Find(writers, x) == LastWriter(nodes, i, x)
    requires effect == LastEffect(nodes, i)
    ensures deps == DepsOf(nodes, i)
  {
    deps := set x | x in n.inputs && x in writers :: writers[x];
    DepsFromMaps(nodes, i, writers, deps);
    if n.effect && effect.Some? { deps := deps + {effect.value}; }
  }

  /** Wire the edges of a node list in place. */
  method ComputeDeps(nodes: array<Node>)
    modifies nodes
    ensures nodes[..] == WithDeps(old(nodes[..]))
  {
    hide LastWriter, DepsOf;
    ghost var was := nodes[..];
    ghost var fixed := WithDeps(was);
    var lastWriter: map<string, NodeId> := map[];
    var lastEffect: Option<NodeId> := None;
    var i := 0;
    while i < nodes.Length
      invariant 0 <= i <= nodes.Length
      invariant forall x :: Find(lastWriter, x) == LastWriter(was, i, x)
      invariant lastEffect == LastEffect(was, i)
      invariant forall j | 0 <= j < i :: nodes[j] == fixed[j]
      invariant forall j | i <= j < nodes.Length :: nodes[j] == was[j]
    {
      var deps := Edges(was, i, nodes[i], lastWriter, lastEffect);
      WriterStep(was, i, lastWriter);
      if nodes[i].effect {
        lastEffect := Some(i);
      }
      nodes[i] := nodes[i].(deps := deps);
      if nodes[i].binding.Some? {
        lastWriter := lastWriter[nodes[i].binding.value := i];
      }
      i := i + 1;
    }
  }
}
