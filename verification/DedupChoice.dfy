/** Which requests deduplication drops, told by the fetches and bindings of the body alone. */
module DedupChoice {
  import opened Wrappers
  import opened Ast
  import opened Ir
  import opened Dedup
  import Printer

  /** A bound GET, and not one request for a whole collection. */
  predicate Droppable(n: Node) {
    hide *;
    && n.kind.FetchN? && n.binding.Some? && n.kind.f.httpMethod == "GET"
    && (n.kind.f.batch.Some? ==> n.kind.f.batch.value.mapped == None)
  }

  predicate SameText(a: PathSeg, b: PathSeg) {
    hide *;
    match (a, b)
    case (Literal(s), Literal(t)) => s == t
    case (Param(d), Param(e)) => Printer.Print(d) == Printer.Print(e)
    case _ => false
  }

  predicate SameOp(a: PipelineOp, b: PipelineOp) {
    hide *;
    match (a, b)
    case (Filter(d), Filter(e)) => Printer.Print(d) == Printer.Print(e)
    case (MapOp(d), MapOp(e)) => Printer.Print(d) == Printer.Print(e)
    case (Limit(d), Limit(e)) => Printer.Print(d) == Printer.Print(e)
    case (Skip(d), Skip(e)) => Printer.Print(d) == Printer.Print(e)
    case (Reverse, Reverse) => true
    case (Flatten, Flatten) => true
    case (Count, Count) => true
    case (Unique(k), Unique(l)) => SameKey(k, l)
    case (Sum(k), Sum(l)) => SameKey(k, l)
    case _ => false
  }

  predicate SameKey(k: Option<Expr>, l: Option<Expr>) {
    hide *;
    k.Some? == l.Some? && (k.Some? ==> Printer.Print(k.value) == Printer.Print(l.value))
  }

  function PrintedParams(params: seq<FieldInit>): multiset<(string, seq<Printer.Token>)> {
    hide *;
    multiset(seq(|params|, i requires 0 <= i < |params| => (params[i].key, Printer.Print(params[i].value))))
  }

  /** The same endpoint; paths, pipelines and, in any order, parameters of the same text; the same names read, from
      the same nodes.  The body, the idempotency key and the declared type are not compared. */
  predicate Twins(n: Node, m: Node)
    requires Droppable(n) && Droppable(m)
  {
    hide FetchSig, Seen, Printer.Print;
    var f, g := n.kind.f, m.kind.f;
    && f.endpoint == g.endpoint
    && |f.path| == |g.path| && (forall i | 0 <= i < |f.path| :: SameText(f.path[i], g.path[i]))
    && PrintedParams(f.params) == PrintedParams(g.params)
    && |f.pipeline| == |g.pipeline| && (forall i | 0 <= i < |f.pipeline| :: SameOp(f.pipeline[i], g.pipeline[i]))
    && n.inputs == m.inputs && n.deps == m.deps
  }

  predicate TwinAt(nodes: seq<Node>, i: nat, j: nat)
    requires i < |nodes| && j < |nodes|
  {
    hide *;
    Droppable(nodes[i]) && Droppable(nodes[j]) && Twins(nodes[i], nodes[j])
  }

  lemma {:induction false} ParamsPrinted(params: seq<FieldInit>)
    ensures hide *; ParamsSig(params) == PrintedParams(params)
  {
    if params != [] {
      ParamsPrinted(params[1..]);
      var all := seq(|params|, i requires 0 <= i < |params| => (params[i].key, Printer.Print(params[i].value)));
      var rest := params[1..];
      assert all == [all[0]] + seq(|rest|, i requires 0 <= i < |rest| => (rest[i].key, Printer.Print(rest[i].value)));
    }
  }

  lemma OpsAlike(a: PipelineOp, b: PipelineOp)
    ensures hide *; OpSigOf(a) == OpSigOf(b) <==> SameOp(a, b)
  {
    hide Printer.Print;
  }

  lemma SameSignature(n: Node, m: Node)
    requires hide FetchSig, Seen, Printer.Print; Droppable(n) && Droppable(m)
    ensures SigOf(n) == SigOf(m) <==> Twins(n, m)
  {
    hide Printer.Print, ParamsSig, PrintedParams, OpSigOf, SameOp;
    var f, g := n.kind.f, m.kind.f;
    var a, b := SigOf(n), SigOf(m);
    ParamsPrinted(f.params);
    ParamsPrinted(g.params);
    forall i | 0 <= i < |f.path| && |f.path| == |g.path|
        ensures a.path[i] == b.path[i] <==> SameText(f.path[i], g.path[i]) {
      assert a.path[i] == SegSigOf(f.path[i]) && b.path[i] == SegSigOf(g.path[i]);
    }
    forall i | 0 <= i < |f.pipeline| && |f.pipeline| == |g.pipeline|
        ensures a.pipeline[i] == b.pipeline[i] <==> SameOp(f.pipeline[i], g.pipeline[i]) {
      OpsAlike(f.pipeline[i], g.pipeline[i]);
      assert a.pipeline[i] == OpSigOf(f.pipeline[i]) && b.pipeline[i] == OpSigOf(g.pipeline[i]);
    }
    assert |a.path| == |f.path| && |b.path| == |g.path| && |a.pipeline| == |f.pipeline| && |b.pipeline| == |g.pipeline|;
    if Twins(n, m) {
      assert a.path == b.path && a.pipeline == b.pipeline;
    }
    if a == b {
      forall i | 0 <= i < |f.path| ensures SameText(f.path[i], g.path[i]) { assert a.path[i] == b.path[i]; }
      forall i | 0 <= i < |f.pipeline| ensures SameOp(f.pipeline[i], g.pipeline[i]) {
        assert a.pipeline[i] == b.pipeline[i];
      }
    }
  }

  /** A request is dropped exactly when an earlier one is its twin: its node then hands on what the first of its
      twins bound.  Every other node stays as it is. */
  lemma DropsExactly(nodes: seq<Node>, i: nat)
    requires hide FetchSig, Seen, Printer.Print; i < |nodes|
    ensures var d := DedupNodes(nodes)[i];
            && ((forall j: nat | j < i :: !TwinAt(nodes, i, j)) ==> d == nodes[i])
            && forall j: nat | j < i && TwinAt(nodes, i, j) && (forall h: nat | h < j :: !TwinAt(nodes, i, h)) ::
                 var name := nodes[j].binding.value;
                 d == nodes[i].(kind := LetN(Ident(name)), inputs := {name}, deps := {j})
  {
    hide FetchSig, SigOf, Seen, Twins, IsFirst;
    forall j: nat | j < |nodes| && Droppable(nodes[i]) && Droppable(nodes[j])
        ensures SigOf(nodes[i]) == SigOf(nodes[j]) <==> Twins(nodes[i], nodes[j]) {
      SameSignature(nodes[i], nodes[j]);
    }
    assert DedupNodes(nodes)[i] == DedupNode(nodes, i);
    var o := Original(nodes, i);
    if o.None? {
      forall j: nat | j < i ensures !TwinAt(nodes, i, j) {
        if Droppable(nodes[j]) { SeenHolds(nodes, i, j); }
      }
    } else {
      OriginalIsTwin(nodes, i);
      assert TwinAt(nodes, i, o.value);
    }
  }

  lemma OriginalIsTwin(nodes: seq<Node>, i: nat)
    requires hide FetchSig, Seen, Printer.Print; i < |nodes| && Original(nodes, i).Some?
    ensures var o := Original(nodes, i).value;
            && o < i && Droppable(nodes[i]) && Droppable(nodes[o]) && SigOf(nodes[o]) == SigOf(nodes[i])
            && forall j: nat | j < |nodes| && j < o && Droppable(nodes[j]) :: SigOf(nodes[j]) != SigOf(nodes[i])
  {
    hide FetchSig, SigOf;
    OriginalIsFirst(nodes, i);
    var o := Original(nodes, i).value;
    forall j: nat | j < |nodes| && j < o && Droppable(nodes[j]) ensures SigOf(nodes[j]) != SigOf(nodes[i]) {
      if SigOf(nodes[j]) == SigOf(nodes[i]) { SeenHolds(nodes, o, j); }
    }
  }
}
