/** Static fusion keeps a body fit for scheduling, so its batches and scatters run in waves as they do
    in program order. */
module FusionSound {
  import opened Wrappers
  import opened Ast
  import opened Frames
  import opened Ir
  import opened Quiet
  import opened Readiness
  import opened BodyEquality
  import opened FreshNames
  import opened Dedup
  import opened Fusion
  import opened FusionMeaning

  /** Where a node of the rewritten list comes from. */
  datatype Origin = Original(i: nat) | BatchOf(g: nat) | ScatterOf(i: nat, g: nat)

  ghost predicate Genuine(nodes: seq<Node>, o: Origin) {
    hide *;
    match o
    case Original(i) => i < |nodes| && GroupAt(nodes, i).None?
    case BatchOf(g) => g < |Groups(nodes)|
    case ScatterOf(i, g) =>
        i < |nodes| && g < |Groups(nodes)| && Batchable(nodes[i]) && GroupAt(nodes, i) == Some(g)
        && i in MembersOf(nodes, g)
  }

  function Render(nodes: seq<Node>, o: Origin, at: nat): Node
    requires Genuine(nodes, o)
  {
    hide Vars, KeyOf, Groups;
    match o
    case Original(i) => nodes[i].(id := at)
    case BatchOf(g) => BatchNode(nodes, g, at)
    case ScatterOf(i, g) => ScatterNode(nodes, g, nodes[i], at)
  }

  /** The written order: a batch goes just before the first member of its group. */
  function Order(nodes: seq<Node>, o: Origin): nat
    requires Genuine(nodes, o)
  {
    hide Vars, KeyOf, Groups;
    match o
    case Original(i) => 2 * i + 1
    case BatchOf(g) => 2 * First(nodes, g)
    case ScatterOf(i, _) => 2 * i + 1
  }

  function OriginsOf(nodes: seq<Node>, i: nat): seq<Origin>
    requires i < |nodes|
  {
    hide Vars, KeyOf, Groups;
    var g := GroupAt(nodes, i);
    if g.None? then [Original(i)]
    else if Leads(nodes, i, g.value) then [BatchOf(g.value), ScatterOf(i, g.value)]
    else [ScatterOf(i, g.value)]
  }

  function Origins(nodes: seq<Node>, k: nat): seq<Origin>
    requires k <= |nodes|
  {
    hide *;
    if k == 0 then [] else Origins(nodes, k - 1) + OriginsOf(nodes, k - 1)
  }

  /** Origins are genuine, in written order, and below `most`. */
  ghost predicate InOrderBelow(nodes: seq<Node>, os: seq<Origin>, most: nat) {
    hide *;
    && (forall q: nat | q < |os| :: Genuine(nodes, os[q]) && Order(nodes, os[q]) < most)
    && (forall p: nat, q: nat | p < q < |os| :: Order(nodes, os[p]) < Order(nodes, os[q]))
  }

  lemma AloneIs(nodes: seq<Node>, i: nat)
    requires hide *; i < |nodes| && GroupAt(nodes, i).None?
    ensures Genuine(nodes, Original(i)) && Order(nodes, Original(i)) == 2 * i + 1
  {
    hide Vars, KeyOf, Groups, GroupAt;
  }

  lemma MemberIs(nodes: seq<Node>, i: nat)
    requires hide *; i < |nodes| && GroupAt(nodes, i).Some?
    ensures var o := ScatterOf(i, GroupAt(nodes, i).value);
            Genuine(nodes, o) && Order(nodes, o) == 2 * i + 1
  {
    hide Vars, KeyOf;
    GroupMember(nodes, i);
    hide GroupAt, Batchable, MembersOf, Groups;
  }

  lemma LeaderIs(nodes: seq<Node>, i: nat)
    requires hide Vars, KeyOf, Groups;
             i < |nodes| && GroupAt(nodes, i).Some? && Leads(nodes, i, GroupAt(nodes, i).value)
    ensures var o := BatchOf(GroupAt(nodes, i).value);
            Genuine(nodes, o) && Order(nodes, o) == 2 * i
  {
    hide Vars, KeyOf;
    GroupMember(nodes, i);
    hide GroupAt, Batchable, MembersOf, Groups;
  }

  /** One origin or two, in order: a node of its own, or a scatter, after its batch if it leads its group. */
  lemma OriginsAreOrdered(nodes: seq<Node>, i: nat)
    requires hide Vars, KeyOf, Groups; i < |nodes|
    ensures var os := OriginsOf(nodes, i);
            InOrderBelow(nodes, os, 2 * i + 2) && forall q: nat | q < |os| :: Order(nodes, os[q]) >= 2 * i
  {
    hide Batchable, KeyOf, Groups, MembersOf;
    var g := GroupAt(nodes, i);
    if g.None? {
      AloneIs(nodes, i);
    } else {
      MemberIs(nodes, i);
      if Leads(nodes, i, g.value) { LeaderIs(nodes, i); }
    }
    hide GroupAt, Leads, Genuine, Order;
  }

  /** They are what the node expands to. */
  lemma OriginsAreShown(nodes: seq<Node>, i: nat, at: nat)
    requires hide *; i < |nodes|
    ensures var os := OriginsOf(nodes, i);
            && |Expand(nodes, i, at)| == |os| && (forall q: nat | q < |os| :: Genuine(nodes, os[q]))
            && forall q: nat | q < |os| :: Expand(nodes, i, at)[q] == Render(nodes, os[q], at + q)
  {
    hide Batchable, KeyOf, Groups, MembersOf, BatchNode, ScatterNode;
    OriginsAreOrdered(nodes, i);
    hide GroupAt, Leads, Genuine, Order;
  }

  lemma {:induction false} OriginsInOrder(nodes: seq<Node>, k: nat)
    requires hide *; k <= |nodes|
    ensures InOrderBelow(nodes, Origins(nodes, k), 2 * k)
  {
    hide OriginsOf, Expand, Render, Genuine, Order;
    if k > 0 {
      OriginsInOrder(nodes, k - 1);
      OriginsAreOrdered(nodes, k - 1);
    }
  }

  lemma {:induction false} OriginsRender(nodes: seq<Node>, k: nat)
    requires hide *; k <= |nodes|
    ensures |Rebuild(nodes, k)| == |Origins(nodes, k)|
    ensures forall q: nat | q < |Origins(nodes, k)| ::
              Genuine(nodes, Origins(nodes, k)[q]) && Rebuild(nodes, k)[q] == Render(nodes, Origins(nodes, k)[q], q)
  {
    hide OriginsOf, Expand, Render, Genuine, Order;
    if k > 0 {
      OriginsRender(nodes, k - 1);
      OriginsAreShown(nodes, k - 1, |Rebuild(nodes, k - 1)|);
    }
  }

  // ---------- reads and bindings of the rewritten nodes ----------

  ghost predicate Fit(b: Body) {
    Sound(b) && FuseReady(b)
  }

  lemma NodeAvoids(b: Body, i: nat)
    requires hide *; Fit(b) && i < |b.nodes|
    ensures Uses(b, i) !! BatchNames(b.nodes) && Writes(b.nodes[i]) !! BatchNames(b.nodes)
  {
    hide Vars, KeyOf, Groups;
    AvoidsNode(b, i, BatchNames(b.nodes));
    AvoidsUses(b.nodes[i].kind, BatchNames(b.nodes));
  }

  /** What a batch reads: every name is one that some member of its group reads, is recorded if the
      body binds it, and is not bound from the first member on. */
  lemma BatchReads(b: Body, g: nat, x: string)
    requires hide Vars, Uses, KeyOf, Groups;
             Fit(b) && g < |Groups(b.nodes)| && x in KindVars(BatchNode(b.nodes, g, 0).kind, true)
    ensures x !in BatchNames(b.nodes) && x !in BoundFrom(b.nodes, First(b.nodes, g))
    ensures x in Binds(b.nodes) ==> x in BatchNode(b.nodes, g, 0).inputs
    ensures exists i :: i in MembersOf(b.nodes, g) && x in Uses(b, i)
  {
    hide Vars, KeyOf, Groups;
    var f, first, m := BatchFetch(b.nodes, g), First(b.nodes, g), MembersOf(b.nodes, g);
    assert MembersPlain(b, g);
    assert PlainMember(b, first, first);
    GroupsFusable(b.nodes, g);
    assert x in PathVars(f.path, true) + ExprsVars(f.batch.value.ids, true);
    if x in PathVars(f.path, true) {
      IdIsUsed(b, first);
      NodeAvoids(b, first);
      BoundIsBound(b.nodes, first);
    } else {
      var j := InExprs(f.batch.value.ids, x);
      assert m[j] in m;
      assert PlainMember(b, m[j], first);
      IdIsUsed(b, m[j]);
      NodeAvoids(b, m[j]);
      BoundIsBound(b.nodes, first);
      ExprsFreeHas(f.batch.value.ids, j);
    }
  }

  lemma BoundIsBound(nodes: seq<Node>, first: nat)
    ensures BoundFrom(nodes, first) <= Binds(nodes)
  {
    forall x | x in BoundFrom(nodes, first) ensures x in Binds(nodes) {
      var i: nat :| first <= i < |nodes| && nodes[i].binding.Some? && nodes[i].binding.value == x;
      assert nodes[i] in nodes;
    }
  }

  lemma {:induction false} InExprs(es: seq<Expr>, x: string) returns (j: nat)
    requires hide *; x in ExprsVars(es, true)
    ensures j < |es| && x in Vars(es[j], true)
  {
    hide Vars, KeyOf, Groups;
    if x in Vars(es[0], true) {
      j := 0;
    } else {
      var i := InExprs(es[1..], x);
      j := i + 1;
    }
  }

  lemma {:induction false} ExprsFreeHas(es: seq<Expr>, j: nat)
    requires hide *; j < |es|
    ensures Vars(es[j], false) <= ExprsFree(es)
  {
    hide Vars, KeyOf, Groups;
    if j > 0 { ExprsFreeHas(es[1..], j - 1); }
  }

  lemma MemberReads(b: Body, i: nat, g: nat)
    requires hide Vars, Uses, KeyOf, Groups; Fit(b) && Genuine(b.nodes, ScatterOf(i, g))
    ensures Vars(IdOf(b.nodes[i]), true) <= Uses(b, i)
    ensures Vars(IdOf(b.nodes[i]), true) * Binds(b.nodes) <= Vars(IdOf(b.nodes[i]), false)
    ensures First(b.nodes, g) <= i && b.nodes[i].kind.FetchN?
  {
    hide Vars, KindVars, BodyVars, Uses, KeyOf, Groups;
    IdIsUsed(b, i);
    assert MembersPlain(b, g);
    assert PlainMember(b, i, First(b.nodes, g));
    FirstIsFirst(MembersOf(b.nodes, g), i);
  }

  /** The body after the pass; only its schedule is still missing. */
  ghost function FusedBody(b: Body): Body { Body(FuseNodes(b.nodes), []) }

  /** The node that origin `o` becomes, wherever it stands. */
  function Made(nodes: seq<Node>, o: Origin): Node
    requires Genuine(nodes, o)
  {
    hide *;
    Render(nodes, o, 0)
  }

  ghost function MadeUses(nodes: seq<Node>, o: Origin): set<string>
    requires Genuine(nodes, o)
  {
    hide *;
    KindVars(Made(nodes, o).kind, true)
  }

  /** The reads of an origin: those of the node it comes from, and the batch that a scatter picks from. */
  lemma ReadsOf(b: Body, o: Origin, x: string)
    requires hide Vars, Uses, KeyOf, Groups; Fit(b) && Genuine(b.nodes, o) && x in MadeUses(b.nodes, o)
    ensures match o
            case Original(i) => x in Uses(b, i)
            case ScatterOf(i, g) => x == BatchName(g)
                || (x in Uses(b, i) && (x in Binds(b.nodes) ==> x in Made(b.nodes, o).inputs))
            case BatchOf(g) => x in KindVars(BatchNode(b.nodes, g, 0).kind, true)
  {
    hide KeyOf, Fusion.Groups, Fit, BatchFetch, Vars, Batchable, GroupAt, MembersOf;
    match o {
      case Original(i) =>
      case ScatterOf(i, g) => MemberReads(b, i, g);
      case BatchOf(g) =>
    }
  }

  /** Nothing is bound at or after a node that reads it. */
  lemma ReadsComeAfter(b: Body, o: Origin, o2: Origin)
    requires hide *; Fit(b) && Genuine(b.nodes, o) && Genuine(b.nodes, o2) && Order(b.nodes, o) <= Order(b.nodes, o2)
    ensures MadeUses(b.nodes, o) !! BindSet(Made(b.nodes, o2))
  {
    hide Vars, KindVars, BodyVars, KeyOf, Groups, Fit, Uses, BatchNames;
    forall x | x in MadeUses(b.nodes, o) && x in BindSet(Made(b.nodes, o2)) ensures false {
      ReadsOf(b, o, x);
      BoundBy(b, o2, x);
      match o {
        case Original(i) => NodeAvoids(b, i); NotRead(b, i, o2, x);
        case ScatterOf(i, g) =>
          NodeAvoids(b, i);
          if x == BatchName(g) { BatchNamed(b.nodes, g); MemberReads(b, i, g); SameBatch(b, g, o2); } else { NotRead(b,
              i, o2, x); }
        case BatchOf(g) => BatchReads(b, g, x); NotBoundLater(b, g, o2, x);
      }
    }
  }

  lemma BatchNamed(nodes: seq<Node>, g: nat)
    requires g < |Groups(nodes)|
    ensures BatchName(g) in BatchNames(nodes)
  {
    hide Vars, KeyOf, Groups;
  }

  /** Who binds `x` in the rewritten body. */
  lemma BoundBy(b: Body, o: Origin, x: string)
    requires hide Vars, Uses, KeyOf, Groups; Fit(b) && Genuine(b.nodes, o) && x in BindSet(Made(b.nodes, o))
    ensures match o
            case Original(i) => x in BindSet(b.nodes[i]) && x in Binds(b.nodes) && x !in BatchNames(b.nodes)
            case ScatterOf(i, _) => x in BindSet(b.nodes[i]) && x in Binds(b.nodes) && x !in BatchNames(b.nodes)
            case BatchOf(g) => x == BatchName(g) && x in BatchNames(b.nodes)
  {
    hide Vars, KindVars, BodyVars, Uses, KeyOf, Groups;
    match o {
      case Original(i) => NodeAvoids(b, i); assert b.nodes[i] in b.nodes;
      case ScatterOf(i, _) => NodeAvoids(b, i); assert b.nodes[i] in b.nodes;
      case BatchOf(g) =>
    }
  }

  lemma NotRead(b: Body, i: nat, o: Origin, x: string)
    requires hide *; Fit(b) && i < |b.nodes| && Genuine(b.nodes, o) && 2 * i + 1 <= Order(b.nodes, o) && x in Uses(b, i)
    requires x !in BatchNames(b.nodes)
    ensures x !in BindSet(Made(b.nodes, o))
  {
    hide Vars, KindVars, BodyVars, Uses, KeyOf, Groups;
    if x in BindSet(Made(b.nodes, o)) {
      BoundBy(b, o, x);
    }
  }

  lemma NotBoundLater(b: Body, g: nat, o: Origin, x: string)
    requires hide *;
             Fit(b) && g < |Groups(b.nodes)| && Genuine(b.nodes, o) && 2 * First(b.nodes, g) <= Order(b.nodes, o)
    requires x !in BatchNames(b.nodes) && x !in BoundFrom(b.nodes, First(b.nodes, g))
    ensures x !in BindSet(Made(b.nodes, o))
  {
    hide Vars, KindVars, BodyVars, Uses, KeyOf, Groups;
    if x in BindSet(Made(b.nodes, o)) {
      BoundBy(b, o, x);
    }
  }

  /** A batch name is bound by its own batch only, which comes before every scatter of the group. */
  lemma SameBatch(b: Body, g: nat, o: Origin)
    requires hide *; Fit(b) && g < |Groups(b.nodes)| && Genuine(b.nodes, o) && BatchName(g) in BindSet(Made(b.nodes, o))
    ensures o == BatchOf(g)
  {
    hide *;
    BatchNamed(b.nodes, g);
    BoundBy(b, o, BatchName(g));
    if o.BatchOf? { BatchNamesDistinct(g, o.g); }
  }

  /** No name is bound twice. */
  lemma BoundOnce(b: Body, o: Origin, o2: Origin)
    requires hide *; Fit(b) && Genuine(b.nodes, o) && Genuine(b.nodes, o2) && Order(b.nodes, o) < Order(b.nodes, o2)
    ensures BindSet(Made(b.nodes, o)) !! BindSet(Made(b.nodes, o2))
  {
    hide Vars, KindVars, BodyVars, Uses, KeyOf, Groups;
    forall x | x in BindSet(Made(b.nodes, o)) && x in BindSet(Made(b.nodes, o2)) ensures false {
      BoundBy(b, o, x);
      BoundBy(b, o2, x);
      if o.BatchOf? { SameBatch(b, o.g, o2); }
    }
  }

  ghost predicate Spread(b: Body, os: seq<Origin>) {
    hide Vars, KeyOf, Groups;
    InOrderBelow(b.nodes, os, 2 * |b.nodes|)
    && |FuseNodes(b.nodes)| == |os|
    && forall q: nat | q < |os| :: Shows(FuseNodes(b.nodes)[q], b.nodes, os[q], q)
  }

  ghost predicate Shows(n: Node, nodes: seq<Node>, o: Origin, at: nat)
    requires Genuine(nodes, o)
  {
    hide *;
    var m := Made(nodes, o);
    n.id == at && n.kind == m.kind && n.binding == m.binding && n.inputs == m.inputs && n.effect == m.effect
  }

  lemma RenderShows(nodes: seq<Node>, o: Origin, at: nat, n: Node)
    requires hide *; Genuine(nodes, o) && n.(deps := {}) == Render(nodes, o, at).(deps := {})
    ensures Shows(n, nodes, o, at)
  {
    hide Vars, KeyOf, GroupAt, Groups, Batchable, MembersOf, BatchFetch;
  }

  lemma FusedSpread(b: Body)
    requires hide *; Groups(b.nodes) != []
    ensures Spread(b, Origins(b.nodes, |b.nodes|))
  {
    hide Origins, Render, Shows, Genuine, Order, Groups, Rebuild;
    var os, out := Origins(b.nodes, |b.nodes|), Rebuild(b.nodes, |b.nodes|);
    OriginsInOrder(b.nodes, |b.nodes|);
    OriginsRender(b.nodes, |b.nodes|);
    forall q: nat | q < |os| ensures Shows(FuseNodes(b.nodes)[q], b.nodes, os[q], q) {
      assert FuseNodes(b.nodes)[q].(deps := {}) == out[q].(deps := {});
      RenderShows(b.nodes, os[q], q, FuseNodes(b.nodes)[q]);
    }
  }

  lemma BindsOfFused(b: Body, os: seq<Origin>, x: string)
    requires Fit(b) && Spread(b, os) && x in Binds(FuseNodes(b.nodes))
    ensures x in Binds(b.nodes) || x in BatchNames(b.nodes)
  {
    hide Vars, KindVars, BodyVars, Uses, KeyOf, Groups;
    var n :| n in FuseNodes(b.nodes) && n.binding.Some? && n.binding.value == x;
    var q: nat :| q < |FuseNodes(b.nodes)| && FuseNodes(b.nodes)[q] == n;
    assert Shows(n, b.nodes, os[q], q);
    hide Fit;
    BoundBy(b, os[q], x);
  }

  /** Whatever a rewritten node reads from the body is recorded. */
  lemma FusedRecords(b: Body, os: seq<Origin>, q: nat, x: string)
    requires hide Vars, Uses, KeyOf, Groups;
             Fit(b) && Spread(b, os) && q < |os| && x in Uses(FusedBody(b), q) && x in Binds(FuseNodes(b.nodes))
    ensures x in FuseNodes(b.nodes)[q].inputs
  {
    hide Vars, KeyOf, Groups;
    var o := os[q];
    assert Shows(FuseNodes(b.nodes)[q], b.nodes, o, q);
    BindsOfFused(b, os, x);
    ReadsOf(b, o, x);
    match o {
      case Original(i) =>
        NodeAvoids(b, i);
        RecordedNode(b, i, x);
      case ScatterOf(i, g) =>
        NodeAvoids(b, i);
      case BatchOf(g) => BatchReads(b, g, x);
    }
  }

  lemma RecordedNode(b: Body, i: nat, x: string)
    requires hide *; Fit(b) && i < |b.nodes| && x in Uses(b, i) && x in Binds(b.nodes)
    ensures x in b.nodes[i].inputs
  {
    hide Vars, KindVars, BodyVars, Uses, KeyOf, Groups;
  }

  /** A name that leaks from an original node is not read by another one. */
  lemma LeakNotRead(b: Body, i: nat, o: Origin, x: string)
    requires hide *; Fit(b) && i < |b.nodes| && x in Leaks(b.nodes[i].kind) && Genuine(b.nodes, o) && o != Original(i)
    requires Genuine(b.nodes, Original(i))
    ensures x !in MadeUses(b.nodes, o)
  {
    hide Vars, KindVars, BodyVars, Uses, KeyOf, Groups, Fit;
    NodeAvoids(b, i);
    if x in MadeUses(b.nodes, o) {
      ReadsOf(b, o, x);
      match o {
        case Original(j) => LeaksApart(b, i, j);
        case ScatterOf(j, g) => BatchNamed(b.nodes, g); LeaksApart(b, i, j);
        case BatchOf(g) =>
          BatchReads(b, g, x);
          var j :| j in MembersOf(b.nodes, g) && x in Uses(b, j);
          FetchLeaks(b, g, j);
          LeaksApart(b, i, j);
      }
    }
  }

  lemma LeakNotBound(b: Body, i: nat, o: Origin, x: string)
    requires hide *; Fit(b) && i < |b.nodes| && x in Leaks(b.nodes[i].kind) && Genuine(b.nodes, o) && o != Original(i)
    requires Genuine(b.nodes, Original(i))
    ensures x !in BindSet(Made(b.nodes, o))
  {
    hide Vars, KindVars, BodyVars, Uses, KeyOf, Groups, Fit;
    NodeAvoids(b, i);
    if x in BindSet(Made(b.nodes, o)) {
      BoundBy(b, o, x);
      match o {
        case Original(j) => LeaksApart(b, i, j);
        case ScatterOf(j, g) => LeaksApart(b, i, j);
        case BatchOf(g) =>
      }
    }
  }

  /** Names that escape from nested bodies are still not used elsewhere. */
  lemma FusedLeaks(b: Body, os: seq<Origin>, p: nat, q: nat, x: string)
    requires hide Vars, Uses, KeyOf, Groups;
             Fit(b) && Spread(b, os) && p < |os| && q < |os| && p != q && x in Leaks(FuseNodes(b.nodes)[p].kind)
    ensures x !in Uses(FusedBody(b), q) && x !in BindSet(FuseNodes(b.nodes)[q])
  {
    hide Vars, KeyOf, Fit, Genuine, Groups;
    assert Shows(FuseNodes(b.nodes)[p], b.nodes, os[p], p) && Shows(FuseNodes(b.nodes)[q], b.nodes, os[q], q);
    assert os[p].Original? by { FetchesLeakNothing(b.nodes, os[p]); }
    assert Order(b.nodes, os[p]) != Order(b.nodes, os[q]);
    GenuineIndex(b.nodes, os[p]);
    LeakNotRead(b, os[p].i, os[q], x);
    LeakNotBound(b, os[p].i, os[q], x);
  }

  lemma GenuineIndex(nodes: seq<Node>, o: Origin)
    requires hide *; Genuine(nodes, o) && o.Original?
    ensures o.i < |nodes| && Made(nodes, o).kind == nodes[o.i].kind
  {
    hide Vars, KeyOf, Groups;
  }

  lemma FetchesLeakNothing(nodes: seq<Node>, o: Origin)
    requires hide *; Genuine(nodes, o)
    ensures !o.Original? ==> Leaks(Made(nodes, o).kind) == {}
  {
    hide Vars, KeyOf, Groups;
  }

  /** Members are fetches, from which nothing leaks. */
  lemma FetchLeaks(b: Body, g: nat, j: nat)
    requires hide *; g < |Groups(b.nodes)| && j in MembersOf(b.nodes, g)
    ensures j < |b.nodes| && b.nodes[j].kind.FetchN? && Leaks(b.nodes[j].kind) == {}
  {
    hide Vars, KeyOf, Groups;
  }

  lemma LeaksApart(b: Body, i: nat, j: nat)
    requires hide *; Fit(b) && i < |b.nodes| && j < |b.nodes| && i != j
    ensures Leaks(b.nodes[i].kind) !! Uses(b, j) + BindSet(b.nodes[j])
  {
    hide Vars, KindVars, BodyVars, Uses, KeyOf, Groups;
  }

  lemma FusedNode(b: Body, os: seq<Origin>, q: nat)
    requires hide Vars, Uses, KeyOf, Groups; Fit(b) && Spread(b, os) && q < |os|
    ensures var n := FuseNodes(b.nodes)[q];
            && n.effect == IsEffect(n.kind) && (n.binding.Some? ==> MayBind(n.kind))
            && (!n.effect ==> QuietKind(n.kind)) && NoRetry(n.kind)
  {
    hide Fit, Made, FuseNodes, IsEffect, MayBind, QuietKind, NoRetry, Genuine, Order;
    assert Shows(FuseNodes(b.nodes)[q], b.nodes, os[q], q);
    MadeNode(b, os[q]);
  }

  lemma MadeNode(b: Body, o: Origin)
    requires hide *; Fit(b) && Genuine(b.nodes, o)
    ensures var n := Made(b.nodes, o);
            && n.effect == IsEffect(n.kind) && (n.binding.Some? ==> MayBind(n.kind))
            && (!n.effect ==> QuietKind(n.kind)) && NoRetry(n.kind)
  {
    hide Vars, KindVars, BodyVars, Uses, KeyOf, Groups, Fusion.BatchFetch, Fusion.Batchable, Fusion.GroupAt, FuseNodes,
      MembersOf, Fit;
    match o {
      case Original(i) => FitNode(b, i);
      case ScatterOf(i, g) => FitNode(b, i); QuietMember(b, i, g);
      case BatchOf(g) => QuietBatchNode(b, g);
    }
  }

  lemma FitNode(b: Body, i: nat)
    requires hide *; Fit(b) && i < |b.nodes|
    ensures var n := b.nodes[i];
            && n.effect == IsEffect(n.kind) && (n.binding.Some? ==> MayBind(n.kind))
            && (!n.effect ==> QuietKind(n.kind)) && NoRetry(n.kind)
  {
    hide Vars, KindVars, BodyVars, Uses, KeyOf, Groups, MembersOf, QuietKind, NoRetry, MayBind, IsEffect;
    assert b.nodes[i] in b.nodes;
  }

  lemma QuietMember(b: Body, i: nat, g: nat)
    requires hide Vars, Uses, KeyOf, Groups; Fit(b) && Genuine(b.nodes, ScatterOf(i, g))
    ensures Quiet.Quiet(IdOf(b.nodes[i])) && QuietPath(Prefix(b.nodes[i].kind.f.path))
  {
    hide Vars, KindVars, BodyVars, Uses, KeyOf, Groups;
    assert QuietKind(b.nodes[i].kind);
    QuietId(b.nodes[i]);
  }

  lemma QuietBatchNode(b: Body, g: nat)
    requires hide *; Fit(b) && g < |Groups(b.nodes)|
    ensures QuietFetch(BatchFetch(b.nodes, g)) && BatchFetch(b.nodes, g).httpMethod == "GET"
  {
    hide Vars, KindVars, BodyVars, Uses, Fusion.Groups, Fusion.Keys, Fusion.KeyOf, Sound;
    var f, m := BatchFetch(b.nodes, g), MembersOf(b.nodes, g);
    var first := First(b.nodes, g);
    assert MembersPlain(b, g);
    assert PlainMember(b, first, first);
    assert QuietKind(b.nodes[first].kind);
    QuietId(b.nodes[first]);
    forall e | e in f.batch.value.ids ensures Quiet.Quiet(e) {
      var j: nat :| j < |f.batch.value.ids| && f.batch.value.ids[j] == e;
      assert m[j] in m;
      assert QuietKind(b.nodes[m[j]].kind);
      QuietId(b.nodes[m[j]]);
    }
    AllQuiet(f.batch.value.ids);
  }

  lemma FusedRecorded(b: Body, os: seq<Origin>)
    requires Fit(b) && Spread(b, os) && Groups(b.nodes) != []
    ensures Recorded(FusedBody(b)) && SilentNodesQuiet(FusedBody(b))
  {
    hide Vars, BodyVars, Uses, KeyOf;
    var f := FusedBody(b);
    FusedWellFormed(b.nodes);
    hide Fit, FuseNodes, Groups, Spread, KindVars, QuietKind;
    assert |os| == |f.nodes| by { SpreadSize(b, os); }
    forall q: nat | q < |f.nodes|
      ensures f.nodes[q].effect == IsEffect(f.nodes[q].kind) && (f.nodes[q].binding.Some? ==> MayBind(f.nodes[q].kind))
      ensures !f.nodes[q].effect ==> QuietKind(f.nodes[q].kind)
      ensures Uses(f, q) * Binds(f.nodes) <= f.nodes[q].inputs
    {
      FusedNode(b, os, q);
      forall x | x in Uses(f, q) && x in Binds(f.nodes) ensures x in f.nodes[q].inputs { FusedRecords(b, os, q, x); }
    }
  }

  lemma SpreadSize(b: Body, os: seq<Origin>)
    requires Spread(b, os)
    ensures |os| == |FuseNodes(b.nodes)|
  {
    hide Vars, KeyOf, Groups;
  }

  /** Fusion keeps recorded reads, single assignment, scoped leaks and quietness. */
  lemma FusionIsSound(b: Body)
    requires Fit(b) && Groups(b.nodes) != []
    ensures Sound(FusedBody(b))
  {
    hide Vars, KindVars, BodyVars, Uses, KeyOf;
    var os, f := Origins(b.nodes, |b.nodes|), FusedBody(b);
    FusedSpread(b);
    SpreadSize(b, os);
    hide Fit, Origins, FuseNodes, Groups, Spread;
    FusedRecorded(b, os);
    FusedSingle(b, os);
    hide Recorded, SingleAssignment, SilentNodesQuiet;
    forall p: nat, q: nat | p < |f.nodes| && q < |f.nodes| && p != q
      ensures Leaks(f.nodes[p].kind) !! Uses(f, q) + BindSet(f.nodes[q])
    {
      forall x | x in Leaks(f.nodes[p].kind)
          ensures x !in Uses(f, q) && x !in BindSet(f.nodes[q]) { FusedLeaks(b, os, p, q, x); }
    }
  }

  lemma FusedSingle(b: Body, os: seq<Origin>)
    requires Fit(b) && Spread(b, os)
    ensures SingleAssignment(FusedBody(b))
  {
    hide Vars, KindVars, BodyVars, Uses, KeyOf, Fit, FuseNodes, Genuine, Groups, Made, BindSet, Order;
    var f := FusedBody(b);
    forall p: nat, q: nat | p < q < |f.nodes| ensures BindSet(f.nodes[p]) !! BindSet(f.nodes[q]) {
      SpreadAt(b, os, p, q);
      BoundOnce(b, os[p], os[q]);
    }
    forall p: nat, q: nat | p <= q < |f.nodes| ensures Uses(f, p) !! BindSet(f.nodes[q]) {
      SpreadAt(b, os, p, q);
      ReadsComeAfter(b, os[p], os[q]);
    }
  }

  lemma SpreadAt(b: Body, os: seq<Origin>, p: nat, q: nat)
    requires hide Vars, Uses, KeyOf, Groups; Spread(b, os) && p <= q < |os|
    ensures Genuine(b.nodes, os[p]) && Genuine(b.nodes, os[q])
    ensures (p < q ==> Order(b.nodes, os[p]) < Order(b.nodes, os[q]))
            && (p == q ==> Order(b.nodes, os[p]) == Order(b.nodes, os[q]))
    ensures BindSet(FuseNodes(b.nodes)[p]) == BindSet(Made(b.nodes, os[p]))
            && BindSet(FuseNodes(b.nodes)[q]) == BindSet(Made(b.nodes, os[q]))
    ensures Uses(FusedBody(b), p) == MadeUses(b.nodes, os[p])
  {
    hide Vars, KeyOf, Genuine, Groups, FuseNodes, Render;
    assert Shows(FuseNodes(b.nodes)[p], b.nodes, os[p], p) && Shows(FuseNodes(b.nodes)[q], b.nodes, os[q], q);
  }
}
