/** Which requests static fusion joins, told by the fetches and bindings of the body alone. */
module FusionChoice {
  import opened Wrappers
  import opened Ast
  import opened Frames
  import opened Ir
  import opened Dedup
  import opened DedupChoice
  import opened Fusion
  import opened FusionMeaning
  import opened FusionRun

  /** A bound GET of a batched endpoint, with a segment to vary and nothing else to tell it apart. */
  predicate Joinable(n: Node) {
    hide *;
    && n.kind.FetchN? && n.binding.Some? && n.kind.f.httpMethod == "GET"
    && n.kind.f.batch.Some? && n.kind.f.batch.value.ids == [] && n.kind.f.batch.value.mapped == None
    && n.kind.f.params == [] && n.kind.f.pipeline == [] && n.kind.f.idempotencyKey == None
    && |n.kind.f.path| > 1
  }

  /** The same endpoint, and paths of the same text up to the last segment. */
  predicate Alike(n: Node, m: Node)
    requires Joinable(n) && Joinable(m)
  {
    hide KeyOf, Vars, Groups, FuseNodes, Rebuild;
    var p, q := n.kind.f.path, m.kind.f.path;
    n.kind.f.endpoint == m.kind.f.endpoint && |p| == |q| && forall j | 0 <= j < |p| - 1 :: SameText(p[j], q[j])
  }

  /** The names that the varying segment reads. */
  function VaryingReads(n: Node): set<string>
    requires Joinable(n)
  {
    hide KeyOf, Vars, Groups, FuseNodes, Rebuild;
    var last := n.kind.f.path[|n.kind.f.path| - 1];
    if last.Param? then Vars(last.e, false) else {}
  }

  predicate Mates(nodes: seq<Node>, i: nat, j: nat)
    requires i < |nodes| && j < |nodes|
  {
    hide *;
    Joinable(nodes[i]) && Joinable(nodes[j]) && Alike(nodes[i], nodes[j])
  }

  /** There is another one like it, and nothing bound at or after any of them is read by the varying segment of
      any of them. */
  ghost predicate Joined(nodes: seq<Node>, i: nat)
    requires i < |nodes|
  {
    hide KeyOf, Vars, Groups, FuseNodes, Rebuild;
    && (exists j: nat | j < |nodes| :: j != i && Mates(nodes, i, j))
    && forall h: nat, j: nat, k: nat | h <= k < |nodes| && j < |nodes| ::
         Mates(nodes, i, h) && Mates(nodes, i, j) && nodes[k].binding.Some? ==>
           nodes[k].binding.value !in VaryingReads(nodes[j])
  }

  lemma AlikeKeys(n: Node, m: Node)
    requires hide *; Joinable(n) && Joinable(m)
    ensures Batchable(n) && Batchable(m) && (Alike(n, m) <==> KeyOf(n) == KeyOf(m))
  {
    var p, q := n.kind.f.path, m.kind.f.path;
    var a, b := KeyOf(n).prefix, KeyOf(m).prefix;
    forall j | 0 <= j < |p| - 1 && |p| == |q| ensures a[j] == b[j] <==> SameText(p[j], q[j]) {
      assert a[j] == SegSigOf(p[j]) && b[j] == SegSigOf(q[j]);
    }
    assert |a| == |p| - 1 && |b| == |q| - 1;
    if KeyOf(n) == KeyOf(m) {
      forall j | 0 <= j < |p| - 1 ensures SameText(p[j], q[j]) { assert a[j] == b[j]; }
    }
  }

  lemma VaryingReadsOf(n: Node)
    requires hide *; Joinable(n)
    ensures Batchable(n) && Vars(IdOf(n), false) == VaryingReads(n)
  {
    var last := n.kind.f.path[|n.kind.f.path| - 1];
    if last.Literal? { assert PartsVars([Lit(last.text)][1..], false) == {}; }
  }

  lemma {:induction false} FilteredHas(nodes: seq<Node>, keys: seq<GroupKey>, key: GroupKey)
    ensures hide *; key in Filtered(nodes, keys) <==> key in keys && Fusable(nodes, key)
  {
    hide Fusable;
    if keys != [] {
      FilteredHas(nodes, keys[..|keys| - 1], key);
      assert keys == keys[..|keys| - 1] + [keys[|keys| - 1]];
    }
  }

  lemma {:induction false} KeysHas(nodes: seq<Node>, i: nat, k: nat)
    requires hide *; i < k <= |nodes| && Batchable(nodes[i])
    ensures KeyOf(nodes[i]) in Keys(nodes, k)
  {
    hide Batchable, KeyOf;
    if i < k - 1 { KeysHas(nodes, i, k - 1); }
  }

  lemma MembersAreMates(nodes: seq<Node>, i: nat)
    requires hide *; i < |nodes| && Joinable(nodes[i])
    ensures Batchable(nodes[i])
    ensures forall j: nat :: j in Members(nodes, KeyOf(nodes[i]), |nodes|) <==> j < |nodes| && Mates(nodes, i, j)
  {
    hide KeyOf, Alike;
    forall j: nat | j < |nodes| ensures InGroup(nodes[j], KeyOf(nodes[i])) <==> Mates(nodes, i, j) {
      if Joinable(nodes[j]) { AlikeKeys(nodes[i], nodes[j]); }
    }
  }

  lemma FusableIsJoined(nodes: seq<Node>, i: nat)
    requires hide *; i < |nodes| && Joinable(nodes[i])
    ensures Batchable(nodes[i]) && (Fusable(nodes, KeyOf(nodes[i])) <==> Joined(nodes, i))
  {
    hide KeyOf, Vars, VaryingReads, Alike, IdOf;
    MembersAreMates(nodes, i);
    AlikeKeys(nodes[i], nodes[i]);
    var m := Members(nodes, KeyOf(nodes[i]), |nodes|);
    assert i in m;
    forall j: nat | j in m ensures Batchable(nodes[j]) && Vars(IdOf(nodes[j]), false) == VaryingReads(nodes[j]) {
      VaryingReadsOf(nodes[j]);
    }
    if |m| >= 2 {
      var j := if m[0] == i then m[1] else m[0];
      assert m[0] in m && m[1] in m;
      assert j != i && Mates(nodes, i, j);
    }
    hide Mates;
    assert forall h: nat | h in m :: m[0] <= h;
  }

  /** A request is joined with others exactly when it and they are alike and can all be asked at the first. */
  lemma JoinedExactly(nodes: seq<Node>, i: nat)
    requires hide *; i < |nodes|
    ensures GroupAt(nodes, i).Some? <==> Joinable(nodes[i]) && Joined(nodes, i)
  {
    hide Fusable, KeyOf, Joined, Keys;
    if Joinable(nodes[i]) {
      FusableIsJoined(nodes, i);
      KeysHas(nodes, i, |nodes|);
      FilteredHas(nodes, Keys(nodes, |nodes|), KeyOf(nodes[i]));
    }
  }

  // ---------- what becomes of each node ----------

  /** `out` picks the answer for `n` from the batch that `name` holds. */
  predicate PicksFor(out: Node, n: Node, name: string) {
    hide KeyOf, Vars, Groups, FuseNodes, Rebuild;
    && Joinable(n) && out.kind.ScatterN? && out.kind.batch == name && out.binding == n.binding
    && out.kind.want == VaryingValue(n.kind.f.path)
  }

  /** `out` asks, under `name`, for the varying values of all that are like node `i` in one request, and
      otherwise as node `i` would ask. */
  ghost predicate AsksFor(out: Node, nodes: seq<Node>, i: nat, name: string)
    requires i < |nodes|
  {
    hide KeyOf, Vars, Groups, FuseNodes, Rebuild;
    && Joinable(nodes[i]) && out.kind.FetchN? && out.binding == Some(name) && !out.effect
    && var f, g := out.kind.f, nodes[i].kind.f;
    && f.batch.Some? && f == g.(path := g.path[..|g.path| - 1], batch := f.batch)
    && f.batch.value.(ids := []) == g.batch.value
    && forall e :: e in f.batch.value.ids <==> exists j: nat | j < |nodes| :: Mates(nodes, i, j) && Varies(nodes[j], e)
  }

  predicate Varies(n: Node, e: Expr)
    requires Joinable(n)
  {
    hide KeyOf, Vars, Groups, FuseNodes, Rebuild;
    VaryingValue(n.kind.f.path) == e
  }

  lemma LeadsIsFirst(nodes: seq<Node>, i: nat, g: nat)
    requires hide *; i < |nodes| && g < |Groups(nodes)| && GroupAt(nodes, i) == Some(g) && Leads(nodes, i, g)
    ensures forall j: nat | j < i :: !Mates(nodes, i, j)
  {
    hide KeyOf, Vars, Groups, Alike;
    GroupMember(nodes, i);
    if Joinable(nodes[i]) {
      MembersAreMates(nodes, i);
      var m := MembersOf(nodes, g);
      assert m == Members(nodes, KeyOf(nodes[i]), |nodes|);
      assert forall j: nat | j in m :: i <= j;
    }
  }

  lemma IdsAsked(nodes: seq<Node>, i: nat, g: nat, e: Expr)
    requires hide KeyOf, Vars, Groups, FuseNodes, Rebuild;
             i < |nodes| && GroupAt(nodes, i) == Some(g) && g < |Groups(nodes)| && Joinable(nodes[i])
    requires forall j | j in MembersOf(nodes, g) :: j < |nodes| && Batchable(nodes[j])
    ensures e in IdExprs(nodes, MembersOf(nodes, g)) <==>
            exists j: nat | j < |nodes| :: Mates(nodes, i, j) && Varies(nodes[j], e)
  {
    hide KeyOf, Vars, Groups, VaryingValue, Alike;
    GroupMember(nodes, i);
    MembersAreMates(nodes, i);
    var m := MembersOf(nodes, g);
    assert m == Members(nodes, KeyOf(nodes[i]), |nodes|);
    var ids := IdExprs(nodes, m);
    hide GroupAt, MembersOf, Mates;
    if e in ids {
      var k: nat :| k < |ids| && ids[k] == e;
      assert m[k] in m && Varies(nodes[m[k]], e);
    }
    if j: nat :| j < |nodes| && Mates(nodes, i, j) && Varies(nodes[j], e) {
      var k: nat :| k < |m| && m[k] == j;
      assert ids[k] == e;
    }
  }

  lemma BatchAsks(nodes: seq<Node>, i: nat, g: nat, id: NodeId)
    requires hide KeyOf, Vars, Groups, FuseNodes, Rebuild;
             i < |nodes| && g < |Groups(nodes)| && GroupAt(nodes, i) == Some(g) && Leads(nodes, i, g)
    ensures AsksFor(BatchNode(nodes, g, id), nodes, i, BatchName(g))
    ensures BatchFetch(nodes, g).batch.value.keyField == nodes[i].kind.f.batch.value.keyField
  {
    hide KeyOf, Vars, Groups, ExprsFree, Alike, VaryingValue;
    GroupMember(nodes, i);
    var m := MembersOf(nodes, g);
    forall j | j in m ensures j < |nodes| && Batchable(nodes[j]) {}
    forall e ensures e in IdExprs(nodes, m) <==>
        exists j: nat | j < |nodes| :: Mates(nodes, i, j) && Varies(nodes[j], e) {
      IdsAsked(nodes, i, g, e);
    }
  }

  /** Where what stands for node `i` itself comes to stand. */
  function Place(nodes: seq<Node>, i: nat): nat
    requires i < |nodes|
  {
    hide *;
    if Pos(nodes, i + 1) == 0 then 0 else Pos(nodes, i + 1) - 1
  }

  lemma PlaceOf(nodes: seq<Node>, i: nat)
    requires hide KeyOf, Vars, Groups, FuseNodes, Rebuild; i < |nodes| && Groups(nodes) != []
    ensures var out, at, g := FuseNodes(nodes), Place(nodes, i), GroupAt(nodes, i);
            && Pos(nodes, i) <= at < Pos(nodes, i + 1) <= |out|
            && (g.None? ==> at == Pos(nodes, i) && SameWork(out[at], nodes[i]))
            && (g.Some? ==> PicksFor(out[at], nodes[i], BatchName(g.value)) && g.value < |Groups(nodes)|
                            && out[at].kind.keyField == BatchFetch(nodes, g.value).batch.value.keyField
                            && if Leads(nodes, i, g.value) then at == Pos(nodes, i) + 1 && Leading(nodes, out, i, at)
                               else at == Pos(nodes, i))
  {
    hide KeyOf, Vars, Groups, VaryingValue, FuseNodes, Pos;
    ExpandedAt(nodes, i, 0);
    var g := GroupAt(nodes, i);
    if g.Some? {
      GroupMember(nodes, i);
      if Leads(nodes, i, g.value) {
        ExpandedAt(nodes, i, 1);
        BatchAsks(nodes, i, g.value, Pos(nodes, i));
      }
    }
  }

  /** Node `i` is the first of its kind, and its scatter at `at` stands after their batch. */
  ghost predicate Leading(nodes: seq<Node>, out: seq<Node>, i: nat, at: nat)
    requires i < |nodes|
  {
    hide KeyOf, Vars, Groups, FuseNodes, Rebuild;
    && 0 < at < |out| && out[at].kind.ScatterN? && Joinable(nodes[i])
    && AsksFor(out[at - 1], nodes, i, out[at].kind.batch)
    && out[at].kind.keyField == nodes[i].kind.f.batch.value.keyField
  }

  lemma {:induction false} PosGrows(nodes: seq<Node>, i: nat, j: nat)
    requires hide *; i <= j <= |nodes|
    ensures Pos(nodes, i) <= Pos(nodes, j)
  {
    RebuildPrefix(nodes, i, j);
  }

  lemma {:induction false} PosCovers(nodes: seq<Node>, q: nat, k: nat) returns (i: nat)
    requires hide *; k <= |nodes| && q < Pos(nodes, k)
    ensures i < k && Pos(nodes, i) <= q < Pos(nodes, i + 1)
  {
    hide Expand;
    assert Pos(nodes, 0) == 0;
    hide Pos;
    if Pos(nodes, k - 1) <= q {
      i := k - 1;
    } else {
      i := PosCovers(nodes, q, k - 1);
    }
  }

  lemma {:induction false} NothingGrouped(nodes: seq<Node>, k: nat)
    requires hide *; Groups(nodes) == [] && k <= |nodes|
    ensures Pos(nodes, k) == k && FuseNodes(nodes) == nodes && forall i: nat | i < |nodes| :: GroupAt(nodes, i).None?
  {
    hide KeyOf, Groups;
    if k > 0 { NothingGrouped(nodes, k - 1); }
  }

  /** What stands in the rewritten list for node `i`, at `at`. */
  ghost predicate StandsFor(nodes: seq<Node>, out: seq<Node>, i: nat, at: nat)
    requires i < |nodes|
  {
    hide *;
    && at < |out|
    && if Joinable(nodes[i]) && Joined(nodes, i) then exists g: nat :: PicksFor(out[at], nodes[i], BatchName(g))
       else SameWork(out[at], nodes[i])
  }

  /** What stands at `q` for no node: the batch of the first of its kind, whose scatter comes next. */
  ghost predicate AsksFirst(nodes: seq<Node>, out: seq<Node>, q: nat, i: nat, at: nat) {
    hide *;
    && i < |nodes| && at == q + 1 && Leading(nodes, out, i, at) && Joined(nodes, i)
    && forall j: nat | j < i :: !Mates(nodes, i, j)
  }

  lemma StandsAt(nodes: seq<Node>, i: nat)
    requires hide *; i < |nodes|
    ensures StandsFor(nodes, FuseNodes(nodes), i, Place(nodes, i))
  {
    hide KeyOf, Vars, Groups, FuseNodes, Pos, Joined, GroupAt;
    JoinedExactly(nodes, i);
    if Groups(nodes) == [] {
      NothingGrouped(nodes, i + 1);
    } else {
      PlaceOf(nodes, i);
    }
  }

  /** Two scatters that pick from one batch by one key field. */
  predicate FromOneBatch(out: seq<Node>, a: nat, b: nat) {
    hide *;
    && a < |out| && b < |out| && out[a].kind.ScatterN? && out[b].kind.ScatterN?
    && out[a].kind.batch == out[b].kind.batch && out[a].kind.keyField == out[b].kind.keyField
  }

  ghost predicate Added(nodes: seq<Node>, out: seq<Node>, q: nat, place: seq<nat>) {
    hide *;
    exists i: nat | i < |place| :: AsksFirst(nodes, out, q, i, place[i])
  }

  predicate Increasing(place: seq<nat>) {
    hide *;
    forall i: nat, j: nat | i < j < |place| :: place[i] < place[j]
  }

  lemma MatesShare(nodes: seq<Node>, i: nat, j: nat)
    requires hide *; i < |nodes| && j < |nodes| && Mates(nodes, i, j) && Joined(nodes, i)
    ensures FromOneBatch(FuseNodes(nodes), Place(nodes, i), Place(nodes, j))
  {
    hide KeyOf, Vars, Groups, FuseNodes, Pos, Joined, Place, BatchFetch, VaryingValue;
    AlikeKeys(nodes[i], nodes[j]);
    JoinedExactly(nodes, i);
    assert GroupAt(nodes, i) == GroupAt(nodes, j);
    GroupMember(nodes, i);
    PlaceOf(nodes, i);
    PlaceOf(nodes, j);
  }

  lemma PlacesFill(nodes: seq<Node>, q: nat)
    requires hide *; Groups(nodes) == [] && q < |FuseNodes(nodes)|
    ensures q < |nodes| && Place(nodes, q) == q
  {
    hide Groups, Rebuild;
    NothingGrouped(nodes, 0);
    NothingGrouped(nodes, q + 1);
  }

  lemma AddedAsks(nodes: seq<Node>, q: nat) returns (i: nat)
    requires hide *; q < |FuseNodes(nodes)| && forall j: nat | j < |nodes| :: Place(nodes, j) != q
    ensures i < |nodes| && AsksFirst(nodes, FuseNodes(nodes), q, i, Place(nodes, i))
  {
    hide KeyOf, Vars, Joined, BatchFetch, VaryingValue, Rebuild, GroupAt, Leading, Mates;
    if Groups(nodes) == [] {
      PlacesFill(nodes, q);
      assert false;
    }
    assert |FuseNodes(nodes)| == Pos(nodes, |nodes|);
    i := PosCovers(nodes, q, |nodes|);
    hide Groups, FuseNodes, Pos, Place;
    PlaceOf(nodes, i);
    JoinedExactly(nodes, i);
    LeadsIsFirst(nodes, i, GroupAt(nodes, i).value);
  }

  ghost predicate FirstOfJoined(nodes: seq<Node>, i: nat) {
    i < |nodes| && Joinable(nodes[i]) && Joined(nodes, i) && forall j: nat | j < i :: !Mates(nodes, i, j)
  }

  lemma FirstLeads(nodes: seq<Node>, i: nat)
    requires hide *; i < |nodes| && FirstOfJoined(nodes, i)
    ensures Leading(nodes, FuseNodes(nodes), i, Place(nodes, i))
  {
    hide KeyOf, Vars, Groups, FuseNodes, Pos, Joined, BatchFetch, VaryingValue, Alike, Leading, Place;
    JoinedExactly(nodes, i);
    GroupMember(nodes, i);
    MembersAreMates(nodes, i);
    var g := GroupAt(nodes, i).value;
    var m := MembersOf(nodes, g);
    assert m == Members(nodes, KeyOf(nodes[i]), |nodes|) && m[0] in m;
    assert Leads(nodes, i, g);
    hide GroupAt, MembersOf, Mates;
    PlaceOf(nodes, i);
  }

  /** Fusion keeps the order of the nodes.  One that is joined with others becomes a scatter; those that are alike
      pick, by one key field, from one batch, asked for just before the first of them.  Every other node stays what
      it was, and nothing else is added. */
  lemma FusesExactly(nodes: seq<Node>) returns (place: seq<nat>)
    ensures hide *; |place| == |nodes| && Increasing(place)
    ensures forall i: nat | i < |nodes| :: StandsFor(nodes, FuseNodes(nodes), i, place[i])
    ensures forall i: nat, j: nat | i < |nodes| && j < |nodes| && Mates(nodes, i, j) && Joined(nodes, i) ::
              FromOneBatch(FuseNodes(nodes), place[i], place[j])
    ensures forall i: nat | i < |nodes| && FirstOfJoined(nodes, i) :: Leading(nodes, FuseNodes(nodes), i, place[i])
    ensures forall q: nat | q < |FuseNodes(nodes)| && q !in place :: Added(nodes, FuseNodes(nodes), q, place)
  {
    hide KeyOf, Vars, Groups, FuseNodes, Pos, Joined, Mates, StandsFor, FromOneBatch, AsksFirst, Place,
      Leading;
    place := seq(|nodes|, i requires 0 <= i < |nodes| => Place(nodes, i));
    forall i: nat | i < |nodes| ensures StandsFor(nodes, FuseNodes(nodes), i, place[i]) { StandsAt(nodes, i); }
    forall i: nat, j: nat | i < j < |nodes| ensures place[i] < place[j] { PlacesGrow(nodes, i, j); }
    forall i: nat, j: nat | i < |nodes| && j < |nodes| && Mates(nodes, i, j) && Joined(nodes, i)
        ensures FromOneBatch(FuseNodes(nodes), place[i], place[j]) {
      MatesShare(nodes, i, j);
    }
    forall i: nat | i < |nodes| && FirstOfJoined(nodes, i) ensures Leading(nodes, FuseNodes(nodes), i, place[i]) {
      FirstLeads(nodes, i);
    }
    forall q: nat | q < |FuseNodes(nodes)| && q !in place
        ensures Added(nodes, FuseNodes(nodes), q, place) {
      forall j: nat | j < |nodes| ensures Place(nodes, j) != q { assert place[j] in place; }
      var i := AddedAsks(nodes, q);
      assert place[i] == Place(nodes, i);
    }
  }

  lemma PlacesGrow(nodes: seq<Node>, i: nat, j: nat)
    requires hide *; i < j < |nodes|
    ensures Place(nodes, i) < Place(nodes, j)
  {
    hide Expand;
    PosGrows(nodes, i + 1, j);
    ExpandsToSome(nodes, i);
    ExpandsToSome(nodes, j);
  }

  lemma ExpandsToSome(nodes: seq<Node>, i: nat)
    requires hide *; i < |nodes|
    ensures Pos(nodes, i) < Pos(nodes, i + 1)
  {
    hide KeyOf, Vars, Groups, BatchNode, ScatterNode, Leads, GroupAt;
    assert |Expand(nodes, i, Pos(nodes, i))| > 0;
  }
}
