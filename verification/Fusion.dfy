/** Static request fusion: near-identical GETs that differ in their last path segment become one
    batched request and a scatter for each. */
module Fusion {
  import opened Wrappers
  import opened Ast
  import opened Values
  import opened Frames
  import opened Ir
  import opened Dependencies
  import opened Dedup

  // ---------- candidates and their groups ----------

  /** The endpoint and the printed collection prefix. */
  datatype GroupKey = GroupKey(endpoint: string, prefix: seq<SegSig>)

  predicate Batchable(n: Node) {
    && n.kind.FetchN? && n.kind.f.batch.Some?
    && n.kind.f.httpMethod == "GET" && n.kind.f.batch.value.ids == [] && n.kind.f.batch.value.mapped.None?
    && n.kind.f.params == [] && n.kind.f.pipeline == [] && n.kind.f.idempotencyKey.None?
    && n.binding.Some? && |n.kind.f.path| >= 2
  }

  function Prefix(path: seq<PathSeg>): seq<PathSeg> {
    if path == [] then [] else path[..|path| - 1]
  }

  function KeyOf(n: Node): GroupKey
    requires Batchable(n)
  {
    hide KeyOf, Groups;
    var prefix := Prefix(n.kind.f.path);
    GroupKey(n.kind.f.endpoint, seq(|prefix|, i requires 0 <= i < |prefix| => SegSigOf(prefix[i])))
  }

  function DigitsValue(s: string): Option<nat> {
    if s == "" || !('0' <= s[|s| - 1] <= '9') then None
    else
      var last := (s[|s| - 1] as int) - ('0' as int);
      if |s| == 1 then Some(last)
      else
        var rest := DigitsValue(s[..|s| - 1]);
        if rest.None? then None else Some(rest.value * 10 + last)
  }

  /** A decimal 64-bit integer with an optional sign. */
  function ParseI64(s: string): Option<int> {
    var digits := DigitsValue(if s != "" && (s[0] == '-' || s[0] == '+') then s[1..] else s);
    if digits.None? then None
    else
      var n: int := if s[0] == '-' then -(digits.value as int) else digits.value;
      if -0x8000_0000_0000_0000 <= n < 0x8000_0000_0000_0000 then Some(n) else None
  }

  /** The last path segment as an expression. */
  function VaryingValue(path: seq<PathSeg>): Expr {
    if path == [] then Expr.Null
    else match path[|path| - 1]
      case Param(e) => e
      case Literal(text) => if ParseI64(text).Some? then Expr.Int(ParseI64(text).value) else Expr.Str([Lit(text)])
  }

  function IdOf(n: Node): Expr
    requires Batchable(n)
  {
    VaryingValue(n.kind.f.path)
  }

  predicate InGroup(n: Node, key: GroupKey) { hide *; Batchable(n) && KeyOf(n) == key }

  /** The group keys of the first `k` nodes, in order of first appearance. */
  function Keys(nodes: seq<Node>, k: nat): seq<GroupKey>
    requires k <= |nodes|
  {
    hide *;
    if k == 0 then []
    else
      var keys, n := Keys(nodes, k - 1), nodes[k - 1];
      if Batchable(n) && KeyOf(n) !in keys then keys + [KeyOf(n)] else keys
  }

  /** The positions of the members of a group among the first `k` nodes. */
  function Members(nodes: seq<Node>, key: GroupKey, k: nat): (r: seq<nat>)
    requires k <= |nodes|
    ensures forall i: nat :: i in r <==> i < k && InGroup(nodes[i], key)
    ensures forall x: nat, y: nat | x < y < |r| :: r[x] < r[y]
  {
    hide *;
    if k == 0 then []
    else
      var r := Members(nodes, key, k - 1);
      assert forall x: nat | x < |r| :: r[x] in r;
      r + if InGroup(nodes[k - 1], key) then [k - 1] else []
  }

  /** The names bound at or after position `first`. */
  function BoundFrom(nodes: seq<Node>, first: nat): set<string> {
    set i: nat | first <= i < |nodes| && nodes[i].binding.Some? :: nodes[i].binding.value
  }

  /** At least two members, whose ids are all available at the first of them. */
  predicate Fusable(nodes: seq<Node>, key: GroupKey) {
    hide Vars, KeyOf, Groups;
    var m := Members(nodes, key, |nodes|);
    |m| >= 2 && forall i | i in m :: Vars(IdOf(nodes[i]), false) !! BoundFrom(nodes, m[0])
  }

  function Filtered(nodes: seq<Node>, keys: seq<GroupKey>): seq<GroupKey> {
    hide *;
    if keys == [] then []
    else Filtered(nodes, keys[..|keys| - 1]) + if Fusable(nodes, keys[|keys| - 1]) then [keys[|keys| - 1]] else []
  }

  /** The groups that are fused. */
  function Groups(nodes: seq<Node>): seq<GroupKey> {
    hide *;
    Filtered(nodes, Keys(nodes, |nodes|))
  }

  function IndexOf(keys: seq<GroupKey>, key: GroupKey): (r: Option<nat>)
    ensures r.Some? ==> r.value < |keys| && keys[r.value] == key
    ensures r.None? <==> key !in keys
  {
    if keys == [] then None
    else if keys[0] == key then Some(0)
    else
      var r := IndexOf(keys[1..], key);
      if r.None? then None else Some(r.value + 1)
  }

  /** The group that node `i` is fused into. */
  function GroupAt(nodes: seq<Node>, i: nat): Option<nat>
    requires i < |nodes|
  {
    hide *;
    if Batchable(nodes[i]) then IndexOf(Groups(nodes), KeyOf(nodes[i])) else None
  }

  function MembersOf(nodes: seq<Node>, g: nat): seq<nat>
    requires g < |Groups(nodes)|
  {
    hide *;
    Members(nodes, Groups(nodes)[g], |nodes|)
  }

  // ---------- the rewritten nodes ----------

  function BatchName(g: nat): string { "__batch_" + NatText(g) }

  function IdExprs(nodes: seq<Node>, m: seq<nat>): seq<Expr>
    requires forall i | i in m :: i < |nodes| && Batchable(nodes[i])
  {
    hide *;
    seq(|m|, j requires 0 <= j < |m| => assert m[j] in m; IdOf(nodes[m[j]]))
  }

  function ExprsFree(es: seq<Expr>): set<string> {
    hide *;
    if es == [] then {} else Vars(es[0], false) + ExprsFree(es[1..])
  }

  lemma {:induction false} KeysBatchable(nodes: seq<Node>, keys: seq<GroupKey>)
    ensures forall key | key in Filtered(nodes, keys) :: key in keys && Fusable(nodes, key)
  {
    hide Vars, KeyOf, Groups, DepsOf;
    if keys != [] { KeysBatchable(nodes, keys[..|keys| - 1]); }
  }

  lemma {:induction false} KeysDistinct(nodes: seq<Node>, k: nat)
    requires hide *; k <= |nodes|
    ensures forall x: nat, y: nat | x < y < |Keys(nodes, k)| :: Keys(nodes, k)[x] != Keys(nodes, k)[y]
  {
    hide KeyOf;
    if k > 0 {
      KeysDistinct(nodes, k - 1);
      var keys := Keys(nodes, k - 1);
      assert forall x: nat | x < |keys| :: keys[x] in keys;
    }
  }

  lemma GroupsFusable(nodes: seq<Node>, g: nat)
    requires hide *; g < |Groups(nodes)|
    ensures Fusable(nodes, Groups(nodes)[g])
  {
    hide Vars, KeyOf;
    KeysBatchable(nodes, Keys(nodes, |nodes|));
    assert Groups(nodes)[g] in Groups(nodes);
  }

  /** The one request of a group: the template is its first member. */
  function BatchFetch(nodes: seq<Node>, g: nat): FetchIr
    requires g < |Groups(nodes)|
  {
    hide Vars, KeyOf, Groups;
    GroupsFusable(nodes, g);
    var m := MembersOf(nodes, g);
    assert m[0] in m;
    var f := nodes[m[0]].kind.f;
    f.(path := Prefix(f.path), params := [], pipeline := [], idempotencyKey := None,
       batch := Some(f.batch.value.(ids := IdExprs(nodes, m), mapped := None)))
  }

  function BatchNode(nodes: seq<Node>, g: nat, id: NodeId): Node
    requires g < |Groups(nodes)|
  {
    hide Vars, KeyOf, Groups;
    var f := BatchFetch(nodes, g);
    Node(id, FetchN(f), Some(BatchName(g)), ExprsFree(f.batch.value.ids), {}, false, true)
  }

  function ScatterNode(nodes: seq<Node>, g: nat, n: Node, id: NodeId): Node
    requires g < |Groups(nodes)| && Batchable(n)
  {
    hide Vars, KeyOf, Groups;
    Node(id, ScatterN(BatchName(g), BatchFetch(nodes, g).batch.value.keyField, IdOf(n)), n.binding,
         {BatchName(g)} + Vars(IdOf(n), false), {}, false, true)
  }

  predicate Leads(nodes: seq<Node>, i: nat, g: nat)
    requires g < |Groups(nodes)|
  {
    hide *;
    MembersOf(nodes, g) != [] && MembersOf(nodes, g)[0] == i
  }

  /** What node `i` expands to, when it comes to stand at position `at`. */
  function Expand(nodes: seq<Node>, i: nat, at: nat): seq<Node>
    requires i < |nodes|
  {
    hide Vars, KeyOf, Groups;
    var g := GroupAt(nodes, i);
    if g.None? then [nodes[i].(id := at)]
    else if Leads(nodes, i, g.value) then [BatchNode(nodes, g.value, at), ScatterNode(nodes, g.value, nodes[i], at + 1)]
    else [ScatterNode(nodes, g.value, nodes[i], at)]
  }

  /** The rewritten list for the first `k` nodes. */
  function Rebuild(nodes: seq<Node>, k: nat): seq<Node>
    requires k <= |nodes|
  {
    hide *;
    if k == 0 then []
    else
      var done := Rebuild(nodes, k - 1);
      done + Expand(nodes, k - 1, |done|)
  }

  function FuseNodes(nodes: seq<Node>): seq<Node> {
    hide *;
    if Groups(nodes) == [] then nodes else WithDeps(Rebuild(nodes, |nodes|))
  }

  // ---------- the shape of the result ----------

  lemma {:induction false} RebuildPrefix(nodes: seq<Node>, i: nat, k: nat)
    requires hide *; i <= k <= |nodes|
    ensures Rebuild(nodes, i) <= Rebuild(nodes, k)
  {
    hide Expand;
    if i < k { RebuildPrefix(nodes, i, k - 1); }
  }

  lemma ExpandIds(nodes: seq<Node>, i: nat, at: nat)
    requires hide *; i < |nodes|
    ensures forall j: nat | j < |Expand(nodes, i, at)| :: Expand(nodes, i, at)[j].id == at + j
  {
    hide Vars, KeyOf, Groups, DepsOf, BatchFetch, Batchable, Leads;
  }

  lemma {:induction false} RebuildIds(nodes: seq<Node>, k: nat)
    requires hide *; k <= |nodes|
    ensures forall j: nat | j < |Rebuild(nodes, k)| :: Rebuild(nodes, k)[j].id == j
  {
    hide Expand;
    if k > 0 {
      RebuildIds(nodes, k - 1);
      ExpandIds(nodes, k - 1, |Rebuild(nodes, k - 1)|);
    }
  }

  /** Ids are positions again, and dependencies point backward. */
  lemma FusedWellFormed(nodes: seq<Node>)
    requires hide *; Groups(nodes) != []
    ensures forall j: nat | j < |FuseNodes(nodes)| :: FuseNodes(nodes)[j].id == j
    ensures Wired(FuseNodes(nodes))
    ensures forall j: nat, d | j < |FuseNodes(nodes)| && d in FuseNodes(nodes)[j].deps :: d < j
  {
    hide Vars, KeyOf, Rebuild;
    RebuildIds(nodes, |nodes|);
    var r := Rebuild(nodes, |nodes|);
    forall j: nat | j < |r| ensures WithDeps(r)[j].deps == DepsOf(WithDeps(r), j) { WithDepsFixed(r, j); }
  }
}
