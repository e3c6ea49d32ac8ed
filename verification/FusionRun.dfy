/** Static fusion against the reference run: same bindings, same behaviour, one request per group. */
module FusionRun {
  import opened Wrappers
  import opened Ast
  import opened Values
  import opened Evaluator
  import opened Frames
  import opened Ir
  import opened Exec
  import opened Quiet
  import opened FetchFrames
  import opened Readiness
  import opened Traces
  import opened ReferenceRun
  import opened BodyEquality
  import opened FreshNames
  import opened Printer
  import opened Dedup
  import opened Fusion
  import opened FusionMeaning

  ghost predicate Member(c: Setup, i: nat) {
    hide *;
    i < |c.b.nodes| && GroupAt(c.b.nodes, i).Some?
  }

  /** The endpoints keep their batch promise to every group whose first member is reached. */
  ghost predicate Served(c: Setup) {
    hide *;
    forall g: nat | g < |Groups(c.b.nodes)| && c.At(First(c.b.nodes, g)).ctl.Next? :: Promised(c, g)
  }

  /** Where the first member of the group stands, the collection prefix and every id can be computed, and
      what comes back for an id alone, if anything, carries it. */
  ghost predicate Promised(c: Setup, g: nat)
    requires g < |Groups(c.b.nodes)|
  {
    hide RunBody, RunOrder, RunWaves, RunNode, RoundStep, Eval, Vars, KeyOf, Groups;
    var f := BatchFetch(c.b.nodes, g);
    && BatchContract(c.p.world, f.endpoint, f.batch.value.queryParam, f.batch.value.keyField)
    && forall i | i in MembersOf(c.b.nodes, g) :: EarlyKeyed(c, g, i)
  }

  ghost predicate EarlyKeyed(c: Setup, g: nat, i: nat)
    requires g < |Groups(c.b.nodes)|
  {
    hide RunBody, RunOrder, RunWaves, RunNode, RoundStep, FetchOne, Eval, Vars, KeyOf, Groups;
    var f := BatchFetch(c.b.nodes, g);
    && i < |c.b.nodes| && Batchable(c.b.nodes[i]) && PathEarly(c, g).Some? && WantEarly(c, g, i).Some?
    && Keyed(c.p.world, f.endpoint, PathEarly(c, g).value, f.batch.value.keyField, WantEarly(c, g, i).value)
  }

  /** The prefix of a group and the id of node `i`, where the group begins. */
  ghost function PathEarly(c: Setup, g: nat): Option<string>
    requires g < |Groups(c.b.nodes)|
  {
    hide *;
    EvalPath(BatchFetch(c.b.nodes, g).path, c.At(First(c.b.nodes, g)).env).val
  }

  ghost function WantEarly(c: Setup, g: nat, i: nat): Option<Value>
    requires g < |Groups(c.b.nodes)| && i < |c.b.nodes| && Batchable(c.b.nodes[i])
  {
    hide *;
    Eval(IdOf(c.b.nodes[i]), c.At(First(c.b.nodes, g)).env, None).val
  }

  /** A fused fetch that the run completes. */
  ghost predicate Reached(c: Setup, i: nat) {
    hide RunBody, RunOrder, RunWaves, RunNode, RoundStep, FetchOne, Eval, Vars, KeyOf, Groups;
    Member(c, i) && c.At(i).ctl.Next? && c.At(i + 1).ctl.Next?
  }

  /** A fused fetch either succeeds or fails the run as a node that is not an effect. */
  lemma MemberSucceeds(c: Setup, i: nat)
    requires hide RunBody, RunOrder, RunWaves, RunNode, RoundStep, FetchOne, Eval, ApplyPipeline, Vars, Uses, KeyOf,
               Groups;
             FuseReady(c.b) && Member(c, i) && c.At(i).ctl.Next? && c.At(i + 1).ctl != Fail(true)
    ensures Reached(c, i) && IsFetch(c.b, i) && FetchedAt(c, i).val.Some?
  {
    hide RunBody, RunWaves, RunLoop, RunMatch, RunTail, NodeStep, RoundStep, LaunchTo, Prepare, EvalPath, Eval,
      ApplyPipeline, Vars, KindVars, BodyVars, Uses, KeyOf, Groups, Printer.Print, RunNode, RunOrder, FetchOne;
    MemberFacts(c, i);
    hide FuseReady, GroupAt, PlainMember;
    AtStep(c, i);
    SingleRound(c.p, c.b, i, c.At(i), c.hist);
  }

  /** The group of a member that is reached has begun. */
  lemma GroupBegun(c: Setup, i: nat)
    requires hide RunBody, RunOrder, RunWaves, RunNode, RoundStep, FetchOne, Eval, Vars, Uses, KeyOf, Groups;
             FuseReady(c.b) && Served(c) && Reached(c, i)
    ensures var g := GroupAt(c.b.nodes, i).value;
            g < |Groups(c.b.nodes)| && c.At(First(c.b.nodes, g)).ctl.Next? && EarlyKeyed(c, g, i)
  {
    hide RunBody, RunWaves, RunNode, RunLoop, RunMatch, RunTail, NodeStep, RoundStep, LaunchTo, FetchOne, Prepare,
      EvalPath, Eval, ApplyPipeline, Vars, KindVars, BodyVars, Uses, KeyOf, Groups, Printer.Print, RunOrder;
    MemberFacts(c, i);
    hide FuseReady;
    var g := GroupAt(c.b.nodes, i).value;
    Stays(c, First(c.b.nodes, g), i);
    hide EarlyKeyed;
    assert Promised(c, g);
  }

  // ---------- members ----------

  /** What is known of node `i` when it is fused into group `g`. */
  lemma MemberFacts(c: Setup, i: nat)
    requires hide Vars, Uses, KeyOf, Groups; FuseReady(c.b) && Member(c, i)
    ensures var g := GroupAt(c.b.nodes, i).value;
            && g < |Groups(c.b.nodes)| && i in MembersOf(c.b.nodes, g) && Batchable(c.b.nodes[i])
            && First(c.b.nodes, g) <= i && PlainMember(c.b, i, First(c.b.nodes, g))
            && QuietFetch(c.b.nodes[i].kind.f) && !c.b.nodes[i].effect
    ensures var g := GroupAt(c.b.nodes, i).value;
            Prefix(c.b.nodes[i].kind.f.path) == BatchFetch(c.b.nodes, g).path
            && BatchFetch(c.b.nodes, g).endpoint == c.b.nodes[i].kind.f.endpoint
            && BatchFetch(c.b.nodes, g).batch.value.keyField == c.b.nodes[i].kind.f.batch.value.keyField
  {
    hide Vars, KindVars, BodyVars, Uses, KeyOf, Groups, Printer.Print;
    var g := GroupAt(c.b.nodes, i).value;
    GroupMember(c.b.nodes, i);
    var first := First(c.b.nodes, g);
    var m := MembersOf(c.b.nodes, g);
    assert MembersPlain(c.b, g);
    assert PlainMember(c.b, i, first) && PlainMember(c.b, first, first);
    FirstIsFirst(m, i);
    SamePrefix(c.b.nodes[i], c.b.nodes[first]);
    assert QuietKind(c.b.nodes[i].kind);
  }

  /** Members of one group have the same prefix, not just the same printed one. */
  lemma SamePrefix(n: Node, o: Node)
    requires hide Vars, KeyOf, Groups; Batchable(n) && Batchable(o) && KeyOf(n) == KeyOf(o) && PlainPath(n.kind.f.path)
             && PlainPath(o.kind.f.path)
    ensures Prefix(n.kind.f.path) == Prefix(o.kind.f.path) && n.kind.f.endpoint == o.kind.f.endpoint
  {
    hide SegSigOf;
    var p, q := Prefix(n.kind.f.path), Prefix(o.kind.f.path);
    var kp, kq := KeyOf(n).prefix, KeyOf(o).prefix;
    assert |p| == |kp| == |kq| == |q|;
    forall j | 0 <= j < |p| ensures p[j] == q[j] {
      assert kp[j] == kq[j];
      assert p[j] in n.kind.f.path && q[j] in o.kind.f.path;
      SegEqual(p[j], q[j]);
    }
  }

  /** Names that no node from `j` up to `i` writes keep their values. */
  lemma {:induction false} Kept(c: Setup, j: nat, i: nat, names: set<string>)
    requires hide *; j <= i <= |c.b.nodes| && forall m: nat | j <= m < i :: names !! Writes(c.b.nodes[m])
    ensures Agree(c.At(j).env, c.At(i).env, names)
    decreases i
  {
    hide RunOrder, Writes;
    if j < i {
      Kept(c, j, i - 1, names);
      StepWrites(c, i - 1);
    }
  }

  /** The id and the prefix of a member have, at its group's first member, the values they have at its
      own position. */
  lemma AvailableEarly(c: Setup, i: nat)
    requires hide RunBody, RunOrder, RunWaves, RunNode, RoundStep, FetchOne, Eval, Vars, Uses, KeyOf, Groups;
             FuseReady(c.b) && Member(c, i)
    ensures var first := First(c.b.nodes, GroupAt(c.b.nodes, i).value);
            && Eval(IdOf(c.b.nodes[i]), c.At(first).env, None).val == WantAt(c, i)
            && EvalPath(Prefix(c.b.nodes[i].kind.f.path), c.At(first).env).val == PathAt(c, i)
  {
    hide RunBody, RunWaves, RunNode, RunLoop, RunMatch, RunTail, NodeStep, RoundStep, LaunchTo, FetchOne, Prepare,
      EvalPath, Eval, ApplyPipeline, Vars, KindVars, BodyVars, Uses, KeyOf, Groups, Printer.Print, RunOrder;
    MemberFacts(c, i);
    var n := c.b.nodes[i];
    var g := GroupAt(c.b.nodes, i).value;
    var first := First(c.b.nodes, g);
    IdIsUsed(c.b, i);
    GroupsFusable(c.b.nodes, g);
    var ids, prefix := Vars(IdOf(n), true), PathVars(Prefix(n.kind.f.path), true);
    forall m: nat | first <= m < i ensures ids !! Writes(c.b.nodes[m]) && prefix !! Writes(c.b.nodes[m]) {
      NotWritten(c, i, m);
    }
    Kept(c, first, i, ids);
    Kept(c, first, i, prefix);
    EvalFrame(IdOf(n), c.At(first).env, c.At(i).env, None);
    PathFrame(Prefix(n.kind.f.path), c.At(first).env, c.At(i).env);
  }

  lemma NotWritten(c: Setup, i: nat, m: nat)
    requires hide Vars, Uses, KeyOf, Groups;
             FuseReady(c.b) && Member(c, i) && First(c.b.nodes, GroupAt(c.b.nodes, i).value) <= m < i
    ensures Vars(IdOf(c.b.nodes[i]), true) !! Writes(c.b.nodes[m])
    ensures PathVars(Prefix(c.b.nodes[i].kind.f.path), true) !! Writes(c.b.nodes[m])
  {
    hide Vars, KindVars, BodyVars, Uses, KeyOf, Groups, Printer.Print;
    MemberFacts(c, i);
    IdIsUsed(c.b, i);
    var n, o := c.b.nodes[i], c.b.nodes[m];
    var g := GroupAt(c.b.nodes, i).value;
    GroupsFusable(c.b.nodes, g);
    assert Leaks(o.kind) !! Uses(c.b, i) + BindSet(n);
    assert o in c.b.nodes;
    forall x | x in BindSet(o) ensures x !in Vars(IdOf(n), true) && x in Binds(c.b.nodes) {
      assert x in BoundFrom(c.b.nodes, First(c.b.nodes, g));
    }
  }

  // ---------- the batch ----------

  ghost function BatchAt(c: Setup, g: nat): Fetched
    requires g < |Groups(c.b.nodes)|
  {
    hide *;
    var first := First(c.b.nodes, g);
    FetchOne(c.p.world, BatchFetch(c.b.nodes, g), c.At(first).env, HistAt(c, first))
  }

  ghost function Wants(c: Setup, g: nat): seq<Value>
    requires g < |Groups(c.b.nodes)| && Promised(c, g)
  {
    hide *;
    var m := MembersOf(c.b.nodes, g);
    seq(|m|, j requires 0 <= j < |m| => assert m[j] in m; assert EarlyKeyed(c, g, m[j]); WantEarly(c, g, m[j]).value)
  }

  lemma MemberOf(c: Setup, g: nat, i: nat)
    requires hide Vars, KeyOf, Groups; g < |Groups(c.b.nodes)| && i in MembersOf(c.b.nodes, g)
    ensures Member(c, i) && GroupAt(c.b.nodes, i) == Some(g) && Batchable(c.b.nodes[i])
  {
    hide Vars, KeyOf, Groups, Printer.Print;
    GroupsDistinct(c.b.nodes, g, GroupAt(c.b.nodes, i).value);
  }

  /** The batch prints nothing and reads nothing but what its members read. */
  lemma BatchIsClean(c: Setup, g: nat)
    requires hide *; FuseReady(c.b) && g < |Groups(c.b.nodes)|
    ensures QuietFetch(BatchFetch(c.b.nodes, g)) && FetchVars(BatchFetch(c.b.nodes, g), true) !! BatchNames(c.b.nodes)
  {
    hide KindVars, BodyVars, Uses, KeyOf, Printer.Print, Fusion.Groups;
    var f, names := BatchFetch(c.b.nodes, g), BatchNames(c.b.nodes);
    var m, ids := MembersOf(c.b.nodes, g), f.batch.value.ids;
    forall e | e in ids ensures Quiet.Quiet(e) && Vars(e, true) !! names {
      var j: nat :| j < |ids| && ids[j] == e;
      CleanMember(c, g, m[j]);
    }
    CleanMember(c, g, First(c.b.nodes, g));
    AllQuiet(ids);
    AllAvoid(ids, names);
    assert MembersPlain(c.b, g);
    assert PlainMember(c.b, First(c.b.nodes, g), First(c.b.nodes, g));
    hide Quiet.Quiet, Vars, PathVars;
    assert FetchVars(f, true) == PathVars(f.path, true) + ExprsVars(ids, true);
  }

  lemma CleanMember(c: Setup, g: nat, i: nat)
    requires hide Vars, Uses, KeyOf, Groups; FuseReady(c.b) && g < |Groups(c.b.nodes)| && i in MembersOf(c.b.nodes, g)
    ensures Batchable(c.b.nodes[i]) && Quiet.Quiet(IdOf(c.b.nodes[i])) && QuietPath(Prefix(c.b.nodes[i].kind.f.path))
    ensures Vars(IdOf(c.b.nodes[i]), true) !! BatchNames(c.b.nodes)
    ensures PathVars(Prefix(c.b.nodes[i].kind.f.path), true) !! BatchNames(c.b.nodes)
  {
    hide Vars, KeyOf, Groups, Printer.Print;
    MemberOf(c, g, i);
    MemberFacts(c, i);
    QuietId(c.b.nodes[i]);
    IdIsUsed(c.b, i);
    AvoidsNode(c.b, i, BatchNames(c.b.nodes));
  }

  /** What a member fetched, as an answer of the network. */
  ghost predicate Alone(c: Setup, i: nat) {
    hide RunBody, RunOrder, RunWaves, RunNode, RoundStep, FetchOne, Eval, ApplyPipeline, Groups;
    && i < |c.b.nodes| && Batchable(c.b.nodes[i]) && PathAt(c, i).Some? && WantAt(c, i).Some?
       && FetchedAt(c, i).val.Some?
    && FetchedAt(c, i).before == [] && FetchedAt(c, i).after == [] && FetchedAt(c, i).sent.Some?
    && c.p.world.get(SingleRequest(c.b.nodes[i].kind.f.endpoint, PathAt(c, i).value, WantAt(c, i).value))
       == Success(FetchedAt(c, i).val.value)
    && Keyed(c.p.world, c.b.nodes[i].kind.f.endpoint, PathAt(c, i).value, c.b.nodes[i].kind.f.batch.value.keyField,
       WantAt(c, i).value)
  }

  lemma MemberAnswer(c: Setup, i: nat)
    requires FuseReady(c.b) && Served(c) && Reached(c, i)
    ensures Alone(c, i)
  {
    hide RunBody, RunWaves, RunNode, RunLoop, RunMatch, RunTail, NodeStep, RoundStep, LaunchTo, FetchOne, Prepare,
      EvalPath, ApplyPipeline, Vars, KindVars, BodyVars, Uses, KeyOf, Groups, Printer.Print, Eval, RunOrder;
    MemberSucceeds(c, i);
    GroupBegun(c, i);
    AvailableEarly(c, i);
    MemberFacts(c, i);
    hide FuseReady, Served;
    AnswerAlone(c, i, First(c.b.nodes, GroupAt(c.b.nodes, i).value));
  }

  lemma AnswerAlone(c: Setup, i: nat, first: nat)
    requires hide RunBody, RunOrder, RunWaves, RunNode, RoundStep, FetchOne, Eval, ApplyPipeline, Vars, KeyOf, Groups;
             Member(c, i) && Batchable(c.b.nodes[i]) && first < |c.b.nodes| && Batchable(c.b.nodes[first])
    requires PlainMember(c.b, i, first) && QuietFetch(c.b.nodes[i].kind.f) && FetchedAt(c, i).val.Some?
    requires PathAt(c, i).Some? && WantAt(c, i).Some? ==>
               Keyed(c.p.world, c.b.nodes[i].kind.f.endpoint, PathAt(c, i).value,
                   c.b.nodes[i].kind.f.batch.value.keyField, WantAt(c, i).value)
    ensures Alone(c, i)
  {
    hide RunBody, RunWaves, RunNode, RunLoop, RunMatch, RunTail, NodeStep, RoundStep, LaunchTo, Prepare,
      ApplyPipeline, Vars, KeyOf, Groups, Printer.Print, RunOrder, FetchOne, Eval, EvalPath, QuietFetch, GroupAt,
      HistAt, Keyed;
    SingleFetch(c.p.world, c.b.nodes[i], c.At(i).env, HistAt(c, i));
  }

  /** The answer of the batch is right about member `i`. */
  ghost predicate Held(c: Setup, g: nat, i: nat, items: seq<Value>)
    requires g < |Groups(c.b.nodes)|
  {
    hide RunBody, RunOrder, RunWaves, RunNode, RoundStep, FetchOne, Eval, Vars, KeyOf, Groups;
    && EarlyKeyed(c, g, i)
    && var f := BatchFetch(c.b.nodes, g);
       Holds(c.p.world, f.endpoint, PathEarly(c, g).value, f.batch.value.keyField, WantEarly(c, g, i).value, items)
  }

  /** The batch answers for every member. */
  lemma BatchAnswers(c: Setup, g: nat)
    requires hide *; FuseReady(c.b) && g < |Groups(c.b.nodes)| && Promised(c, g)
    ensures BatchAt(c, g).val.Some? && BatchAt(c, g).val.value.Array? && BatchAt(c, g).sent.Some?
    ensures BatchAt(c, g).before == [] && BatchAt(c, g).after == []
    ensures forall i | i in MembersOf(c.b.nodes, g) :: Held(c, g, i, BatchAt(c, g).val.value.items)
  {
    hide RunBody, RunWaves, RunNode, RunLoop, RunMatch, RunTail, NodeStep, RoundStep, LaunchTo, Prepare,
      ApplyPipeline, Vars, KindVars, BodyVars, Uses, KeyOf, Groups, Printer.Print, RunOrder, FetchOne, Eval,
      EvalPath, Keyed, Holds;
    var nodes := c.b.nodes;
    var m, first, f := MembersOf(nodes, g), First(nodes, g), BatchFetch(nodes, g);
    var env := c.At(first).env;
    BatchShape(c, g);
    BatchIsClean(c, g);
    hide FuseReady;
    var wants := Wants(c, g);
    forall j | 0 <= j < |m|
      ensures Eval(f.batch.value.ids[j], env, None).val == Some(wants[j])
      ensures Keyed(c.p.world, f.endpoint, PathEarly(c, g).value, f.batch.value.keyField, wants[j])
    {
      assert m[j] in m;
      assert EarlyKeyed(c, g, m[j]);
    }
    assert EarlyKeyed(c, g, first);
    TextsAre(f.batch.value.ids, wants, env);
    BatchedFetch(c.p.world, f, env, HistAt(c, first), PathEarly(c, g).value, wants);
    QuietFetchOne(c.p.world, f, env, HistAt(c, first));
    forall i | i in m ensures Held(c, g, i, BatchAt(c, g).val.value.items) {
      var j: nat :| j < |m| && m[j] == i;
      assert wants[j] in wants;
      assert EarlyKeyed(c, g, i);
    }
  }

  /** What the batch holds for a member that is reached is what its own request returned. */
  lemma HeldIsAnswer(c: Setup, g: nat, i: nat, items: seq<Value>)
    requires hide RunBody, RunOrder, RunWaves, RunNode, RoundStep, FetchOne, Eval, ApplyPipeline, Vars, Uses, KeyOf,
               Groups;
             FuseReady(c.b) && Served(c) && Reached(c, i) && GroupAt(c.b.nodes, i) == Some(g) && g < |Groups(c.b.nodes)|
    requires Held(c, g, i, items)
    ensures Answered(c, i, items, BatchFetch(c.b.nodes, g).batch.value.keyField)
  {
    hide RunBody, RunWaves, RunNode, RunLoop, RunMatch, RunTail, NodeStep, RoundStep, LaunchTo, Prepare, EvalPath,
      Eval, ApplyPipeline, Vars, KindVars, BodyVars, Uses, KeyOf, Groups, Printer.Print, RunOrder, FetchOne;
    MemberAnswer(c, i);
    AvailableEarly(c, i);
    MemberFacts(c, i);
    hide FuseReady, Served;
  }

  /** The element picked for member `i` is what its own request returned. */
  ghost predicate Answered(c: Setup, i: nat, items: seq<Value>, keyField: string) {
    hide RunBody, RunOrder, RunWaves, RunNode, RoundStep, FetchOne, Eval, ApplyPipeline, Vars, KeyOf, Groups;
    Member(c, i) && Batchable(c.b.nodes[i]) && WantAt(c, i).Some? && FetchedAt(c, i).val.Some?
    && FirstWith(items, keyField, WantAt(c, i).value) == FetchedAt(c, i).val.value
  }

  lemma BatchShape(c: Setup, g: nat)
    requires hide Vars, Uses, KeyOf, Groups; FuseReady(c.b) && g < |Groups(c.b.nodes)|
    ensures var f, m := BatchFetch(c.b.nodes, g), MembersOf(c.b.nodes, g);
            && f.httpMethod == "GET" && f.params == [] && f.pipeline == [] && f.idempotencyKey.None? && f.body.None?
            && !f.asResult && f.contract.None? && f.path != [] && f.batch.Some? && f.batch.value.mapped.None?
            && |f.batch.value.ids| == |m| && |m| >= 2
            && f.path == Prefix(c.b.nodes[First(c.b.nodes, g)].kind.f.path)
  {
    hide Vars, KindVars, BodyVars, Uses, KeyOf, Groups, Printer.Print;
    assert MembersPlain(c.b, g);
    assert PlainMember(c.b, First(c.b.nodes, g), First(c.b.nodes, g));
    GroupsFusable(c.b.nodes, g);
  }

  // ---------- the run ----------

  /** The same body after the pass, started alike. */
  ghost function FusedSetup(c: Setup): Setup {
    c.(b := Body(FuseNodes(c.b.nodes), c.b.waves))
  }

  /** Where what node `i` expands to begins. */
  function Pos(nodes: seq<Node>, i: nat): nat
    requires i <= |nodes|
  {
    hide *;
    |Rebuild(nodes, i)|
  }

  lemma ExpandedAt(nodes: seq<Node>, i: nat, j: nat)
    requires hide *; i < |nodes| && Groups(nodes) != [] && j < |Expand(nodes, i, Pos(nodes, i))|
    ensures Pos(nodes, i + 1) == Pos(nodes, i) + |Expand(nodes, i, Pos(nodes, i))| <= |FuseNodes(nodes)|
    ensures SameWork(FuseNodes(nodes)[Pos(nodes, i) + j], Expand(nodes, i, Pos(nodes, i))[j])
  {
    hide Vars, KeyOf, Printer.Print, Expand, Groups;
    RebuildPrefix(nodes, i + 1, |nodes|);
    var all := Rebuild(nodes, |nodes|);
    assert Rebuild(nodes, i + 1) == Rebuild(nodes, i) + Expand(nodes, i, Pos(nodes, i));
    assert all[Pos(nodes, i) + j] == Rebuild(nodes, i + 1)[Pos(nodes, i) + j];
  }

  /** How many requests the first `k` nodes no longer send. */
  function Saved(nodes: seq<Node>, k: nat): nat
    requires k <= |nodes|
  {
    hide Vars, KeyOf, Groups;
    if k == 0 then 0
    else
      Saved(nodes, k - 1)
      + if GroupAt(nodes, k - 1).Some? && !Leads(nodes, k - 1, GroupAt(nodes, k - 1).value) then 1 else 0
  }

  ghost predicate BatchBound(c: Setup, g: nat, env: Env)
    requires g < |Groups(c.b.nodes)|
  {
    hide *;
    Lookup(env, BatchName(g)) == BatchAt(c, g).val
  }

  /** The two runs in step, with the batches of the groups begun so far bound. */
  ghost predicate Together(c: Setup, r: Run, s: Run, i: nat)
    requires i <= |c.b.nodes|
  {
    hide *;
    && s.ctl == r.ctl && SameBut(r.env, s.env, BatchNames(c.b.nodes))
    && Observe(s.evs) == Observe(r.evs) && Sends(s.evs) + Saved(c.b.nodes, i) == Sends(r.evs)
    && forall g: nat | g < |Groups(c.b.nodes)| && First(c.b.nodes, g) < i :: BatchBound(c, g, s.env)
  }

  lemma SameHistory(r: Run, s: Run)
    requires Observe(s.evs) == Observe(r.evs)
    ensures Mutations(s.evs) == Mutations(r.evs)
  {
    MutationsObserved(r.evs);
    MutationsObserved(s.evs);
  }

  lemma BothAppend(r: Run, s: Run, es: seq<Event>)
    requires Observe(s.evs) == Observe(r.evs)
    ensures Observe(s.evs + es) == Observe(r.evs + es)
            && Sends(s.evs + es) - Sends(s.evs) == Sends(r.evs + es) - Sends(r.evs)
  {
    ObserveAppend(r.evs, es); ObserveAppend(s.evs, es);
    SendsAppend(r.evs, es); SendsAppend(s.evs, es);
  }

  /** A node that is not fused, run from two such states. */
  lemma PlainNode(c: Setup, i: nat, d: Setup, k: nat, h: seq<Request>, a: Env, e: Env) returns (r: Run, s: Run)
    requires hide *; FuseReady(c.b) && i < |c.b.nodes| && k < |d.b.nodes| && SameWork(d.b.nodes[k], c.b.nodes[i])
             && !IsFetch(c.b, i)
    requires d.p == c.p && d.fuel == c.fuel && SameBut(a, e, BatchNames(c.b.nodes))
    ensures r == RunNode(c.p, InOrder, c.fuel, c.b, c.b.nodes[i], a, h)
    ensures s == RunNode(d.p, InOrder, d.fuel, d.b, d.b.nodes[k], e, h)
    ensures Alike(r, s, BatchNames(c.b.nodes)) && Within(e, s.env, Writes(c.b.nodes[i]))
  {
    hide RunBody, RunOrder, RunWaves, RunLoop, RunMatch, RunTail, NodeStep, RoundStep, LaunchTo, FetchOne, Prepare,
      EvalPath, Eval, ApplyPipeline, Vars, KindVars, BodyVars, Uses, KeyOf, Groups, Printer.Print, RunNode, Avoids,
      BatchNames;
    AvoidsNode(c.b, i, BatchNames(c.b.nodes));
    assert NoRetry(c.b.nodes[i].kind);
    hide FuseReady;
    NodeIgnoresBody(c.p, InOrder, c.fuel, d.b, c.b, d.b.nodes[k], c.b.nodes[i], e, h);
    NodeUnseen(c.p, c.fuel, c.b, c.b.nodes[i], a, e, h, BatchNames(c.b.nodes));
    NodeWithin(c.p, InOrder, c.fuel, c.b, c.b.nodes[i], e, h);
    r := RunNode(c.p, InOrder, c.fuel, c.b, c.b.nodes[i], a, h);
    s := RunNode(d.p, InOrder, d.fuel, d.b, d.b.nodes[k], e, h);
  }

  lemma StillBound(c: Setup, i: nat, a: Env, e: Env)
    requires hide *; FuseReady(c.b) && i < |c.b.nodes| && Within(a, e, Writes(c.b.nodes[i]))
    requires forall g: nat | g < |Groups(c.b.nodes)| && First(c.b.nodes, g) < i :: BatchBound(c, g, a)
    ensures forall g: nat | g < |Groups(c.b.nodes)| && First(c.b.nodes, g) < i :: BatchBound(c, g, e)
  {
    hide RunBody, RunOrder, RunWaves, RunNode, RunLoop, RunMatch, RunTail, NodeStep, RoundStep, LaunchTo, FetchOne,
      Prepare, EvalPath, Eval, ApplyPipeline, Vars, KindVars, BodyVars, Uses, KeyOf, Groups, Printer.Print, BatchAt;
    forall g: nat | g < |Groups(c.b.nodes)| && First(c.b.nodes, g) < i ensures BatchBound(c, g, e) {
      assert BatchBound(c, g, a);
      assert BatchName(g) in BatchNames(c.b.nodes);
      assert Writes(c.b.nodes[i]) !! BatchNames(c.b.nodes);
    }
  }

  lemma NotFirst(c: Setup, i: nat)
    requires hide *; i < |c.b.nodes| && GroupAt(c.b.nodes, i).None?
    ensures forall g: nat | g < |Groups(c.b.nodes)| :: First(c.b.nodes, g) != i
  {
    hide *;
    forall g: nat | g < |Groups(c.b.nodes)| ensures First(c.b.nodes, g) != i {
      if First(c.b.nodes, g) == i { MemberOf(c, g, i); }
    }
  }

  /** Both runs did the same. */
  lemma TogetherAfter(c: Setup, i: nat, r: Run, s: Run, es: seq<Event>, r2: Run, s2: Run)
    requires hide *; FuseReady(c.b) && i < |c.b.nodes| && GroupAt(c.b.nodes, i).None? && Together(c, r, s, i)
    requires r2.evs == r.evs + es && s2.evs == s.evs + es && r2.ctl == s2.ctl
             && SameBut(r2.env, s2.env, BatchNames(c.b.nodes))
    requires Within(s.env, s2.env, Writes(c.b.nodes[i]))
    ensures Together(c, r2, s2, i + 1)
  {
    hide RunBody, RunOrder, RunWaves, RunNode, RunLoop, RunMatch, RunTail, NodeStep, RoundStep, LaunchTo, FetchOne,
      Prepare, EvalPath, Eval, ApplyPipeline, Vars, KindVars, BodyVars, Uses, KeyOf, Groups, Printer.Print,
      FuseReady, Observe, Sends, BatchBound, BatchNames, Writes;
    NotFirst(c, i);
    BothAppend(r, s, es);
    StillBound(c, i, s.env, s2.env);
  }

  lemma PlainPlace(c: Setup, i: nat)
    requires hide *; Groups(c.b.nodes) != [] && i < |c.b.nodes| && GroupAt(c.b.nodes, i).None?
    ensures var d, k := FusedSetup(c), Pos(c.b.nodes, i);
            k < |d.b.nodes| && Pos(c.b.nodes, i + 1) == k + 1 && SameWork(d.b.nodes[k], c.b.nodes[i])
  {
    hide Vars, KeyOf, Groups, Printer.Print, FuseNodes;
    assert |Expand(c.b.nodes, i, Pos(c.b.nodes, i))| == 1;
    ExpandedAt(c.b.nodes, i, 0);
  }

  lemma PlainStep(c: Setup, i: nat)
    requires hide *; FuseReady(c.b) && Groups(c.b.nodes) != [] && i < |c.b.nodes| && GroupAt(c.b.nodes, i).None?
    requires c.At(i).ctl.Next? && Together(c, c.At(i), FusedSetup(c).At(PosIn(c, i)), i)
    ensures PosIn(c, i + 1) == PosIn(c, i) + 1 && Together(c, c.At(i + 1), FusedSetup(c).At(PosIn(c, i + 1)), i + 1)
  {
    hide RunBody, RunWaves, RunNode, RunLoop, RunMatch, RunTail, NodeStep, RoundStep, LaunchTo, FetchOne, Prepare,
      EvalPath, Eval, ApplyPipeline, Vars, KindVars, BodyVars, Uses, KeyOf, Printer.Print, RunOrder, FuseNodes, Pos,
      PosIn, FuseReady, Together, GroupAt, Groups;
    PlainPlace(c, i);
    PosInIs(c, i);
    PosInIs(c, i + 1);
    var d, k := FusedSetup(c), PosIn(c, i);
    SameMutations(c, i, c.At(i), d.At(k));
    if IsFetch(c.b, i) { FetchStep(c, d, i, k); } else { OtherStep(c, d, i, k); }
  }

  lemma SameMutations(c: Setup, i: nat, r: Run, s: Run)
    requires hide *; i <= |c.b.nodes| && Together(c, r, s, i)
    ensures Mutations(s.evs) == Mutations(r.evs)
  {
    hide RunBody, RunOrder, RunWaves, RunNode, RunLoop, NodeStep, RoundStep, LaunchTo, FetchOne, Prepare, EvalPath,
      Eval, ApplyPipeline, Vars, KeyOf, Groups, Printer.Print;
    SameHistory(r, s);
  }

  lemma FetchStep(c: Setup, d: Setup, i: nat, k: nat)
    requires hide *; FuseReady(c.b) && i < |c.b.nodes| && GroupAt(c.b.nodes, i).None? && IsFetch(c.b, i)
    requires k < |d.b.nodes| && SameWork(d.b.nodes[k], c.b.nodes[i]) && d.p == c.p && d.hist == c.hist
    requires c.At(i).ctl.Next? && Together(c, c.At(i), d.At(k), i) && Mutations(d.At(k).evs) == Mutations(c.At(i).evs)
    ensures Together(c, c.At(i + 1), d.At(k + 1), i + 1)
  {
    hide RunBody, RunWaves, RunNode, RunLoop, RunMatch, RunTail, NodeStep, RoundStep, LaunchTo, Prepare, EvalPath,
      Eval, ApplyPipeline, Vars, KindVars, BodyVars, Uses, KeyOf, Groups, Printer.Print, RunOrder, FetchOne,
      Observe, Sends, Writes, GroupAt, BatchNames, BatchBound;
    AvoidsNode(c.b, i, BatchNames(c.b.nodes));
    var r, s, h, f := c.At(i), d.At(k), HistAt(c, i), c.b.nodes[i].kind.f;
    StepWrites(d, k);
    SameWrites(d.b.nodes[k], c.b.nodes[i]);
    AtStep(c, i);
    AtStep(d, k);
    SingleRound(c.p, c.b, i, r, c.hist);
    SingleRound(d.p, d.b, k, s, d.hist);
    FetchSame(c.p.world, f, r.env, s.env, BatchNames(c.b.nodes), h);
    TogetherAfter(c, i, r, s, FetchEvents(FetchOne(c.p.world, f, r.env, h)), c.At(i + 1), d.At(k + 1));
  }

  lemma OtherStep(c: Setup, d: Setup, i: nat, k: nat)
    requires hide *; FuseReady(c.b) && i < |c.b.nodes| && GroupAt(c.b.nodes, i).None? && !IsFetch(c.b, i)
    requires k < |d.b.nodes| && SameWork(d.b.nodes[k], c.b.nodes[i]) && d.p == c.p && d.hist == c.hist
             && d.fuel == c.fuel
    requires c.At(i).ctl.Next? && Together(c, c.At(i), d.At(k), i) && Mutations(d.At(k).evs) == Mutations(c.At(i).evs)
    ensures Together(c, c.At(i + 1), d.At(k + 1), i + 1)
  {
    hide RunBody, RunWaves, RunLoop, RunMatch, RunTail, NodeStep, RoundStep, LaunchTo, FetchOne, Prepare, EvalPath,
      Eval, ApplyPipeline, Vars, KindVars, BodyVars, Uses, KeyOf, Groups, Printer.Print, RunOrder, RunNode,
      FuseReady, Observe, Sends, Writes, GroupAt, BatchNames, BatchBound;
    var r, s := c.At(i), d.At(k);
    AtStep(c, i);
    AtStep(d, k);
    var m, n := PlainNode(c, i, d, k, HistAt(c, i), r.env, s.env);
    TogetherAfter(c, i, r, s, m.evs, c.At(i + 1), d.At(k + 1));
  }

  lemma SameWrites(n: Node, o: Node)
    requires SameWork(n, o)
    ensures Writes(n) == Writes(o)
  {
  }

  /** A fused fetch in program order: one request, unseen, and the answer is bound. */
  lemma MemberStep(c: Setup, i: nat)
    requires hide RunBody, RunOrder, RunWaves, RunNode, RoundStep, FetchOne, Eval, ApplyPipeline, Vars, Uses, KeyOf,
               Groups;
             FuseReady(c.b) && Served(c) && Reached(c, i)
    ensures Alone(c, i) && c.At(i + 1).env == BindTo(c.At(i).env, c.b.nodes[i].binding, FetchedAt(c, i).val.value)
    ensures c.At(i + 1).ctl == c.At(i).ctl && c.At(i).ctl.Next?
    ensures Observe(c.At(i + 1).evs) == Observe(c.At(i).evs) && Sends(c.At(i + 1).evs) == Sends(c.At(i).evs) + 1
  {
    hide RunBody, RunWaves, RunLoop, RunMatch, RunTail, NodeStep, RoundStep, LaunchTo, Prepare, EvalPath,
      ApplyPipeline, Vars, KindVars, BodyVars, Uses, KeyOf, Groups, Printer.Print, Eval, RunNode, RunOrder,
      FetchOne, Observe, Sends;
    MemberAnswer(c, i);
    MemberFacts(c, i);
    hide FuseReady, Served, BatchFetch, GroupAt, PlainMember;
    AtStep(c, i);
    SingleRound(c.p, c.b, i, c.At(i), c.hist);
    QuietGetUnobserved(c.p.world, c.b.nodes[i].kind.f, c.At(i).env, HistAt(c, i));
    FetchCounts(c.At(i).evs, FetchedAt(c, i));
  }

  lemma FetchCounts(evs: seq<Event>, one: Fetched)
    requires one.sent.Some? && Observe(FetchEvents(one)) == []
    ensures Observe(evs + FetchEvents(one)) == Observe(evs) && Sends(evs + FetchEvents(one)) == Sends(evs) + 1
  {
    ObserveAppend(evs, FetchEvents(one));
    SendsAppend(evs, FetchEvents(one));
    LaunchSends(Launch(one.before, [one.sent.value], one.after, map[]));
  }

  /** What a scatter for member `i` finds and evaluates. */
  ghost predicate Scatterable(c: Setup, i: nat, g: nat) {
    hide RunBody, RunOrder, RunWaves, RunNode, RoundStep, FetchOne, Eval, ApplyPipeline, Vars, KeyOf, Groups;
    && g < |Groups(c.b.nodes)| && i < |c.b.nodes| && Batchable(c.b.nodes[i])
    && BatchAt(c, g).val.Some? && BatchAt(c, g).val.value.Array?
    && Answered(c, i, BatchAt(c, g).val.value.items, BatchFetch(c.b.nodes, g).batch.value.keyField)
    && Quiet.Quiet(IdOf(c.b.nodes[i])) && Vars(IdOf(c.b.nodes[i]), true) !! BatchNames(c.b.nodes)
  }

  lemma MemberScatters(c: Setup, i: nat, g: nat)
    requires hide RunBody, RunOrder, RunWaves, RunNode, RoundStep, FetchOne, Eval, ApplyPipeline, Vars, Uses, KeyOf,
               Groups;
             FuseReady(c.b) && Served(c) && Reached(c, i) && GroupAt(c.b.nodes, i) == Some(g)
    requires g < |Groups(c.b.nodes)| && i in MembersOf(c.b.nodes, g)
    ensures Scatterable(c, i, g)
  {
    hide RunBody, RunOrder, RunWaves, RunNode, RunLoop, RunMatch, RunTail, NodeStep, RoundStep, LaunchTo, FetchOne,
      Prepare, EvalPath, Eval, ApplyPipeline, Vars, KindVars, BodyVars, Uses, KeyOf, Groups, Printer.Print,
      Setup.At, FuseReady, Served, MembersOf, BatchAt, FetchedAt, WantAt, Held;
    BegunIsPromised(c, i, g);
    BatchAnswers(c, g);
    HeldIsAnswer(c, g, i, BatchAt(c, g).val.value.items);
    CleanMember(c, g, i);
  }

  lemma BegunIsPromised(c: Setup, i: nat, g: nat)
    requires hide RunBody, RunOrder, RunWaves, RunNode, RoundStep, FetchOne, Eval, Vars, Uses, KeyOf, Groups;
             FuseReady(c.b) && Served(c) && Reached(c, i) && GroupAt(c.b.nodes, i) == Some(g) && g < |Groups(c.b.nodes)|
    ensures Promised(c, g)
  {
    hide RunBody, RunOrder, RunWaves, RunNode, RunLoop, RunMatch, RunTail, NodeStep, RoundStep, LaunchTo, FetchOne,
      Prepare, EvalPath, Eval, ApplyPipeline, Vars, KindVars, BodyVars, Uses, KeyOf, Groups, Printer.Print,
      Setup.At, Promised;
    GroupBegun(c, i);
  }

  /** A scatter binds what its member fetched, and does nothing else. */
  lemma ScatterRuns(c: Setup, i: nat, g: nat, n: Node, b: Body, env: Env, hist: seq<Request>)
    requires hide RunBody, RunOrder, RunWaves, RunNode, RoundStep, FetchOne, Eval, ApplyPipeline, Vars, KeyOf, Groups;
             Scatterable(c, i, g) && n.binding == c.b.nodes[i].binding
    requires n.kind == ScatterN(BatchName(g), BatchFetch(c.b.nodes, g).batch.value.keyField, IdOf(c.b.nodes[i]))
    requires SameBut(c.At(i).env, env, BatchNames(c.b.nodes)) && BatchBound(c, g, env)
    ensures FetchedAt(c, i).val.Some?
    ensures RunNode(c.p, InOrder, c.fuel, b, n, env, hist) == Run(BindTo(env, n.binding, FetchedAt(c, i).val.value),
            [], Next(None))
  {
    hide FetchOne, Prepare, ApplyPipeline, Vars, KeyOf, Printer.Print, RunOrder, FetchedAt, BatchAt, Eval,
      BatchFetch, Batchable, GroupAt, BatchNames, Quiet.Quiet;
    var want := IdOf(c.b.nodes[i]);
    EvalSame(want, c.At(i).env, env, BatchNames(c.b.nodes));
    QuietEval(want, env, None);
    PickIs(Lookup(env, BatchName(g)), BatchAt(c, g).val, n.kind.keyField, WantAt(c, i).value);
    assert Prints([]) == [];
  }

  lemma PickIs(bound: Option<Value>, batch: Option<Value>, key: string, want: Value)
    requires bound == batch && batch.Some? && batch.value.Array?
    ensures Pick(bound, key, want) == FirstWith(batch.value.items, key, want)
  {
  }

  lemma ScatterStep(c: Setup, d: Setup, i: nat, g: nat, k: nat)
    requires hide RunBody, RunOrder, RunWaves, RunNode, RoundStep, FetchOne, Eval, ApplyPipeline, Vars, KeyOf, Groups;
             Scatterable(c, i, g) && k < |d.b.nodes| && d.p == c.p && d.fuel == c.fuel && d.At(k).ctl.Next?
    requires SameWork(d.b.nodes[k], ScatterNode(c.b.nodes, g, c.b.nodes[i], k))
    requires SameBut(c.At(i).env, d.At(k).env, BatchNames(c.b.nodes)) && BatchBound(c, g, d.At(k).env)
    ensures FetchedAt(c, i).val.Some?
    ensures d.At(k + 1) == Run(BindTo(d.At(k).env, c.b.nodes[i].binding, FetchedAt(c, i).val.value), d.At(k).evs,
            d.At(k).ctl)
  {
    hide RunBody, RunWaves, RunLoop, RunMatch, RunTail, NodeStep, RoundStep, LaunchTo, FetchOne, Prepare, EvalPath,
      Eval, ApplyPipeline, Vars, KeyOf, Groups, Printer.Print, RunOrder, RunNode, FetchedAt, BatchFetch, BatchAt,
      BatchNames;
    ScatterRuns(c, i, g, d.b.nodes[k], d.b, d.At(k).env, HistAt(d, k));
    AtStep(d, k);
    assert d.At(k).evs + [] == d.At(k).evs;
  }

  /** The batch itself: one request, unseen, and its array is bound. */
  lemma BatchStep(c: Setup, d: Setup, g: nat, k: nat)
    requires hide *; FuseReady(c.b) && g < |Groups(c.b.nodes)| && Promised(c, g) && k < |d.b.nodes| && d.p == c.p
             && d.At(k).ctl.Next?
    requires SameWork(d.b.nodes[k], BatchNode(c.b.nodes, g, k))
    requires SameBut(c.At(First(c.b.nodes, g)).env, d.At(k).env, BatchNames(c.b.nodes))
    ensures BatchAt(c, g).val.Some? && d.At(k + 1).env == Insert(d.At(k).env, BatchName(g), BatchAt(c, g).val.value)
    ensures d.At(k + 1).ctl == d.At(k).ctl
    ensures Observe(d.At(k + 1).evs) == Observe(d.At(k).evs) && Sends(d.At(k + 1).evs) == Sends(d.At(k).evs) + 1
  {
    hide RunBody, RunWaves, RunLoop, RunMatch, RunTail, NodeStep, RoundStep, LaunchTo, Prepare, EvalPath,
      ApplyPipeline, Vars, KindVars, BodyVars, Uses, KeyOf, Groups, Printer.Print, Eval, RunNode, RunOrder,
      FetchOne, Observe, Sends, BatchFetch;
    var f, first := BatchFetch(c.b.nodes, g), First(c.b.nodes, g);
    BatchAnswers(c, g);
    BatchIsClean(c, g);
    BatchShape(c, g);
    hide FuseReady, Promised;
    AtStep(d, k);
    SingleRound(d.p, d.b, k, d.At(k), d.hist);
    FetchSame(c.p.world, f, c.At(first).env, d.At(k).env, BatchNames(c.b.nodes), HistAt(d, k));
    GetIgnoresHistory(c.p.world, f, c.At(first).env, HistAt(d, k), HistAt(c, first));
    QuietGetUnobserved(c.p.world, f, d.At(k).env, HistAt(d, k));
    FetchCounts(d.At(k).evs, BatchAt(c, g));
  }

  /** The nodes that stand in `out` for member `i`. */
  predicate LeaderPlaced(nodes: seq<Node>, out: seq<Node>, i: nat, g: nat, k: nat)
    requires i < |nodes| && g < |Groups(nodes)| && Batchable(nodes[i])
  {
    hide *;
    k + 1 < |out| && Pos(nodes, i + 1) == k + 2
    && SameWork(out[k], BatchNode(nodes, g, k)) && SameWork(out[k + 1], ScatterNode(nodes, g, nodes[i], k + 1))
  }

  predicate FollowerPlaced(nodes: seq<Node>, out: seq<Node>, i: nat, g: nat, k: nat)
    requires i < |nodes| && g < |Groups(nodes)| && Batchable(nodes[i])
  {
    hide *;
    k < |out| && Pos(nodes, i + 1) == k + 1 && SameWork(out[k], ScatterNode(nodes, g, nodes[i], k))
  }

  lemma FusedPlace(nodes: seq<Node>, i: nat, g: nat)
    requires hide *; i < |nodes| && g < |Groups(nodes)| && Batchable(nodes[i]) && GroupAt(nodes, i) == Some(g)
    ensures if Leads(nodes, i, g) then LeaderPlaced(nodes, FuseNodes(nodes), i, g, Pos(nodes, i))
            else FollowerPlaced(nodes, FuseNodes(nodes), i, g, Pos(nodes, i))
  {
    hide Vars, KeyOf, Groups, Printer.Print, FuseNodes, BatchNode, ScatterNode, SameWork, GroupAt, Batchable;
    ExpandedAt(nodes, i, 0);
    if Leads(nodes, i, g) { ExpandedAt(nodes, i, 1); }
  }

  /** Both runs past a fused fetch. */
  lemma FusedStep(c: Setup, i: nat)
    requires hide RunBody, RunOrder, RunWaves, RunNode, RoundStep, FetchOne, Eval, ApplyPipeline, Vars, Uses, KeyOf,
               Groups;
             FuseReady(c.b) && Served(c) && Reached(c, i)
    requires Together(c, c.At(i), FusedSetup(c).At(PosIn(c, i)), i)
    ensures Together(c, c.At(i + 1), FusedSetup(c).At(PosIn(c, i + 1)), i + 1)
  {
    hide RunBody, RunWaves, RunNode, RunLoop, RunMatch, RunTail, NodeStep, RoundStep, LaunchTo, FetchOne, Prepare,
      EvalPath, Eval, ApplyPipeline, Vars, KindVars, BodyVars, Uses, KeyOf, Printer.Print, Fusion.Groups, RunOrder,
      FuseReady, Served, Together, FuseNodes, GroupAt, Pos;
    var d, k := FusedSetup(c), PosIn(c, i);
    GroupMember(c.b.nodes, i);
    var g := GroupAt(c.b.nodes, i).value;
    hide MembersOf, Batchable;
    FusedPlace(c.b.nodes, i, g);
    PosInIs(c, i);
    PosInIs(c, i + 1);
    if Leads(c.b.nodes, i, g) { LeaderStep(c, d, i, g, k); } else { FollowerStep(c, d, i, g, k); }
  }

  /** Where node `i` begins in the rewritten body, never past its end. */
  ghost function PosIn(c: Setup, i: nat): (k: nat)
    requires i <= |c.b.nodes|
    ensures k <= |FusedSetup(c).b.nodes|
  {
    hide *;
    var k, n := Pos(c.b.nodes, i), |FusedSetup(c).b.nodes|;
    if k <= n then k else n
  }

  lemma PosInIs(c: Setup, i: nat)
    requires hide *; i <= |c.b.nodes| && Groups(c.b.nodes) != []
    ensures PosIn(c, i) == Pos(c.b.nodes, i)
  {
    hide Vars, KeyOf, Groups, Printer.Print;
    RebuildPrefix(c.b.nodes, i, |c.b.nodes|);
  }

  lemma FollowerStep(c: Setup, d: Setup, i: nat, g: nat, k: nat)
    requires hide RunBody, RunOrder, RunWaves, RunNode, RoundStep, FetchOne, Eval, ApplyPipeline, Vars, Uses, KeyOf,
               Groups;
             FuseReady(c.b) && Served(c) && Reached(c, i) && GroupAt(c.b.nodes, i) == Some(g) && g < |Groups(c.b.nodes)|
    requires Batchable(c.b.nodes[i]) && FollowerPlaced(c.b.nodes, d.b.nodes, i, g, k) && d.p == c.p && d.fuel == c.fuel
    requires !Leads(c.b.nodes, i, g) && Together(c, c.At(i), d.At(k), i)
    ensures Together(c, c.At(i + 1), d.At(k + 1), i + 1)
  {
    hide RunBody, RunWaves, RunNode, RunLoop, RunMatch, RunTail, NodeStep, RoundStep, LaunchTo, FetchOne, Prepare,
      EvalPath, Eval, ApplyPipeline, Vars, KindVars, BodyVars, Uses, Printer.Print, Fusion.KeyOf, Fusion.Groups,
      Fusion.MembersOf, Fusion.Leads, Pos, RunOrder, Observe, Sends, FuseReady, Served, ScatterNode, BatchNames,
      BatchBound, Scatterable, FetchedAt, Alone;
    MemberFacts(c, i);
    hide PlainMember, BatchFetch;
    MemberStep(c, i);
    MemberScatters(c, i, g);
    EarlierGroups(c, i, g);
    ScatterStep(c, d, i, g, k);
    BindKeeps(c, i, d.At(k).env, FetchedAt(c, i).val.value);
    BindsSame(c.At(i).env, d.At(k).env, BatchNames(c.b.nodes), c.b.nodes[i].binding, FetchedAt(c, i).val.value);
  }

  /** A member that is not the first of its group begins no group. */
  lemma EarlierGroups(c: Setup, i: nat, g: nat)
    requires hide Vars, KeyOf, Groups;
             Member(c, i) && GroupAt(c.b.nodes, i) == Some(g) && g < |Groups(c.b.nodes)| && i in MembersOf(c.b.nodes, g)
    requires !Leads(c.b.nodes, i, g)
    ensures First(c.b.nodes, g) < i
    ensures forall h: nat | h < |Groups(c.b.nodes)| && First(c.b.nodes, h) < i + 1 :: First(c.b.nodes, h) < i
  {
    hide Vars, KeyOf, Groups, Printer.Print;
    FirstIsFirst(MembersOf(c.b.nodes, g), i);
    forall h: nat | h < |Groups(c.b.nodes)| && First(c.b.nodes, h) < i + 1 ensures First(c.b.nodes, h) < i {
      if First(c.b.nodes, h) == i { MemberOf(c, h, i); }
    }
  }

  lemma BindsSame(a: Env, e: Env, f: set<string>, binding: Option<string>, v: Value)
    requires SameBut(a, e, f)
    ensures SameBut(BindTo(a, binding, v), BindTo(e, binding, v), f)
  {
  }

  /** Binding a member's own name leaves the batches bound. */
  lemma BindKeeps(c: Setup, i: nat, env: Env, v: Value)
    requires hide *; FuseReady(c.b) && i < |c.b.nodes|
    ensures forall g: nat | g < |Groups(c.b.nodes)|
            && BatchBound(c, g, env) :: BatchBound(c, g, BindTo(env, c.b.nodes[i].binding, v))
  {
    hide RunBody, RunOrder, RunWaves, RunNode, RunLoop, RunMatch, RunTail, NodeStep, RoundStep, LaunchTo, FetchOne,
      Prepare, EvalPath, Eval, ApplyPipeline, Vars, KindVars, BodyVars, Uses, KeyOf, Groups, Printer.Print, BatchAt;
    forall g: nat | g < |Groups(c.b.nodes)| && BatchBound(c, g, env)
      ensures BatchBound(c, g, BindTo(env, c.b.nodes[i].binding, v))
    {
      assert BatchName(g) in BatchNames(c.b.nodes);
      assert Writes(c.b.nodes[i]) !! BatchNames(c.b.nodes);
    }
  }

  lemma LeaderStep(c: Setup, d: Setup, i: nat, g: nat, k: nat)
    requires hide RunBody, RunOrder, RunWaves, RunNode, RoundStep, FetchOne, Eval, ApplyPipeline, Vars, Uses, KeyOf,
               Groups;
             FuseReady(c.b) && Served(c) && Reached(c, i) && GroupAt(c.b.nodes, i) == Some(g) && g < |Groups(c.b.nodes)|
    requires Batchable(c.b.nodes[i]) && LeaderPlaced(c.b.nodes, d.b.nodes, i, g, k) && d.p == c.p && d.fuel == c.fuel
    requires Leads(c.b.nodes, i, g) && i in MembersOf(c.b.nodes, g) && Together(c, c.At(i), d.At(k), i)
    ensures Together(c, c.At(i + 1), d.At(k + 2), i + 1)
  {
    hide RunBody, RunWaves, RunNode, RunLoop, RunMatch, RunTail, NodeStep, RoundStep, LaunchTo, Prepare, EvalPath,
      Eval, ApplyPipeline, Vars, KindVars, BodyVars, Uses, KeyOf, Groups, Printer.Print, BindTo, Fusion.Keys,
      RunOrder, Observe, Sends, FetchOne, BatchFetch, BatchNode, ScatterNode, Scatterable, FetchedAt, Alone,
      FuseReady, Served, Promised, PlainMember, BatchAt, GroupAt;
    MemberStep(c, i);
    assert First(c.b.nodes, g) == i;
    MemberScatters(c, i, g);
    BegunIsPromised(c, i, g);
    BatchStep(c, d, g, k);
    BatchesBound(c, i, g, d.At(k).env);
    assert BatchName(g) in BatchNames(c.b.nodes);
    ScatterStep(c, d, i, g, k + 1);
    BindKeeps(c, i, d.At(k + 1).env, FetchedAt(c, i).val.value);
    BindsSame(c.At(i).env, d.At(k + 1).env, BatchNames(c.b.nodes), c.b.nodes[i].binding, FetchedAt(c, i).val.value);
  }

  /** Binding a new batch leaves the others bound. */
  lemma BatchesBound(c: Setup, i: nat, g: nat, env: Env)
    requires hide *; i < |c.b.nodes| && g < |Groups(c.b.nodes)| && First(c.b.nodes, g) == i && BatchAt(c, g).val.Some?
    requires forall h: nat | h < |Groups(c.b.nodes)| && First(c.b.nodes, h) < i :: BatchBound(c, h, env)
    ensures forall h: nat | h < |Groups(c.b.nodes)| && First(c.b.nodes, h) < i + 1 ::
              BatchBound(c, h, Insert(env, BatchName(g), BatchAt(c, g).val.value))
  {
    hide RunBody, RunOrder, RunWaves, RunNode, RunLoop, RunMatch, RunTail, NodeStep, RoundStep, LaunchTo, FetchOne,
      Prepare, EvalPath, Eval, ApplyPipeline, Vars, KeyOf, Groups, Printer.Print, BatchName, BatchAt;
    forall h: nat | h < |Groups(c.b.nodes)| && First(c.b.nodes, h) < i + 1
      ensures BatchBound(c, h, Insert(env, BatchName(g), BatchAt(c, g).val.value))
    {
      if First(c.b.nodes, h) == i {
        MemberOf(c, g, i);
        MemberOf(c, h, i);
      } else if BatchName(h) == BatchName(g) {
        BatchNamesDistinct(g, h);
      }
    }
  }

  // ---------- the theorem ----------

  lemma {:induction false} FusedTogether(c: Setup, i: nat)
    requires hide *; FuseReady(c.b) && Served(c) && Groups(c.b.nodes) != [] && i <= |c.b.nodes| && c.At(i).ctl.Next?
    ensures Together(c, c.At(i), FusedSetup(c).At(PosIn(c, i)), i)
    decreases i
  {
    hide Fusion.Groups, RunOrder, FuseReady, Served, Together, PosIn, FusedSetup, GroupAt;
    if i == 0 {
      StartTogether(c);
    } else {
      Stays(c, i - 1, i);
      FusedTogether(c, i - 1);
      if GroupAt(c.b.nodes, i - 1).Some? { FusedStep(c, i - 1); } else { PlainStep(c, i - 1); }
    }
  }

  lemma StartTogether(c: Setup)
    ensures hide *; PosIn(c, 0) == 0 && Together(c, c.At(0), FusedSetup(c).At(0), 0)
  {
    hide RunNode, RunLoop, RunMatch, LaunchTo, FetchOne, Prepare, Eval, ApplyPipeline, Vars, KeyOf, Groups,
      Printer.Print, FuseNodes, BatchNames, BatchBound;
  }

  /** Under the batch promise, fusing leaves every binding, everything observed and the outcome as they
      were, however the run ends, and sends one request fewer for every member reached but the first of its
      group. */
  lemma FusionPreserves(c: Setup, s: nat)
    requires hide RunBody, RunOrder, RunWaves, RunNode, RoundStep, FetchOne, Eval, Vars, Uses, KeyOf, Groups;
             FuseReady(c.b) && Served(c) && Groups(c.b.nodes) != [] && c.Stops(s)
    ensures var r, f := RunBody(c.p, InOrder, c.fuel, c.b, c.ea, c.hist),
                        RunBody(c.p, InOrder, c.fuel, Body(FuseNodes(c.b.nodes), c.b.waves), c.ea, c.hist);
            && f.ctl == r.ctl && Observe(f.evs) == Observe(r.evs)
            && SameBut(r.env, f.env, BatchNames(c.b.nodes))
            && Sends(f.evs) + Saved(c.b.nodes, s) == Sends(r.evs)
  {
    hide RunWaves, RunNode, RunLoop, RunMatch, RunTail, NodeStep, RoundStep, LaunchTo, FetchOne, Prepare, EvalPath,
      Eval, ApplyPipeline, Vars, KindVars, BodyVars, Uses, KeyOf, Groups, Printer.Print;
    var d := FusedSetup(c);
    var n := |c.b.nodes|;
    assert c.At(n) == RunBody(c.p, InOrder, c.fuel, c.b, c.ea, c.hist);
    assert d.At(|d.b.nodes|) == RunBody(c.p, InOrder, c.fuel, d.b, c.ea, c.hist);
    hide RunBody, RunOrder, FuseReady, Served, FuseNodes, BatchNames, Observe, Sends, Saved;
    EndTogether(c, s);
    hide Setup.Stops;
  }

  /** Same ending, and `saved` requests fewer. */
  ghost predicate EndsAlike(r: Run, f: Run, names: set<string>, saved: nat) {
    f.ctl == r.ctl && Observe(f.evs) == Observe(r.evs) && SameBut(r.env, f.env, names)
        && Sends(f.evs) + saved == Sends(r.evs)
  }

  lemma TogetherEnds(c: Setup, r: Run, f: Run, i: nat)
    requires hide *; i <= |c.b.nodes| && Together(c, r, f, i)
    ensures EndsAlike(r, f, BatchNames(c.b.nodes), Saved(c.b.nodes, i))
  {
    hide RunBody, RunOrder, RunWaves, RunNode, RunLoop, NodeStep, RoundStep, LaunchTo, FetchOne, Prepare, EvalPath,
      Eval, ApplyPipeline, Vars, KeyOf, Groups, Printer.Print;
  }

  /** The end of the run, whether the nodes are all done or it stops before. */
  lemma EndTogether(c: Setup, s: nat)
    requires hide RunBody, RunOrder, RunWaves, RunNode, RoundStep, FetchOne, Eval, Vars, Uses, KeyOf, Groups;
             FuseReady(c.b) && Served(c) && Groups(c.b.nodes) != [] && c.Stops(s)
    ensures EndsAlike(c.At(|c.b.nodes|), FusedSetup(c).At(|FusedSetup(c).b.nodes|), BatchNames(c.b.nodes),
            Saved(c.b.nodes, s))
  {
    hide RunBody, RunWaves, RunNode, RunLoop, RunMatch, RunTail, NodeStep, RoundStep, LaunchTo, FetchOne, Prepare,
      EvalPath, Eval, ApplyPipeline, Vars, KindVars, BodyVars, Uses, KeyOf, Groups, Printer.Print, RunOrder,
      FuseReady, Served, Together, EndsAlike, FuseNodes;
    FusedTogether(c, s);
    if s == |c.b.nodes| {
      AtTheEnd(c);
      TogetherEnds(c, c.At(s), FusedSetup(c).At(PosIn(c, s)), s);
    } else {
      StopsBefore(c, s);
    }
  }

  lemma AtTheEnd(c: Setup)
    requires hide *; Groups(c.b.nodes) != []
    ensures PosIn(c, |c.b.nodes|) == |FusedSetup(c).b.nodes|
  {
    hide Vars, KeyOf, Groups, Printer.Print;
    PosInIs(c, |c.b.nodes|);
    PosAtEnd(c.b.nodes);
  }

  lemma StopsBefore(c: Setup, s: nat)
    requires hide *; FuseReady(c.b) && Served(c) && Groups(c.b.nodes) != [] && c.Stops(s) && s < |c.b.nodes|
    requires Together(c, c.At(s), FusedSetup(c).At(PosIn(c, s)), s)
    ensures EndsAlike(c.At(|c.b.nodes|), FusedSetup(c).At(|FusedSetup(c).b.nodes|), BatchNames(c.b.nodes),
            Saved(c.b.nodes, s))
  {
    hide RunBody, RunWaves, RunNode, RunLoop, RunMatch, RunTail, NodeStep, RoundStep, LaunchTo, FetchOne, Prepare,
      EvalPath, Eval, ApplyPipeline, Vars, KindVars, BodyVars, Uses, KeyOf, Printer.Print, Fusion.Groups, RunOrder,
      FuseReady, Served, Together, Pos, PosIn, GroupAt, FuseNodes, EndsAlike, FusedSetup, Saved, BatchNames;
    var d := FusedSetup(c);
    if Member(c, s) { MemberSucceeds(c, s); }
    var k := PosIn(c, s);
    PlainStep(c, s);
    TogetherEnds(c, c.At(s + 1), d.At(k + 1), s + 1);
    CtlOf(c, s + 1, c.At(s + 1), d.At(k + 1));
    Stays(d, k + 1, |d.b.nodes|);
    NoneSavedBy(c.b.nodes, s);
  }

  lemma NoneSavedBy(nodes: seq<Node>, s: nat)
    requires hide *; s < |nodes| && GroupAt(nodes, s).None?
    ensures Saved(nodes, s + 1) == Saved(nodes, s)
  {
    hide Vars, KeyOf, Groups, Printer.Print;
  }

  lemma CtlOf(c: Setup, i: nat, r: Run, s: Run)
    requires hide *; i <= |c.b.nodes| && Together(c, r, s, i)
    ensures s.ctl == r.ctl
  {
    hide RunBody, RunOrder, RunWaves, RunNode, RunLoop, NodeStep, RoundStep, LaunchTo, FetchOne, Prepare, EvalPath,
      Eval, ApplyPipeline, Vars, KeyOf, Groups, Printer.Print;
  }

  lemma PosAtEnd(nodes: seq<Node>)
    requires hide *; Groups(nodes) != []
    ensures Pos(nodes, |nodes|) == |FuseNodes(nodes)|
  {
    hide Vars, KeyOf, Groups, Printer.Print, Rebuild;
  }
}
