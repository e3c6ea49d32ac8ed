/** Effect signatures and fan-out hold for every run, however the flows recurse: the walk of the
    analyses, which does not enter a flow that is on its stack, still visits every body that a run
    can execute. */
module Capabilities {
  import opened Wrappers
  import opened Ir
  import opened Costs

  // ---------- the bodies the walk visits ----------

  /** The bodies visited from `b` when the flows in `visiting` are being visited already. */
  ghost function Walk(flows: seq<Flow>, b: Body, visiting: seq<string>): set<Body>
    decreases Unvisited(flows, visiting), b, 2, 0
  {
    hide *;
    {b} + WalkNodes(flows, b.nodes, visiting)
  }

  ghost function WalkNodes(flows: seq<Flow>, nodes: seq<Node>, visiting: seq<string>): set<Body>
    decreases Unvisited(flows, visiting), nodes, 1
  {
    hide *;
    if nodes == [] then {}
    else
      assert nodes[0].kind < nodes[0];
      (if nodes[0].live then WalkKind(flows, nodes[0].kind, visiting) else {}) + WalkNodes(flows, nodes[1..], visiting)
  }

  ghost function WalkKind(flows: seq<Flow>, k: NodeKind, visiting: seq<string>): set<Body>
    decreases Unvisited(flows, visiting), k, 0
  {
    hide *;
    match k
    case ExprN(e) =>
      var name := CallName(e);
      if name.None? || name.value in visiting || FindFlow(flows, name.value).None? then {}
      else
        Entered(flows, visiting, name.value);
        Walk(flows, FindFlow(flows, name.value).value.body, visiting + [name.value])
    case MatchN(m) => WalkArms(flows, m.arms, visiting)
    case ForEachN(fe) => Walk(flows, fe.body, visiting)
    case _ => {}
  }

  ghost function WalkArms(flows: seq<Flow>, arms: seq<ArmIr>, visiting: seq<string>): set<Body>
    decreases Unvisited(flows, visiting), arms, 1
  {
    hide *;
    if arms == [] then {}
    else
      assert arms[0].body < arms[0];
      (if arms[0].body.BodyArm? then Walk(flows, arms[0].body.b, visiting) else {}) + WalkArms(flows, arms[1..],
          visiting)
  }

  // ---------- the bodies a run can execute ----------

  /** A live node of `v` calls the declared flow `name`. */
  ghost predicate Calls(flows: seq<Flow>, v: Body, name: string) {
    hide *;
    FindFlow(flows, name).Some? &&
        exists n ::
          n in v.nodes && n.live && n.kind.ExprN?
          && CallName(n.kind.value) == Some(name)
  }

  /** `c` is the body of a loop or of a match arm of a live node of `v`. */
  ghost predicate Inside(v: Body, c: Body) {
    exists n :: n in v.nodes && n.live && InsideKind(n.kind, c)
  }

  ghost predicate InsideKind(k: NodeKind, c: Body) {
    (k.ForEachN? && k.fe.body == c) || (k.MatchN? && BodyArm(c) in ArmBodies(k.m.arms))
  }

  ghost function ArmBodies(arms: seq<ArmIr>): set<ArmBodyIr> { set a | a in arms :: a.body }

  /** Closed under nesting and under calls, except to the flows in `but`. */
  ghost predicate ClosedBut(flows: seq<Flow>, s: set<Body>, but: seq<string>) {
    && (forall v, c | v in s && Inside(v, c) :: c in s)
    && (forall v, name | v in s && Calls(flows, v, name) && name !in but :: FindFlow(flows, name).value.body in s)
  }

  lemma ClosedUnion(flows: seq<Flow>, s: set<Body>, t: set<Body>, but: seq<string>)
    requires ClosedBut(flows, s, but) && ClosedBut(flows, t, but)
    ensures ClosedBut(flows, s + t, but)
  {
  }

  lemma {:induction false} NodesVisited(flows: seq<Flow>, nodes: seq<Node>, visiting: seq<string>)
    ensures ClosedBut(flows, WalkNodes(flows, nodes, visiting), visiting)
    ensures forall n | n in nodes && n.live :: WalkKind(flows, n.kind, visiting) <= WalkNodes(flows, nodes, visiting)
    decreases Unvisited(flows, visiting), nodes, 1
  {
    if nodes != [] {
      assert nodes[0].kind < nodes[0];
      NodesVisited(flows, nodes[1..], visiting);
      KindVisited(flows, nodes[0].kind, visiting);
      if nodes[0].live {
        ClosedUnion(flows, WalkKind(flows, nodes[0].kind, visiting), WalkNodes(flows, nodes[1..], visiting), visiting);
      }
    }
  }

  lemma {:induction false} KindVisited(flows: seq<Flow>, k: NodeKind, visiting: seq<string>)
    ensures hide *; ClosedBut(flows, WalkKind(flows, k, visiting), visiting)
    ensures forall c | InsideKind(k, c) :: c in WalkKind(flows, k, visiting)
    ensures k.ExprN? && CallName(k.value).Some? && FindFlow(flows, CallName(k.value).value).Some?
            && CallName(k.value).value !in visiting ==>
              FindFlow(flows, CallName(k.value).value).value.body in WalkKind(flows, k, visiting)
    decreases Unvisited(flows, visiting), k, 0
  {
    match k {
      case ExprN(e) =>
        var name := CallName(e);
        if name.Some? && name.value !in visiting && FindFlow(flows, name.value).Some? {
          Entered(flows, visiting, name.value);
          WalkClosed(flows, FindFlow(flows, name.value).value.body, visiting + [name.value]);
        }
      case MatchN(m) => ArmsVisited(flows, m.arms, visiting);
      case ForEachN(fe) => WalkClosed(flows, fe.body, visiting);
      case _ =>
    }
  }

  lemma {:induction false} ArmsVisited(flows: seq<Flow>, arms: seq<ArmIr>, visiting: seq<string>)
    ensures ClosedBut(flows, WalkArms(flows, arms, visiting), visiting)
    ensures forall c | BodyArm(c) in ArmBodies(arms) :: c in WalkArms(flows, arms, visiting)
    decreases Unvisited(flows, visiting), arms, 1
  {
    if arms != [] {
      assert arms[0].body < arms[0];
      ArmsVisited(flows, arms[1..], visiting);
      assert ArmBodies(arms) == {arms[0].body} + ArmBodies(arms[1..]);
      if arms[0].body.BodyArm? {
        WalkClosed(flows, arms[0].body.b, visiting);
        ClosedUnion(flows, Walk(flows, arms[0].body.b, visiting), WalkArms(flows, arms[1..], visiting), visiting);
      }
    }
  }

  /** Whatever a visited body can go on to run is visited too, or is on the stack. */
  lemma {:induction false} WalkClosed(flows: seq<Flow>, b: Body, visiting: seq<string>)
    ensures ClosedBut(flows, Walk(flows, b, visiting), visiting) && b in Walk(flows, b, visiting)
    decreases Unvisited(flows, visiting), b, 2
  {
    NodesVisited(flows, b.nodes, visiting);
    forall n | n in b.nodes && n.live
      ensures forall c | InsideKind(n.kind, c) :: c in Walk(flows, b, visiting)
      ensures n.kind.ExprN? && CallName(n.kind.value).Some? && FindFlow(flows, CallName(n.kind.value).value).Some?
              && CallName(n.kind.value).value !in visiting ==>
                FindFlow(flows, CallName(n.kind.value).value).value.body in Walk(flows, b, visiting)
    {
      KindVisited(flows, n.kind, visiting);
    }
  }

  /** The walk visits no body that cannot be run. */
  lemma {:induction false} WalkInClosed(flows: seq<Flow>, b: Body, visiting: seq<string>, s: set<Body>)
    requires ClosedBut(flows, s, []) && b in s
    ensures Walk(flows, b, visiting) <= s
    decreases Unvisited(flows, visiting), b, 2
  {
    forall n | n in b.nodes && n.live ensures WalkKind(flows, n.kind, visiting) <= s {
      match n.kind {
        case ExprN(e) =>
          var name := CallName(e);
          if name.Some? && name.value !in visiting && FindFlow(flows, name.value).Some? {
            Entered(flows, visiting, name.value);
            assert Calls(flows, b, name.value);
            WalkInClosed(flows, FindFlow(flows, name.value).value.body, visiting + [name.value], s);
          }
        case MatchN(m) =>
          forall c | BodyArm(c) in ArmBodies(m.arms) ensures c in s { assert InsideKind(n.kind, c); }
          ArmsInClosed(flows, m.arms, visiting, s);
        case ForEachN(fe) =>
          assert InsideKind(n.kind, fe.body);
          WalkInClosed(flows, fe.body, visiting, s);
        case _ =>
      }
    }
    NodesIn(flows, b.nodes, visiting, s);
  }

  lemma {:induction false} ArmsInClosed(flows: seq<Flow>, arms: seq<ArmIr>, visiting: seq<string>, s: set<Body>)
    requires ClosedBut(flows, s, []) && forall c | BodyArm(c) in ArmBodies(arms) :: c in s
    ensures WalkArms(flows, arms, visiting) <= s
    decreases Unvisited(flows, visiting), arms, 1
  {
    if arms != [] {
      assert arms[0].body < arms[0];
      assert ArmBodies(arms) == {arms[0].body} + ArmBodies(arms[1..]);
      if arms[0].body.BodyArm? { WalkInClosed(flows, arms[0].body.b, visiting, s); }
      ArmsInClosed(flows, arms[1..], visiting, s);
    }
  }

  lemma {:induction false} NodesIn(flows: seq<Flow>, nodes: seq<Node>, visiting: seq<string>, s: set<Body>)
    requires forall n | n in nodes && n.live :: WalkKind(flows, n.kind, visiting) <= s
    ensures WalkNodes(flows, nodes, visiting) <= s
  {
    if nodes != [] { NodesIn(flows, nodes[1..], visiting, s); }
  }

  /** The walk from an empty stack visits exactly the bodies that a run from `b` can reach: the
      least set that holds `b` and is closed under nesting and calls. */
  lemma WalkIsReachable(flows: seq<Flow>, b: Body)
    ensures ClosedBut(flows, Walk(flows, b, []), []) && b in Walk(flows, b, [])
    ensures forall s: set<Body> | ClosedBut(flows, s, []) && b in s :: Walk(flows, b, []) <= s
  {
    hide *;
    WalkClosed(flows, b, []);
    forall s: set<Body> | ClosedBut(flows, s, []) && b in s ensures Walk(flows, b, []) <= s {
      WalkInClosed(flows, b, [], s);
    }
  }

  // ---------- effect signatures ----------

  datatype Effects = Effects(endpoints: set<string>, mutates: bool)

  const NO_EFFECTS := Effects({}, false)

  function Both(a: Effects, b: Effects): Effects {
    Effects(a.endpoints + b.endpoints, a.mutates || b.mutates)
  }

  predicate IsSafeMethod(m: string) { m == "GET" || m == "HEAD" }

  function BodyEffects(flows: seq<Flow>, b: Body, visiting: seq<string>): Effects
    decreases Unvisited(flows, visiting), b, 2
  {
    hide *;
    NodesEffects(flows, b.nodes, |b.nodes|, visiting)
  }

  function NodesEffects(flows: seq<Flow>, nodes: seq<Node>, k: nat, visiting: seq<string>): Effects
    requires k <= |nodes|
    decreases Unvisited(flows, visiting), nodes, 1, k
  {
    hide *;
    if k == 0 then NO_EFFECTS
    else
      var n := nodes[k - 1];
      assert n.kind < n;
      Both(NodesEffects(flows, nodes, k - 1, visiting),
           if n.live then KindEffects(flows, n.kind, visiting) else NO_EFFECTS)
  }

  function KindEffects(flows: seq<Flow>, k: NodeKind, visiting: seq<string>): Effects
    decreases Unvisited(flows, visiting), k, 0, 0
  {
    hide *;
    match k
    case FetchN(f) => Effects({f.endpoint}, !IsSafeMethod(f.httpMethod))
    case ExprN(e) =>
      var name := CallName(e);
      if name.None? || name.value in visiting || FindFlow(flows, name.value).None? then NO_EFFECTS
      else
        Entered(flows, visiting, name.value);
        BodyEffects(flows, FindFlow(flows, name.value).value.body, visiting + [name.value])
    case MatchN(m) => ArmsEffects(flows, m.arms, |m.arms|, visiting)
    case ForEachN(fe) => BodyEffects(flows, fe.body, visiting)
    case _ => NO_EFFECTS
  }

  function ArmsEffects(flows: seq<Flow>, arms: seq<ArmIr>, k: nat, visiting: seq<string>): Effects
    requires k <= |arms|
    decreases Unvisited(flows, visiting), arms, 1, k
  {
    hide *;
    if k == 0 then NO_EFFECTS
    else
      var a := arms[k - 1];
      assert a.body < a;
      Both(ArmsEffects(flows, arms, k - 1, visiting),
           if a.body.BodyArm? then BodyEffects(flows, a.body.b, visiting) else NO_EFFECTS)
  }

  function RequestEffects(b: Body, flows: seq<Flow>): Effects {
    BodyEffects(flows, b, [])
  }

  /** A live fetch of `v`. */
  ghost predicate Fetches(v: Body, f: FetchIr) {
    exists n :: n in v.nodes && n.live && n.kind == FetchN(f)
  }

  /** One thing that a signature can say: that an endpoint is contacted, or (`None`) that state
      may be changed. */
  type Claim = Option<string>

  predicate Says(e: Effects, x: Claim) {
    if x.Some? then x.value in e.endpoints else e.mutates
  }

  predicate Does(f: FetchIr, x: Claim) {
    if x.Some? then f.endpoint == x.value else !IsSafeMethod(f.httpMethod)
  }

  /** Some live fetch of a body in `s` makes the claim true. */
  ghost predicate Performed(s: set<Body>, x: Claim) {
    exists v, f :: v in s && Fetches(v, f) && Does(f, x)
  }

  ghost predicate NodeSays(flows: seq<Flow>, n: Node, visiting: seq<string>, x: Claim) {
    n.live && Says(KindEffects(flows, n.kind, visiting), x)
  }

  lemma {:induction false} NodesSay(flows: seq<Flow>, nodes: seq<Node>, k: nat, visiting: seq<string>, x: Claim)
    requires hide *; k <= |nodes|
    ensures Says(NodesEffects(flows, nodes, k, visiting), x) <==>
            exists j: nat ::
              j < k
              && NodeSays(flows, nodes[j], visiting, x)
  {
    hide KindEffects;
    if k > 0 {
      NodesSay(flows, nodes, k - 1, visiting, x);
      if exists j: nat :: j < k && NodeSays(flows, nodes[j], visiting, x) {
        var j: nat :| j < k && NodeSays(flows, nodes[j], visiting, x);
      }
      if NodeSays(flows, nodes[k - 1], visiting, x) { assert k - 1 < k; }
    }
  }

  ghost predicate ArmSays(flows: seq<Flow>, a: ArmIr, visiting: seq<string>, x: Claim) {
    hide *;
    a.body.BodyArm? && Says(BodyEffects(flows, a.body.b, visiting), x)
  }

  lemma {:induction false} ArmsSay(flows: seq<Flow>, arms: seq<ArmIr>, k: nat, visiting: seq<string>, x: Claim)
    requires hide *; k <= |arms|
    ensures Says(ArmsEffects(flows, arms, k, visiting), x) <==>
            exists j: nat ::
              j < k
              && ArmSays(flows, arms[j], visiting, x)
  {
    hide BodyEffects;
    if k > 0 {
      ArmsSay(flows, arms, k - 1, visiting, x);
      if ArmSays(flows, arms[k - 1], visiting, x) { assert k - 1 < k; }
    }
  }

  lemma {:induction false} InWalkNodes(flows: seq<Flow>, nodes: seq<Node>, visiting: seq<string>, v: Body)
    ensures v in WalkNodes(flows, nodes, visiting) <==>
            exists n ::
              n in nodes && n.live
              && v in WalkKind(flows, n.kind, visiting)
  {
    hide WalkKind;
    if nodes != [] {
      InWalkNodes(flows, nodes[1..], visiting, v);
      assert nodes[0] in nodes;
      assert forall n :: n in nodes <==> n == nodes[0] || n in nodes[1..];
    }
  }

  lemma {:induction false} InWalkArms(flows: seq<Flow>, arms: seq<ArmIr>, visiting: seq<string>, v: Body)
    ensures hide *; v in WalkArms(flows, arms, visiting) <==>
            exists a ::
              a in arms && a.body.BodyArm?
              && v in Walk(flows, a.body.b, visiting)
  {
    hide Walk;
    if arms != [] {
      InWalkArms(flows, arms[1..], visiting, v);
      assert arms[0] in arms;
      assert forall a :: a in arms <==> a == arms[0] || a in arms[1..];
    }
  }

  /** A signature says exactly what the live fetches of the visited bodies do. */
  lemma {:induction false} EffectsExact(flows: seq<Flow>, b: Body, visiting: seq<string>, x: Claim)
    ensures Says(BodyEffects(flows, b, visiting), x) <==> Performed(Walk(flows, b, visiting), x)
    decreases Unvisited(flows, visiting), b, 2
  {
    hide KindEffects, WalkKind;
    NodesSay(flows, b.nodes, |b.nodes|, visiting, x);
    forall n | n in b.nodes && n.live
      ensures Says(KindEffects(flows, n.kind, visiting), x) <==>
              (n.kind.FetchN? && Does(n.kind.f, x)) || Performed(WalkKind(flows, n.kind, visiting), x)
    {
      KindExact(flows, n.kind, visiting, x);
    }
    if Says(BodyEffects(flows, b, visiting), x) {
      var j: nat :| j < |b.nodes| && NodeSays(flows, b.nodes[j], visiting, x);
      var n := b.nodes[j];
      assert n in b.nodes;
      if n.kind.FetchN? && Does(n.kind.f, x) {
        assert Fetches(b, n.kind.f);
      } else {
        var v, f :| v in WalkKind(flows, n.kind, visiting) && Fetches(v, f) && Does(f, x);
        InWalkNodes(flows, b.nodes, visiting, v);
      }
    }
    if Performed(Walk(flows, b, visiting), x) {
      var v, f :| v in Walk(flows, b, visiting) && Fetches(v, f) && Does(f, x);
      InWalkNodes(flows, b.nodes, visiting, v);
      if v in WalkNodes(flows, b.nodes, visiting) {
        var n :| n in b.nodes && n.live && v in WalkKind(flows, n.kind, visiting);
        var j: nat :| j < |b.nodes| && b.nodes[j] == n;
        assert NodeSays(flows, b.nodes[j], visiting, x);
      } else {
        var n :| n in b.nodes && n.live && n.kind == FetchN(f);
        var j: nat :| j < |b.nodes| && b.nodes[j] == n;
        assert NodeSays(flows, b.nodes[j], visiting, x);
      }
    }
  }

  lemma {:induction false} KindExact(flows: seq<Flow>, k: NodeKind, visiting: seq<string>, x: Claim)
    ensures hide *; Says(KindEffects(flows, k, visiting), x) <==>
            (k.FetchN? && Does(k.f, x)) || Performed(WalkKind(flows, k, visiting), x)
    decreases Unvisited(flows, visiting), k, 0
  {
    hide BodyEffects, Walk;
    match k {
      case ExprN(e) =>
        var name := CallName(e);
        if name.Some? && name.value !in visiting && FindFlow(flows, name.value).Some? {
          Entered(flows, visiting, name.value);
          EffectsExact(flows, FindFlow(flows, name.value).value.body, visiting + [name.value], x);
        }
      case MatchN(m) => ArmsExact(flows, m.arms, visiting, x);
      case ForEachN(fe) => EffectsExact(flows, fe.body, visiting, x);
      case _ =>
    }
  }

  lemma {:induction false} ArmsExact(flows: seq<Flow>, arms: seq<ArmIr>, visiting: seq<string>, x: Claim)
    ensures hide *;
            Says(ArmsEffects(flows, arms, |arms|, visiting), x) <==> Performed(WalkArms(flows, arms, visiting), x)
    decreases Unvisited(flows, visiting), arms, 1
  {
    hide BodyEffects, Walk;
    ArmsSay(flows, arms, |arms|, visiting, x);
    forall a | a in arms && a.body.BodyArm?
      ensures Says(BodyEffects(flows, a.body.b, visiting), x) <==> Performed(Walk(flows, a.body.b, visiting), x)
    {
      assert a.body < a;
      EffectsExact(flows, a.body.b, visiting, x);
    }
    if Says(ArmsEffects(flows, arms, |arms|, visiting), x) {
      var j: nat :| j < |arms| && ArmSays(flows, arms[j], visiting, x);
      var v, f :| v in Walk(flows, arms[j].body.b, visiting) && Fetches(v, f) && Does(f, x);
      InWalkArms(flows, arms, visiting, v);
      assert arms[j] in arms;
    }
    if Performed(WalkArms(flows, arms, visiting), x) {
      var v, f :| v in WalkArms(flows, arms, visiting) && Fetches(v, f) && Does(f, x);
      InWalkArms(flows, arms, visiting, v);
      var a :| a in arms && a.body.BodyArm? && v in Walk(flows, a.body.b, visiting);
      var j: nat :| j < |arms| && arms[j] == a;
      assert ArmSays(flows, arms[j], visiting, x);
    }
  }
}
