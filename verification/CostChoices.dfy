/** What the cost report means: every number in it is the largest that some choice of arms, and of one member
    for each wave, adds up to. */
module CostChoices {
  import opened Wrappers
  import opened Ast
  import opened Ir
  import opened Exec
  import opened Costs

  /** The body that a call runs, unless it is running already. */
  function Entering(flows: seq<Flow>, e: Expr, visiting: seq<string>): (r: Option<Flow>)
    ensures r.Some? ==> r.value.name !in visiting && FindFlow(flows, r.value.name).Some?
  {
    hide *;
    if e.Call? && e.callee.Ident? && e.callee.name !in visiting then FindFlow(flows, e.callee.name) else None
  }

  // ---------- requests: every live node, one arm of each match ----------

  ghost predicate BodySends(flows: seq<Flow>, b: Body, visiting: seq<string>, r: nat)
    decreases Unvisited(flows, visiting), b, 3, 0
  {
    hide *;
    NodesSend(flows, b, |b.nodes|, visiting, r)
  }

  ghost predicate NodesSend(flows: seq<Flow>, b: Body, k: nat, visiting: seq<string>, r: nat)
    requires k <= |b.nodes|
    decreases Unvisited(flows, visiting), b, 2, k
  {
    hide *;
    if k == 0 then r == 0
    else
      var i: nat := k - 1;
      exists n: nat | n <= r :: NodeSends(flows, b, i, visiting, n) && NodesSend(flows, b, i, visiting, r - n)
  }

  ghost predicate NodeSends(flows: seq<Flow>, b: Body, i: nat, visiting: seq<string>, r: nat)
    requires i < |b.nodes|
    decreases Unvisited(flows, visiting), b, 1, 0
  {
    hide *;
    if b.nodes[i].live then KindSends(flows, b.nodes[i].kind, visiting, r) else r == 0
  }

  ghost predicate KindSends(flows: seq<Flow>, k: NodeKind, visiting: seq<string>, r: nat)
    decreases Unvisited(flows, visiting), k, 0, 0
  {
    hide *;
    match k
    case FetchN(_) => r == 1
    case ExprN(e) =>
      var flow := Entering(flows, e, visiting);
      if flow.None? then r == 0
      else Entered(flows, visiting, flow.value.name); BodySends(flows, flow.value.body, visiting + [flow.value.name], r)
    case MatchN(m) =>
      if m.arms == [] then r == 0 else exists i: nat | i < |m.arms| :: ArmSends(flows, m.arms[i], visiting, r)
    case ForEachN(fe) => BodySends(flows, fe.body, visiting, r)
    case _ => r == 0
  }

  ghost predicate ArmSends(flows: seq<Flow>, arm: ArmIr, visiting: seq<string>, r: nat)
    decreases Unvisited(flows, visiting), arm, 0, 0
  {
    hide *;
    match arm.body
    case BodyArm(b) => assert arm.body < arm; BodySends(flows, b, visiting, r)
    case ValueArm(_) => r == 0
    case RetryArm(_) => r == 5
  }

  lemma {:induction false} MostRequests(flows: seq<Flow>, b: Body, visiting: seq<string>)
    ensures hide *; BodySends(flows, b, visiting, BodyCost(flows, b, visiting).requests)
    ensures forall r: nat :: BodySends(flows, b, visiting, r) ==> r <= BodyCost(flows, b, visiting).requests
    decreases Unvisited(flows, visiting), b, 3, 0
  {
    MostOfNodes(flows, b, |b.nodes|, visiting);
  }

  lemma {:induction false} MostOfNodes(flows: seq<Flow>, b: Body, k: nat, visiting: seq<string>)
    requires hide *; k <= |b.nodes|
    ensures NodesSend(flows, b, k, visiting, NodesCost(flows, b, k, visiting).requests)
    ensures forall r: nat :: NodesSend(flows, b, k, visiting, r) ==> r <= NodesCost(flows, b, k, visiting).requests
    decreases Unvisited(flows, visiting), b, 2, k
  {
    hide KindSends, KindCost;
    if k > 0 {
      var i: nat := k - 1;
      MostOfNodes(flows, b, i, visiting);
      if b.nodes[i].live { MostOfKind(flows, b.nodes[i].kind, visiting); }
      var c, n := NodesCost(flows, b, i, visiting).requests, NodeCost(flows, b, i, visiting).requests;
      assert NodesCost(flows, b, k, visiting).requests == c + n;
      assert NodeSends(flows, b, i, visiting, n) && NodesSend(flows, b, i, visiting, c + n - n);
      forall r: nat | NodesSend(flows, b, k, visiting, r) ensures r <= c + n {
        var m := LastSends(flows, b, k, visiting, r);
      }
    }
  }

  lemma LastSends(flows: seq<Flow>, b: Body, k: nat, visiting: seq<string>, r: nat) returns (n: nat)
    requires hide *; 0 < k <= |b.nodes| && NodesSend(flows, b, k, visiting, r)
    ensures n <= r && NodeSends(flows, b, k - 1, visiting, n) && NodesSend(flows, b, k - 1, visiting, r - n)
  {
    var i: nat := k - 1;
    n :| n <= r && NodeSends(flows, b, i, visiting, n) && NodesSend(flows, b, i, visiting, r - n);
  }

  lemma {:induction false} MostOfKind(flows: seq<Flow>, k: NodeKind, visiting: seq<string>)
    ensures hide *; KindSends(flows, k, visiting, KindCost(flows, k, visiting).requests)
    ensures forall r: nat :: KindSends(flows, k, visiting, r) ==> r <= KindCost(flows, k, visiting).requests
    decreases Unvisited(flows, visiting), k, 0, 0
  {
    hide BodySends, BodyCost, ArmSends, ArmCost, Unvisited;
    match k {
      case ExprN(e) =>
        var flow := Entering(flows, e, visiting);
        if flow.Some? {
          Entered(flows, visiting, flow.value.name);
          MostRequests(flows, flow.value.body, visiting + [flow.value.name]);
        }
      case MatchN(m) => MostOfArms(flows, m.arms, |m.arms|, visiting);
      case ForEachN(fe) => MostRequests(flows, fe.body, visiting);
      case _ =>
    }
  }

  lemma {:induction false} MostOfArms(flows: seq<Flow>, arms: seq<ArmIr>, k: nat, visiting: seq<string>)
    requires hide *; k <= |arms|
    ensures var most := ArmsCost(flows, arms, k, visiting).requests;
            && (if k == 0 then most == 0 else exists i: nat | i < k :: ArmSends(flows, arms[i], visiting, most))
            && forall i: nat, r: nat | i < k :: ArmSends(flows, arms[i], visiting, r) ==> r <= most
    decreases Unvisited(flows, visiting), arms, 1, k
  {
    hide BodySends, BodyCost;
    if k > 0 {
      MostOfArms(flows, arms, k - 1, visiting);
      var arm := arms[k - 1];
      assert arm.body < arm;
      if arm.body.BodyArm? { MostRequests(flows, arm.body.b, visiting); }
    }
  }

  // ---------- loops that repeat a request ----------

  ghost predicate BodyRepeats(flows: seq<Flow>, b: Body, visiting: seq<string>)
    decreases Unvisited(flows, visiting), b, 4, 0
  {
    hide *;
    exists i: nat | i < |b.nodes| :: b.nodes[i].live && KindRepeats(flows, b.nodes[i].kind, visiting)
  }

  ghost predicate KindRepeats(flows: seq<Flow>, k: NodeKind, visiting: seq<string>)
    decreases Unvisited(flows, visiting), k, 1, 0
  {
    hide *;
    match k
    case ExprN(e) =>
      var flow := Entering(flows, e, visiting);
      flow.Some?
      && (Entered(flows, visiting, flow.value.name);
          BodyRepeats(flows, flow.value.body, visiting + [flow.value.name]))
    case MatchN(m) =>
      exists a | a in m.arms :: a.body.BodyArm? && assert a.body < a; BodyRepeats(flows, a.body.b, visiting)
    case ForEachN(fe) => BodyRepeats(flows, fe.body, visiting) || Asks(flows, fe.body, visiting)
    case _ => false
  }

  /** Some choice of arms sends a request. */
  ghost predicate Asks(flows: seq<Flow>, b: Body, visiting: seq<string>)
    decreases Unvisited(flows, visiting), b, 3, 1
  {
    hide *;
    exists r: nat :: r > 0 && BodySends(flows, b, visiting, r)
  }

  lemma {:induction false} RepeatsExactly(flows: seq<Flow>, b: Body, visiting: seq<string>)
    ensures hide *; BodyCost(flows, b, visiting).unbounded <==> BodyRepeats(flows, b, visiting)
    decreases Unvisited(flows, visiting), b, 3, 0
  {
    hide KindRepeats, KindCost, WavesCost;
    RepeatsAmong(flows, b, |b.nodes|, visiting);
  }

  lemma {:induction false} RepeatsAmong(flows: seq<Flow>, b: Body, k: nat, visiting: seq<string>)
    requires hide *; k <= |b.nodes|
    ensures NodesCost(flows, b, k, visiting).unbounded
            <==> exists i: nat | i < k :: b.nodes[i].live && KindRepeats(flows, b.nodes[i].kind, visiting)
    decreases Unvisited(flows, visiting), b, 2, k
  {
    hide KindRepeats, KindCost;
    if k > 0 {
      RepeatsAmong(flows, b, k - 1, visiting);
      if b.nodes[k - 1].live { RepeatsInKind(flows, b.nodes[k - 1].kind, visiting); }
    }
  }

  lemma {:induction false} RepeatsInKind(flows: seq<Flow>, k: NodeKind, visiting: seq<string>)
    ensures hide *; KindCost(flows, k, visiting).unbounded <==> KindRepeats(flows, k, visiting)
    decreases Unvisited(flows, visiting), k, 0, 0
  {
    hide BodyRepeats, BodyCost, BodySends, ArmCost, Unvisited;
    match k {
      case ExprN(e) =>
        var flow := Entering(flows, e, visiting);
        if flow.Some? {
          Entered(flows, visiting, flow.value.name);
          RepeatsExactly(flows, flow.value.body, visiting + [flow.value.name]);
        }
      case MatchN(m) => RepeatsInArms(flows, m.arms, |m.arms|, visiting);
      case ForEachN(fe) =>
        RepeatsExactly(flows, fe.body, visiting);
        MostRequests(flows, fe.body, visiting);
      case _ =>
    }
  }

  lemma {:induction false} RepeatsInArms(flows: seq<Flow>, arms: seq<ArmIr>, k: nat, visiting: seq<string>)
    requires hide *; k <= |arms|
    ensures ArmsCost(flows, arms, k, visiting).unbounded
            <==> exists i: nat | i < k :: arms[i].body.BodyArm? && BodyRepeats(flows, arms[i].body.b, visiting)
    decreases Unvisited(flows, visiting), arms, 1, k
  {
    hide BodyRepeats, BodyCost;
    if k > 0 {
      RepeatsInArms(flows, arms, k - 1, visiting);
      var arm := arms[k - 1];
      assert arm.body < arm;
      if arm.body.BodyArm? { RepeatsExactly(flows, arm.body.b, visiting); }
    }
  }

  // ---------- round trips and waiting: wave after wave, one member of each ----------

  datatype Measure = Hops | Waiting

  /** Unknown once a part of it is. */
  function Plus(a: Option<nat>, b: Option<nat>): Option<nat> {
    hide *;
    if a == None || b == None then None else Some(a.value + b.value)
  }

  predicate AtMost(a: Option<nat>, b: Option<nat>) {
    hide *;
    b == None || (a.Some? && a.value <= b.value)
  }

  ghost predicate BodyTakes(what: Measure, flows: seq<Flow>, b: Body, visiting: seq<string>, t: Option<nat>)
    decreases Unvisited(flows, visiting), b, 5, 0
  {
    hide *;
    WavesTake(what, flows, b, |b.waves|, visiting, t)
  }

  ghost predicate WavesTake(what: Measure, flows: seq<Flow>, b: Body, k: nat, visiting: seq<string>, t: Option<nat>)
    requires k <= |b.waves|
    decreases Unvisited(flows, visiting), b, 4, k
  {
    hide *;
    if k == 0 then t == Some(0)
    else
      var i: nat := k - 1;
      exists c, w ::
        && t == Plus(c, w)
        && WavesTake(what, flows, b, i, visiting, c) && WaveTakes(what, flows, b, b.waves[i], visiting, w)
  }

  ghost predicate WaveTakes(what: Measure, flows: seq<Flow>, b: Body, wave: seq<NodeId>, visiting: seq<string>,
      t: Option<nat>)
    decreases Unvisited(flows, visiting), b, 3, 0
  {
    hide *;
    if wave == [] then t == Some(0)
    else exists j: nat | j < |wave| :: NodeTakes(what, flows, b, wave[j], visiting, t)
  }

  ghost predicate NodeTakes(what: Measure, flows: seq<Flow>, b: Body, i: nat, visiting: seq<string>, t: Option<nat>)
    decreases Unvisited(flows, visiting), b, 2, 0
  {
    hide *;
    if i < |b.nodes| && b.nodes[i].live then KindTakes(what, flows, b.nodes[i].kind, visiting, t) else t == Some(0)
  }

  /** A request is one round trip and waits for its endpoint's latency; a loop that repeats requests waits for
      nobody knows how long. */
  ghost predicate KindTakes(what: Measure, flows: seq<Flow>, k: NodeKind, visiting: seq<string>, t: Option<nat>)
    decreases Unvisited(flows, visiting), k, 1, 0
  {
    hide *;
    match k
    case FetchN(f) => t == if what.Hops? then Some(1) else f.latency
    case ExprN(e) =>
      var flow := Entering(flows, e, visiting);
      if flow.None? then t == Some(0)
      else
        Entered(flows, visiting, flow.value.name);
        BodyTakes(what, flows, flow.value.body, visiting + [flow.value.name], t)
    case MatchN(m) =>
      if m.arms == [] then t == Some(0)
      else exists i: nat | i < |m.arms| :: ArmTakes(what, flows, m.arms[i], visiting, t)
    case ForEachN(fe) =>
      if what.Waiting? && (BodyRepeats(flows, fe.body, visiting) || Asks(flows, fe.body, visiting)) then t == None
      else BodyTakes(what, flows, fe.body, visiting, t)
    case _ => t == Some(0)
  }

  /** A retry asks five times, which the estimate of waiting leaves out. */
  ghost predicate ArmTakes(what: Measure, flows: seq<Flow>, arm: ArmIr, visiting: seq<string>, t: Option<nat>)
    decreases Unvisited(flows, visiting), arm, 0, 0
  {
    hide *;
    match arm.body
    case BodyArm(b) => assert arm.body < arm; BodyTakes(what, flows, b, visiting, t)
    case ValueArm(_) => t == Some(0)
    case RetryArm(_) => t == Some(if what.Hops? then 5 else 0)
  }

  function Reported(what: Measure, c: Cost): Option<nat> {
    hide *;
    if what.Hops? then Some(c.depth) else c.latency
  }

  lemma {:induction false} Longest(what: Measure, flows: seq<Flow>, b: Body, visiting: seq<string>)
    ensures hide *; var most := Reported(what, BodyCost(flows, b, visiting));
            && BodyTakes(what, flows, b, visiting, most)
            && forall t :: BodyTakes(what, flows, b, visiting, t) ==> AtMost(t, most)
    decreases Unvisited(flows, visiting), b, 5, 0
  {
    hide WaveTakes, NodesCost;
    LongestOfWaves(what, flows, b, |b.waves|, visiting);
  }

  lemma EitherLongest(what: Measure, a: Cost, b: Cost, c: Cost)
    requires hide *; c.depth == Max(a.depth, b.depth) && c.latency == LatMax(a.latency, b.latency)
    ensures Reported(what, c) == Reported(what, a) || Reported(what, c) == Reported(what, b)
    ensures forall t :: AtMost(t, Reported(what, a)) || AtMost(t, Reported(what, b)) ==> AtMost(t, Reported(what, c))
    ensures a == ZERO ==> Reported(what, c) == Reported(what, b)
  {
  }

  lemma LastWave(what: Measure, flows: seq<Flow>, b: Body, k: nat, visiting: seq<string>, t: Option<nat>)
      returns (c: Option<nat>, w: Option<nat>)
    requires hide *; 0 < k <= |b.waves| && WavesTake(what, flows, b, k, visiting, t)
    ensures t == Plus(c, w) && WavesTake(what, flows, b, k - 1, visiting, c)
    ensures WaveTakes(what, flows, b, b.waves[k - 1], visiting, w)
  {
    hide WaveTakes;
    var i: nat := k - 1;
    c, w :| t == Plus(c, w) && WavesTake(what, flows, b, i, visiting, c)
            && WaveTakes(what, flows, b, b.waves[i], visiting, w);
  }

  lemma {:induction false} LongestOfWaves(what: Measure, flows: seq<Flow>, b: Body, k: nat, visiting: seq<string>)
    requires hide *; k <= |b.waves|
    ensures var most := Reported(what, WavesCost(flows, b, k, visiting));
            && WavesTake(what, flows, b, k, visiting, most)
            && forall t :: WavesTake(what, flows, b, k, visiting, t) ==> AtMost(t, most)
    decreases Unvisited(flows, visiting), b, 4, k
  {
    hide WaveTakes, WaveCost;
    if k > 0 {
      var i: nat := k - 1;
      LongestOfWaves(what, flows, b, i, visiting);
      LongestWave(what, flows, b, b.waves[i], visiting);
      var c := Reported(what, WavesCost(flows, b, i, visiting));
      var w := Reported(what, WaveCost(flows, b, b.waves[i], |b.waves[i]|, visiting));
      assert Reported(what, WavesCost(flows, b, k, visiting)) == Plus(c, w);
      assert WavesTake(what, flows, b, i, visiting, c) && WaveTakes(what, flows, b, b.waves[i], visiting, w);
      forall t | WavesTake(what, flows, b, k, visiting, t) ensures AtMost(t, Plus(c, w)) {
        var d, x := LastWave(what, flows, b, k, visiting, t);
        assert AtMost(d, c) && AtMost(x, w);
      }
    }
  }

  lemma {:induction false} LongestWave(what: Measure, flows: seq<Flow>, b: Body, wave: seq<NodeId>,
      visiting: seq<string>)
    ensures hide *; var most := Reported(what, WaveCost(flows, b, wave, |wave|, visiting));
            && WaveTakes(what, flows, b, wave, visiting, most)
            && forall t :: WaveTakes(what, flows, b, wave, visiting, t) ==> AtMost(t, most)
    decreases Unvisited(flows, visiting), b, 3, |wave| + 1
  {
    hide NodeTakes, WaveCost;
    LongestOfWave(what, flows, b, wave, |wave|, visiting);
  }

  lemma {:induction false} LongestOfWave(what: Measure, flows: seq<Flow>, b: Body, wave: seq<NodeId>, k: nat,
      visiting: seq<string>)
    requires hide *; k <= |wave|
    ensures var most := Reported(what, WaveCost(flows, b, wave, k, visiting));
            && (if k == 0 then most == Some(0)
                else exists j: nat | j < k :: NodeTakes(what, flows, b, wave[j], visiting, most))
            && forall j: nat, t | j < k :: NodeTakes(what, flows, b, wave[j], visiting, t) ==> AtMost(t, most)
    decreases Unvisited(flows, visiting), b, 3, k
  {
    hide KindTakes, KindCost;
    if k > 0 {
      var i := wave[k - 1];
      LongestOfWave(what, flows, b, wave, k - 1, visiting);
      if i < |b.nodes| && b.nodes[i].live { LongestOfKind(what, flows, b.nodes[i].kind, visiting); }
      var n := Reported(what, NodeCost(flows, b, i, visiting));
      assert NodeTakes(what, flows, b, i, visiting, n);
      hide NodeTakes;
      EitherLongest(what, WaveCost(flows, b, wave, k - 1, visiting), NodeCost(flows, b, i, visiting),
                    WaveCost(flows, b, wave, k, visiting));
    }
  }

  lemma {:induction false} LongestOfKind(what: Measure, flows: seq<Flow>, k: NodeKind, visiting: seq<string>)
    ensures hide *; var most := Reported(what, KindCost(flows, k, visiting));
            && KindTakes(what, flows, k, visiting, most)
            && forall t :: KindTakes(what, flows, k, visiting, t) ==> AtMost(t, most)
    decreases Unvisited(flows, visiting), k, 1, 0
  {
    hide BodyTakes, BodyCost, ArmTakes, ArmCost, Unvisited, BodySends, BodyRepeats;
    match k {
      case ExprN(e) =>
        var flow := Entering(flows, e, visiting);
        if flow.Some? {
          Entered(flows, visiting, flow.value.name);
          Longest(what, flows, flow.value.body, visiting + [flow.value.name]);
        }
      case MatchN(m) => LongestOfArms(what, flows, m.arms, |m.arms|, visiting);
      case ForEachN(fe) =>
        Longest(what, flows, fe.body, visiting);
        RepeatsExactly(flows, fe.body, visiting);
        MostRequests(flows, fe.body, visiting);
      case _ =>
    }
  }

  lemma {:induction false} LongestOfArms(what: Measure, flows: seq<Flow>, arms: seq<ArmIr>, k: nat,
      visiting: seq<string>)
    requires hide *; k <= |arms|
    ensures var most := Reported(what, ArmsCost(flows, arms, k, visiting));
            && (if k == 0 then most == Some(0)
                else exists i: nat | i < k :: ArmTakes(what, flows, arms[i], visiting, most))
            && forall i: nat, t | i < k :: ArmTakes(what, flows, arms[i], visiting, t) ==> AtMost(t, most)
    decreases Unvisited(flows, visiting), arms, 1, k
  {
    hide BodyTakes, BodyCost;
    if k > 0 {
      LongestOfArms(what, flows, arms, k - 1, visiting);
      var arm := arms[k - 1];
      assert arm.body < arm;
      if arm.body.BodyArm? { Longest(what, flows, arm.body.b, visiting); }
      assert ArmTakes(what, flows, arm, visiting, Reported(what, ArmCost(flows, arm, visiting)));
      EitherLongest(what, ArmsCost(flows, arms, k - 1, visiting), ArmCost(flows, arm, visiting),
                    ArmsCost(flows, arms, k, visiting));
    }
  }

  // ---------- width: the fetches of one wave ----------

  ghost predicate BodyWide(flows: seq<Flow>, b: Body, visiting: seq<string>, w: nat)
    decreases Unvisited(flows, visiting), b, 3, 0
  {
    hide *;
    || w == 0
    || (exists k: nat | k < |b.waves| :: w == |FetchIds(b, b.waves[k])|)
    || exists i: nat | i < |b.nodes| :: b.nodes[i].live && KindWide(flows, b.nodes[i].kind, visiting, w)
  }

  ghost predicate KindWide(flows: seq<Flow>, k: NodeKind, visiting: seq<string>, w: nat)
    decreases Unvisited(flows, visiting), k, 0, 0
  {
    hide *;
    match k
    case ExprN(e) =>
      var flow := Entering(flows, e, visiting);
      flow.Some?
      && (Entered(flows, visiting, flow.value.name);
          BodyWide(flows, flow.value.body, visiting + [flow.value.name], w))
    case MatchN(m) => exists i: nat | i < |m.arms| :: ArmWide(flows, m.arms[i], visiting, w)
    case ForEachN(fe) => BodyWide(flows, fe.body, visiting, w)
    case _ => false
  }

  ghost predicate ArmWide(flows: seq<Flow>, arm: ArmIr, visiting: seq<string>, w: nat)
    decreases Unvisited(flows, visiting), arm, 0, 0
  {
    hide *;
    match arm.body
    case BodyArm(b) => assert arm.body < arm; BodyWide(flows, b, visiting, w)
    case ValueArm(_) => false
    case RetryArm(_) => w == 1
  }

  lemma {:induction false} Widest(flows: seq<Flow>, b: Body, visiting: seq<string>)
    ensures hide *; BodyWide(flows, b, visiting, BodyCost(flows, b, visiting).parallel)
    ensures forall w: nat :: BodyWide(flows, b, visiting, w) ==> w <= BodyCost(flows, b, visiting).parallel
    decreases Unvisited(flows, visiting), b, 3, 0
  {
    hide KindWide, KindCost;
    WidestOfNodes(flows, b, |b.nodes|, visiting);
    WidestOfWaves(flows, b, |b.waves|, visiting);
  }

  lemma {:induction false} FetchesCounted(flows: seq<Flow>, b: Body, wave: seq<NodeId>, k: nat, visiting: seq<string>)
    requires hide *; k <= |wave|
    ensures WaveCost(flows, b, wave, k, visiting).parallel == |FetchIds(b, wave[..k])|
    decreases k
  {
    hide NodeCost;
    if k > 0 {
      FetchesCounted(flows, b, wave, k - 1, visiting);
      assert wave[..k] == wave[..k - 1] + [wave[k - 1]];
      OneMoreFetch(b, wave[..k - 1], wave[k - 1]);
    }
  }

  lemma {:induction false} OneMoreFetch(b: Body, wave: seq<NodeId>, i: NodeId)
    ensures hide *; |FetchIds(b, wave + [i])| == |FetchIds(b, wave)| + if IsFetch(b, i) then 1 else 0
  {
    if wave == [] {
      assert [] + [i] == [i] && [i][1..] == [];
    } else {
      assert (wave + [i])[1..] == wave[1..] + [i];
      OneMoreFetch(b, wave[1..], i);
    }
  }

  lemma {:induction false} WidestOfWaves(flows: seq<Flow>, b: Body, k: nat, visiting: seq<string>)
    requires hide *; k <= |b.waves|
    ensures var most := WavesCost(flows, b, k, visiting).parallel;
            && (most == 0 || exists i: nat | i < k :: most == |FetchIds(b, b.waves[i])|)
            && forall i: nat | i < k :: |FetchIds(b, b.waves[i])| <= most
    decreases k
  {
    hide WaveCost;
    if k > 0 {
      WidestOfWaves(flows, b, k - 1, visiting);
      FetchesCounted(flows, b, b.waves[k - 1], |b.waves[k - 1]|, visiting);
      assert b.waves[k - 1][..|b.waves[k - 1]|] == b.waves[k - 1];
    }
  }

  lemma {:induction false} WidestOfNodes(flows: seq<Flow>, b: Body, k: nat, visiting: seq<string>)
    requires hide *; k <= |b.nodes|
    ensures var most := NodesCost(flows, b, k, visiting).parallel;
            && (most == 0
                || exists i: nat | i < k :: b.nodes[i].live && KindWide(flows, b.nodes[i].kind, visiting, most))
            && forall i: nat, w: nat | i < k ::
                 b.nodes[i].live && KindWide(flows, b.nodes[i].kind, visiting, w) ==> w <= most
    decreases Unvisited(flows, visiting), b, 2, k
  {
    hide KindWide, KindCost;
    if k > 0 {
      WidestOfNodes(flows, b, k - 1, visiting);
      if b.nodes[k - 1].live { WidestOfKind(flows, b.nodes[k - 1].kind, visiting); }
    }
  }

  lemma {:induction false} WidestOfKind(flows: seq<Flow>, k: NodeKind, visiting: seq<string>)
    ensures hide *; var most := KindCost(flows, k, visiting).parallel;
            && (most == 0 || KindWide(flows, k, visiting, most))
            && forall w: nat :: KindWide(flows, k, visiting, w) ==> w <= most
    decreases Unvisited(flows, visiting), k, 0, 0
  {
    hide BodyWide, BodyCost, ArmWide, ArmCost, Unvisited;
    match k {
      case ExprN(e) =>
        var flow := Entering(flows, e, visiting);
        if flow.Some? {
          Entered(flows, visiting, flow.value.name);
          Widest(flows, flow.value.body, visiting + [flow.value.name]);
        }
      case MatchN(m) => WidestOfArms(flows, m.arms, |m.arms|, visiting);
      case ForEachN(fe) => Widest(flows, fe.body, visiting);
      case _ =>
    }
  }

  lemma {:induction false} WidestOfArms(flows: seq<Flow>, arms: seq<ArmIr>, k: nat, visiting: seq<string>)
    requires hide *; k <= |arms|
    ensures var most := ArmsCost(flows, arms, k, visiting).parallel;
            && (most == 0 || exists i: nat | i < k :: ArmWide(flows, arms[i], visiting, most))
            && forall i: nat, w: nat | i < k :: ArmWide(flows, arms[i], visiting, w) ==> w <= most
    decreases Unvisited(flows, visiting), arms, 1, k
  {
    hide BodyWide, BodyCost;
    if k > 0 {
      WidestOfArms(flows, arms, k - 1, visiting);
      var arm := arms[k - 1];
      assert arm.body < arm;
      if arm.body.BodyArm? { Widest(flows, arm.body.b, visiting); }
    }
  }

  // ---------- the report ----------

  /** The report is exact: requests, width, round trips and waiting are each the largest that a choice gives, and
      one that is attained; it is unbounded exactly when a loop can repeat a request. */
  lemma ReportIsAttained(b: Body, flows: seq<Flow>)
    ensures hide *; var c := RequestCost(b, flows);
            && BodySends(flows, b, [], c.requests)
            && (forall r: nat :: BodySends(flows, b, [], r) ==> r <= c.requests)
            && BodyWide(flows, b, [], c.parallel)
            && (forall w: nat :: BodyWide(flows, b, [], w) ==> w <= c.parallel)
            && BodyTakes(Hops, flows, b, [], Some(c.depth))
            && (forall t :: BodyTakes(Hops, flows, b, [], t) ==> AtMost(t, Some(c.depth)))
            && BodyTakes(Waiting, flows, b, [], c.latency)
            && (forall t :: BodyTakes(Waiting, flows, b, [], t) ==> AtMost(t, c.latency))
            && (c.unbounded <==> BodyRepeats(flows, b, []))
  {
    MostRequests(flows, b, []);
    Widest(flows, b, []);
    Longest(Hops, flows, b, []);
    Longest(Waiting, flows, b, []);
    RepeatsExactly(flows, b, []);
  }
}
