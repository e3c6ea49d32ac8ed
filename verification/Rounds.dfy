/** A round of concurrent fetches: whatever the order of arrival, every fetch binds what it would
    bind alone, and at most the one mutation among them is observed. */
module Rounds {
  import opened Wrappers
  import opened Ast
  import opened Values
  import opened Evaluator
  import opened Frames
  import opened Ir
  import opened Exec
  import opened Quiet
  import opened FetchFrames
  import opened Readiness
  import opened Traces
  import opened ReferenceRun

  /** Quiet GETs, except for the one mutation `e` if there is one. */
  ghost predicate RoundOf(b: Body, ids: seq<NodeId>, e: Option<NodeId>) {
    forall i | i in ids ::
      IsFetch(b, i) && (e != Some(i) ==> b.nodes[i].kind.f.httpMethod == "GET" && QuietFetch(b.nodes[i].kind.f))
  }

  function One(w: World, b: Body, i: NodeId, env: Env, hist: seq<Request>): Fetched
    requires IsFetch(b, i)
  {
    hide FetchOne, Eval, ApplyPipeline;
    FetchOne(w, b.nodes[i].kind.f, env, hist)
  }

  /** What the launch has printed and mutated so far comes from `e` alone. */
  ghost predicate OnlyFrom(l: Launch, e: Option<NodeId>, seen: seq<NodeId>, r: Fetched) {
    if e.Some? && e.value in seen then
      l.before == r.before && l.after == r.after
      && MutationsOf(l.sent) == MutationsOf(if r.sent.Some? then [r.sent.value] else [])
    else l.before == [] && l.after == [] && MutationsOf(l.sent) == []
  }

  lemma MutationsSnoc(sent: seq<Sent>, s: Sent)
    ensures MutationsOf(sent + [s]) == MutationsOf(sent) + MutationsOf([s])
  {
    assert (sent + [s])[..|sent|] == sent;
    assert [s][..0] == [];
  }

  /** One more arrival: `e` counts, a quiet GET does not. */
  lemma LaunchExtends(l: Launch, m: Launch, e: Option<NodeId>, seen: seq<NodeId>, id: NodeId, r: Fetched, re: Fetched)
    requires OnlyFrom(l, e, seen, re) && id !in seen
    requires m.before == l.before + r.before && m.after == l.after + r.after
    requires m.sent == l.sent + (if r.sent.Some? then [r.sent.value] else [])
    requires e == Some(id) ==> r == re
    requires e != Some(id) ==>
               r.before == [] && r.after == [] && (r.sent.Some? ==> r.sent.value.req.httpMethod == "GET")
    ensures OnlyFrom(m, e, seen + [id], re)
  {
    if r.sent.Some? {
      MutationsSnoc(l.sent, r.sent.value);
      assert [r.sent.value][..0] == [];
    } else {
      assert m.sent == l.sent;
    }
  }

  /** What the mutation of a round fetches. */
  function Mutation(w: World, b: Body, e: Option<NodeId>, env: Env, hist: seq<Request>): Fetched {
    hide *;
    if e.Some? && IsFetch(b, e.value) then One(w, b, e.value, env, hist) else Fetched([], None, [], None)
  }

  /** A fetch in a round does not notice the requests that arrived before it. */
  lemma ArrivalUnnoticed(w: World, b: Body, ids: seq<NodeId>, e: Option<NodeId>, l: Launch, seen: seq<NodeId>,
      id: NodeId, env: Env, hist: seq<Request>)
    requires hide FetchOne, Eval, ApplyPipeline;
             RoundOf(b, ids, e) && id in ids && id !in seen && OnlyFrom(l, e, seen, Mutation(w, b, e, env, hist))
    ensures var r := One(w, b, id, env, hist + MutationsOf(l.sent));
            r == One(w, b, id, env, hist)
            && (e == Some(id) ==> r == Mutation(w, b, e, env, hist))
            && (e != Some(id) ==>
                  r.before == [] && r.after == [] && (r.sent.Some? ==> r.sent.value.req.httpMethod == "GET"))
  {
    hide Prepare, EvalPath, Eval, ApplyPipeline, Vars, FetchOne;
    if e == Some(id) {
      assert hist + MutationsOf(l.sent) == hist;
    } else {
      GetIgnoresHistory(w, b.nodes[id].kind.f, env, hist + MutationsOf(l.sent), hist);
      QuietFetchOne(w, b.nodes[id].kind.f, env, hist);
    }
  }

  lemma NothingLaunched(e: Option<NodeId>, r: Fetched)
    ensures OnlyFrom(Launch([], [], [], map[]), e, [], r)
  {
  }

  lemma {:induction false} LaunchFacts(w: World, b: Body, arrive: seq<NodeId>, k: nat, env: Env, hist: seq<Request>,
      e: Option<NodeId>)
    requires hide *; k <= |arrive| && Distinct(arrive) && RoundOf(b, arrive, e)
    ensures var l := LaunchTo(w, b, arrive, k, env, hist);
            && (forall i | i in arrive[..k] :: i in l.vals && IsFetch(b, i) && l.vals[i] == One(w, b, i, env, hist).val)
            && OnlyFrom(l, e, arrive[..k], Mutation(w, b, e, env, hist))
  {
    hide Prepare, Eval, ApplyPipeline, Vars, FetchOne, Mutation, OnlyFrom;
    if k == 0 {
      NothingLaunched(e, Mutation(w, b, e, env, hist));
    } else {
      LaunchFacts(w, b, arrive, k - 1, env, hist, e);
      var l, id := LaunchTo(w, b, arrive, k - 1, env, hist), arrive[k - 1];
      assert id in arrive && id !in arrive[..k - 1] && arrive[..k] == arrive[..k - 1] + [id];
      ArrivalUnnoticed(w, b, arrive, e, l, arrive[..k - 1], id, env, hist);
      var r := One(w, b, id, env, hist + MutationsOf(l.sent));
      var m := LaunchTo(w, b, arrive, k, env, hist);
      assert m.vals == l.vals[id := r.val];
      LaunchExtends(l, m, e, arrive[..k - 1], id, r, Mutation(w, b, e, env, hist));
    }
  }

  lemma {:induction false} ObservePrints(lines: seq<string>)
    ensures Observe(Prints(lines)) == seq(|lines|, i requires 0 <= i < |lines| => Line(lines[i]))
  {
    if lines != [] {
      var init := lines[..|lines| - 1];
      assert Prints(lines) == Prints(init) + [Print(lines[|lines| - 1])];
      ObservePrints(init);
      ObserveSnoc(Prints(init), Print(lines[|lines| - 1]));
    }
  }

  /** Launches with the same prints and the same mutations look alike. */
  lemma LaunchObserved(l: Launch, m: Launch)
    requires l.before == m.before && l.after == m.after && MutationsOf(l.sent) == MutationsOf(m.sent)
    ensures Observe(LaunchEvents(l)) == Observe(LaunchEvents(m))
  {
    LaunchShape(l);
    LaunchShape(m);
  }

  lemma LaunchShape(l: Launch)
    ensures Observe(LaunchEvents(l)) == Observe(Prints(l.before)) + Calls(MutationsOf(l.sent))
            + Observe(Prints(l.after))
  {
    var mid := if l.sent == [] then [] else [Round(l.sent)];
    ObserveAppend(Prints(l.before) + mid, Prints(l.after));
    ObserveAppend(Prints(l.before), mid);
    if l.sent != [] { assert mid == [] + [Round(l.sent)]; ObserveSnoc([], Round(l.sent)); }
    assert Observe(mid) == Calls(MutationsOf(l.sent));
  }

  lemma {:induction false} DistinctOnce(ids: seq<NodeId>, i: NodeId)
    requires Distinct(ids)
    ensures multiset(ids)[i] <= 1
  {
    if ids != [] {
      assert ids == [ids[0]] + ids[1..];
      DistinctOnce(ids[1..], i);
      if ids[0] == i { assert i !in ids[1..]; }
    }
  }

  lemma PermutationDistinct(ids: seq<NodeId>, arrive: seq<NodeId>)
    requires Distinct(ids) && multiset(arrive) == multiset(ids)
    ensures Distinct(arrive) && forall i :: i in arrive <==> i in ids
  {
    forall i ensures i in arrive <==> i in ids {
      assert i in arrive <==> i in multiset(arrive);
      assert i in ids <==> i in multiset(ids);
    }
    forall x: nat, y: nat | x < y < |arrive| ensures arrive[x] != arrive[y] {
      DistinctOnce(ids, arrive[x]);
      if arrive[x] == arrive[y] { CountsTwice(arrive, x, y); }
    }
  }

  lemma CountsTwice(ids: seq<NodeId>, x: nat, y: nat)
    requires x < y < |ids| && ids[x] == ids[y]
    ensures multiset(ids)[ids[x]] >= 2
  {
    assert ids == ids[..x] + [ids[x]] + ids[x + 1..y] + [ids[y]] + ids[y + 1..];
  }

  // ---------- a round against the reference run ----------

  /** Before the round: the ids are ready fetches, none of them done. */
  ghost predicate RoundReady(c: Setup, ids: seq<NodeId>, done: set<NodeId>) {
    Distinct(ids) && forall i | i in ids :: IsFetch(c.b, i) && DepsDone(c.b, i, done)
  }

  lemma SilentFetch(b: Body, i: nat)
    requires hide Vars, Uses; Sound(b) && IsFetch(b, i) && !b.nodes[i].effect
    ensures b.nodes[i].kind.f.httpMethod == "GET" && QuietFetch(b.nodes[i].kind.f)
  {
    hide Vars, KindVars, BodyVars, Uses, ScopedLeaks, SingleAssignment;
    assert QuietKind(b.nodes[i].kind);
  }

  /** The only mutation among ready fetches. */
  lemma OneMutation(c: Setup, s: nat, r: Run, done: set<NodeId>, q: nat, ids: seq<NodeId>) returns (e: Option<NodeId>)
    requires hide RunBody, RunOrder, RunWaves, RunNode, RoundStep, FetchOne, Eval, Vars, Uses;
             c.Valid() && c.Stops(s) && TraceInv(c, s, r, done, q) && RoundReady(c, ids, done)
    ensures RoundOf(c.b, ids, e)
    ensures e.Some? ==> e.value in ids
    ensures forall i | i in ids :: c.b.nodes[i].effect <==> e == Some(i)
  {
    hide RunBody, RunWaves, RunNode, RunLoop, RunMatch, RunTail, NodeStep, RoundStep, LaunchTo, FetchOne, Prepare,
      EvalPath, Eval, ApplyPipeline, Vars, KindVars, BodyVars, Uses, RunOrder, TraceInv, Setup.Stops, Sound;
    assert Sound(c.b);
    hide Setup.Valid;
    if exists i :: i in ids && c.b.nodes[i].effect {
      var i: nat :| i in ids && c.b.nodes[i].effect;
      e := Some(i);
      forall j | j in ids && j != i ensures !c.b.nodes[j].effect {
        if c.b.nodes[j].effect {
          NextEffect(c, s, r, done, q, i);
          NextEffect(c, s, r, done, q, j);
        }
      }
    } else {
      e := None;
    }
    forall j | j in ids && e != Some(j)
      ensures c.b.nodes[j].kind.f.httpMethod == "GET" && QuietFetch(c.b.nodes[j].kind.f)
    {
      assert !c.b.nodes[j].effect;
      SilentFetch(c.b, j);
    }
  }

  /** A ready fetch that the reference run reaches fetches the same thing there. */
  lemma FetchAgrees(c: Setup, s: nat, env: Env, done: set<NodeId>, i: nat, hist: seq<Request>)
    requires hide RunBody, RunOrder, RunWaves, RunNode, RoundStep, FetchOne, Eval, ApplyPipeline, Vars, Uses;
             c.Valid() && c.Stops(s) && EnvInv(c, s, env, done)
    requires IsFetch(c.b, i) && DepsDone(c.b, i, done) && i <= s
    requires c.b.nodes[i].effect ==> hist == HistAt(c, i)
    ensures var o := One(c.p.world, c.b, i, env, hist);
            c.At(i).ctl.Next?
            && c.At(i + 1) == (if o.val.None? then Run(c.At(i).env, c.At(i).evs + FetchEvents(o),
               Fail(!c.b.nodes[i].effect))
                               else Run(BindTo(c.At(i).env, c.b.nodes[i].binding, o.val.value),
                                   c.At(i).evs + FetchEvents(o), c.At(i).ctl))
  {
    hide RunNode, RunLoop, RunMatch, LaunchTo, FetchOne, Prepare, Eval, ApplyPipeline, Vars;
    NextBefore(c, s, i);
    AtStep(c, i);
    ReadsAgree(c, s, env, done, i);
    FetchFrame(c.p.world, c.b.nodes[i].kind.f, c.At(i).env, env, hist);
    if !c.b.nodes[i].effect { GetIgnoresHistory(c.p.world, c.b.nodes[i].kind.f, c.At(i).env, hist, HistAt(c, i)); }
    SingleRound(c.p, c.b, i, c.At(i), c.hist);
  }

  /** How a ready fetch relates to the reference run: it fails only where that stops or where no
      claim is made, and otherwise binds the same value. */
  ghost predicate Awaited(c: Setup, s: nat, i: nat, v: Option<Value>)
    requires s <= |c.b.nodes| && i < |c.b.nodes|
  {
    hide *;
    && (v.None? ==> if c.b.nodes[i].effect then i == s else !c.Good())
    && (v.Some? && i < s ==> c.At(i + 1).env == BindTo(c.At(i).env, c.b.nodes[i].binding, v.value))
  }

  /** Awaiting the handles: nodes completed by the reference run bind the same values. */
  lemma {:induction false} CollectTracks(c: Setup, s: nat, done: set<NodeId>, ids: seq<NodeId>, k: nat,
      vals: map<NodeId, Option<Value>>, r: Run)
    requires hide RunBody, RunOrder, RunWaves, RunNode, RoundStep, FetchOne, Eval, Vars, Uses;
             c.Valid() && c.Stops(s) && EnvInv(c, s, r.env, done) && RoundReady(c, ids, done) && k <= |ids|
             && r.ctl.Next?
    requires forall i | i in ids :: i in vals && Awaited(c, s, i, vals[i])
    ensures var t := Collect(c.b, ids, k, vals, r);
            && t.evs == r.evs
            && (|| (t.ctl == Fail(true) && !c.Good())
                || (t.ctl == Fail(false) && s in ids && c.b.nodes[s].effect && vals[s].None?)
                || (t.ctl == r.ctl && EnvInv(c, s, t.env, done + Ids(ids[..k]))
                   && forall i | i in ids[..k] :: vals[i].Some?))
  {
    hide RunBody, RunOrder, RunWaves, RunNode, RunLoop, RunMatch, RunTail, NodeStep, RoundStep, LaunchTo, FetchOne,
      Prepare, EvalPath, ApplyPipeline, KindVars, BodyVars, Uses, Setup.At, EvalFields, Eval, Vars, ReturnsLast,
      Ready, EnvInv;
    if k == 0 {
      assert done + Ids(ids[..0]) == done;
    } else {
      CollectTracks(c, s, done, ids, k - 1, vals, r);
      var t, i := Collect(c.b, ids, k - 1, vals, r), ids[k - 1];
      if t.ctl.Next? {
        assert i in ids && i !in ids[..k - 1];
        assert ids[..k] == ids[..k - 1] + [i];
        assert Awaited(c, s, i, vals[i]);
        assert done + Ids(ids[..k]) == done + Ids(ids[..k - 1]) + {i};
        if vals[i].Some? { BindTracks(c, s, t.env, done + Ids(ids[..k - 1]), i, vals[i].value); }
      }
    }
  }

  lemma BindTracks(c: Setup, s: nat, env: Env, done: set<NodeId>, i: nat, v: Value)
    requires hide RunBody, RunOrder, RunWaves, RunNode, RoundStep, FetchOne, Eval, Vars, Uses;
             c.Valid() && c.Stops(s) && EnvInv(c, s, env, done) && IsFetch(c.b, i) && i !in done
    requires Awaited(c, s, i, Some(v))
    ensures EnvInv(c, s, BindTo(env, c.b.nodes[i].binding, v), done + {i})
  {
    hide RunBody, RunWaves, RunNode, RunLoop, RunMatch, RunTail, NodeStep, RoundStep, LaunchTo, FetchOne, Prepare,
      EvalPath, Eval, ApplyPipeline, Vars, KindVars, BodyVars, Uses, RunOrder;
    EnvStep(c, s, env, done, i, BindTo(env, c.b.nodes[i].binding, v));
  }

  /** A fetch fails where the reference run stops, or where no claim is made. */
  lemma AwaitOne(c: Setup, s: nat, env: Env, done: set<NodeId>, ids: seq<NodeId>, i: nat, hist: seq<Request>)
    requires hide RunBody, RunOrder, RunWaves, RunNode, RoundStep, FetchOne, Eval, ApplyPipeline, Vars, Uses;
             c.Valid() && c.Stops(s) && EnvInv(c, s, env, done) && RoundReady(c, ids, done) && i in ids
    requires c.b.nodes[i].effect ==> i <= s && hist == HistAt(c, i)
    ensures Awaited(c, s, i, One(c.p.world, c.b, i, env, hist).val)
  {
    hide RunBody, RunWaves, RunNode, RunLoop, RunMatch, RunTail, NodeStep, RoundStep, LaunchTo, Prepare, EvalPath,
      Eval, ApplyPipeline, Vars, KindVars, BodyVars, Uses, Ready, EnvInv, RunOrder, FetchOne;
    if !c.b.nodes[i].effect && c.Good() { SilentReached(c, s, i); }
    if i <= s { FetchAgrees(c, s, env, done, i, hist); }
    if i < s { NextBefore(c, s, i + 1); }
  }

  /** One round from a tracked state leads to a tracked state. */
  lemma RoundTracks(c: Setup, s: nat, r: Run, done: set<NodeId>, q: nat, ids: seq<NodeId>, arrive: seq<NodeId>)
    requires hide RunBody, RunOrder, RunWaves, RunNode, RoundStep, FetchOne, Eval, ApplyPipeline, Vars, Uses;
             c.Valid() && c.Stops(s) && EnvInv(c, s, r.env, done) && TraceInv(c, s, r, done, q)
    requires RoundReady(c, ids, done) && multiset(arrive) == multiset(ids)
    ensures Tracks(c, s, RoundStep(c.p, c.b, ids, arrive, r, c.hist), done + Ids(ids))
  {
    hide RunNode, RunLoop, RunMatch, LaunchTo, Prepare, Eval, ApplyPipeline, Vars, Setup.At, Ready, EnvInv,
      FetchOne, OnlyFrom, Mutation;
    var hist := c.hist + Mutations(r.evs);
    var e := OneMutation(c, s, r, done, q, ids);
    PermutationDistinct(ids, arrive);
    LaunchFacts(c.p.world, c.b, arrive, |arrive|, r.env, hist, e);
    assert arrive[..|arrive|] == arrive && ids[..|ids|] == ids;
    var l := LaunchTo(c.p.world, c.b, arrive, |arrive|, r.env, hist);
    var r0 := r.(evs := r.evs + LaunchEvents(l));
    if e.Some? { NextEffect(c, s, r, done, q, e.value); }
    forall i | i in ids ensures i in l.vals && Awaited(c, s, i, l.vals[i]) {
      AwaitOne(c, s, r.env, done, ids, i, hist);
    }
    LaunchSeen(c, s, r, done, e, l, arrive, hist);
    CollectTracks(c, s, done, ids, |ids|, l.vals, r0);
    RoundEnds(c, s, r, done, q, ids, e, l.vals, r0, Collect(c.b, ids, |ids|, l.vals, r0));
  }

  /** What the launch shows is what the reference run shows at `e`. */
  lemma LaunchSeen(c: Setup, s: nat, r: Run, done: set<NodeId>, e: Option<NodeId>, l: Launch, seen: seq<NodeId>,
      hist: seq<Request>)
    requires hide RunBody, RunOrder, RunWaves, RunNode, RoundStep, FetchOne, Eval, ApplyPipeline, Vars, Uses;
             c.Valid() && c.Stops(s) && EnvInv(c, s, r.env, done) && hist == c.hist + Mutations(r.evs)
    requires e.Some?
             ==> IsFetch(c.b, e.value) && DepsDone(c.b, e.value, done) && e.value <= s
                 && hist == HistAt(c, e.value)
    requires e.Some? ==> Observe(r.evs) == Observe(c.At(e.value).evs)
    requires e.Some? ==> e.value in l.vals && l.vals[e.value] == One(c.p.world, c.b, e.value, r.env, hist).val
    requires OnlyFrom(l, e, seen, Mutation(c.p.world, c.b, e, r.env, hist)) && (e.Some? ==> e.value in seen)
    ensures Observe(r.evs + LaunchEvents(l)) == Observe(if e.Some? then c.At(e.value + 1).evs else r.evs)
    ensures e.Some?
            ==> c.At(e.value + 1).ctl
                == if l.vals[e.value].Some? then c.At(e.value).ctl else Fail(!c.b.nodes[e.value].effect)
  {
    hide RunBody, RunOrder, RunWaves, RunNode, RunLoop, RunMatch, RunTail, NodeStep, RoundStep, LaunchTo, Prepare,
      EvalPath, ApplyPipeline, Vars, KindVars, Uses, Eval, EvalCall, BodyVars, Ready, EnvInv, FetchOne;
    ObserveAppend(r.evs, LaunchEvents(l));
    if e.Some? {
      FetchAgrees(c, s, r.env, done, e.value, hist);
      var o := One(c.p.world, c.b, e.value, r.env, hist);
      LaunchObserved(l, Launch(o.before, if o.sent.Some? then [o.sent.value] else [], o.after, map[]));
      ObserveAppend(c.At(e.value).evs, FetchEvents(o));
    } else {
      LaunchObserved(l, Launch([], [], [], map[]));
      assert LaunchEvents(Launch([], [], [], map[])) == [];
    }
  }

  lemma RoundEnds(
    c: Setup, s: nat, r: Run, done: set<NodeId>, q: nat, ids: seq<NodeId>, e: Option<NodeId>,
    vals: map<NodeId, Option<Value>>, r0: Run, t: Run)
    requires hide RunBody, RunOrder, RunWaves, RunNode, RoundStep, FetchOne, Eval, Vars;
             c.Stops(s) && TraceInv(c, s, r, done, q)
    requires forall i | i in ids :: i < |c.b.nodes| && i in vals && (c.b.nodes[i].effect <==> e == Some(i))
    requires e.Some? ==>
               && e.value in ids && q <= e.value <= s && (forall j: nat | q <= j < e.value :: !c.b.nodes[j].effect)
               && r.ctl == c.At(e.value).ctl
               && c.At(e.value + 1).ctl
                  == (if vals[e.value].Some? then c.At(e.value).ctl else Fail(!c.b.nodes[e.value].effect))
    requires r0.ctl == r.ctl && t.evs == r0.evs
    requires Observe(r0.evs) == Observe(if e.Some? then c.At(e.value + 1).evs else r.evs)
    requires || (t.ctl == Fail(true) && !c.Good())
             || (t.ctl == Fail(false) && s in ids && c.b.nodes[s].effect && vals[s].None?)
             || (t.ctl == r.ctl && EnvInv(c, s, t.env, done + Ids(ids)) && forall i | i in ids :: vals[i].Some?)
    ensures Tracks(c, s, t, done + Ids(ids))
  {
    hide RunBody, RunWaves, RunNode, RunLoop, RunMatch, RunTail, NodeStep, RoundStep, LaunchTo, FetchOne, Prepare,
      EvalPath, Eval, ApplyPipeline, Vars, EnvInv, RunOrder, Observe;
    if t.ctl == Fail(true) {
    } else if t.ctl == Fail(false) {
      assert Stopped(c, s, t);
    } else {
      var p := if e.Some? then e.value + 1 else q;
      EffectsDone(c.b, done, q, ids, e, p);
      assert TraceInv(c, s, t, done + Ids(ids), p);
    }
  }

  lemma EffectsDone(b: Body, done: set<NodeId>, q: nat, ids: seq<NodeId>, e: Option<NodeId>, p: nat)
    requires forall j: nat | j < |b.nodes| && b.nodes[j].effect :: j in done <==> j < q
    requires forall i | i in ids :: i < |b.nodes| && (b.nodes[i].effect <==> e == Some(i))
    requires if e.Some? then e.value in ids && q <= e.value && p == e.value + 1
             && (forall j: nat | q <= j < e.value && j < |b.nodes| :: !b.nodes[j].effect) else p == q
    ensures forall j: nat | j < |b.nodes| && b.nodes[j].effect :: j in done + Ids(ids) <==> j < p
  {
  }
}
