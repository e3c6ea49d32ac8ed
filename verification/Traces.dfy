/** What an outside observer sees of a run: printed lines and every request that is not a GET. */
module Traces {
  import opened Wrappers
  import opened Ast
  import opened Evaluator
  import opened Ir
  import opened Exec
  import opened Quiet
  import opened FetchFrames

  datatype Obs = Line(text: string) | Call(req: Request)

  function Calls(reqs: seq<Request>): seq<Obs> {
    seq(|reqs|, i requires 0 <= i < |reqs| => Obs.Call(reqs[i]))
  }

  function Observe(evs: seq<Event>): seq<Obs> {
    if evs == [] then []
    else Observe(evs[..|evs| - 1]) + ObserveOne(evs[|evs| - 1])
  }

  function CallsIn(obs: seq<Obs>): seq<Request> {
    if obs == [] then []
    else CallsIn(obs[..|obs| - 1]) + (if obs[|obs| - 1].Call? then [obs[|obs| - 1].req] else [])
  }

  lemma {:induction false} CallsInAppend(a: seq<Obs>, b: seq<Obs>)
    ensures CallsIn(a + b) == CallsIn(a) + CallsIn(b)
  {
    if b == [] {
      assert a + b == a;
    } else {
      assert (a + b)[..|a + b| - 1] == a + b[..|b| - 1];
      CallsInAppend(a, b[..|b| - 1]);
    }
  }

  lemma {:induction false} CallsInCalls(reqs: seq<Request>)
    ensures CallsIn(Calls(reqs)) == reqs
  {
    if reqs != [] {
      assert Calls(reqs)[..|reqs| - 1] == Calls(reqs[..|reqs| - 1]);
      CallsInCalls(reqs[..|reqs| - 1]);
    }
  }

  /** The history that mutations see is part of what is observed. */
  lemma {:induction false} MutationsObserved(evs: seq<Event>)
    ensures Mutations(evs) == CallsIn(Observe(evs))
  {
    if evs != [] {
      var init, last := evs[..|evs| - 1], evs[|evs| - 1];
      MutationsObserved(init);
      match last {
        case Print(text) => CallsInAppend(Observe(init), [Line(text)]); assert CallsIn([Line(text)]) == [];
        case Round(sent) => CallsInAppend(Observe(init), Calls(MutationsOf(sent))); CallsInCalls(MutationsOf(sent));
      }
    }
  }

  function ObserveOne(e: Event): seq<Obs> {
    match e case Print(text) => [Line(text)] case Round(sent) => Calls(MutationsOf(sent))
  }

  lemma ObserveSnoc(evs: seq<Event>, e: Event)
    ensures Observe(evs + [e]) == Observe(evs) + ObserveOne(e)
  {
    assert (evs + [e])[..|evs|] == evs;
  }

  /** A printed line is seen; of a round, the requests that are not GETs, in the order in which they arrived. */
  lemma ObservedSteps(evs: seq<Event>, text: string, sent: seq<Sent>, last: Sent)
    ensures Observe(evs + [Print(text)]) == Observe(evs) + [Line(text)]
    ensures Observe(evs + [Round([])]) == Observe(evs)
    ensures Observe(evs + [Round(sent + [last])])
         == Observe(evs + [Round(sent)]) + if last.req.httpMethod == "GET" then [] else [Obs.Call(last.req)]
  {
    hide Observe, MutationsOf, Calls;
    var seen := Observe(evs);
    ObserveSnoc(evs, Print(text));
    ObserveSnoc(evs, Round([]));
    assert Observe(evs + [Round([])]) == seen + [] by { OneMoreSent([], last); }
    OneMoreRound(evs, sent, last);
  }

  lemma OneMoreRound(evs: seq<Event>, sent: seq<Sent>, last: Sent)
    ensures Observe(evs + [Round(sent + [last])])
         == Observe(evs + [Round(sent)]) + if last.req.httpMethod == "GET" then [] else [Obs.Call(last.req)]
  {
    hide Observe, ObserveOne;
    ObserveSnoc(evs, Round(sent));
    ObserveSnoc(evs, Round(sent + [last]));
    OneMoreSent(sent, last);
  }

  lemma OneMoreSent(sent: seq<Sent>, last: Sent)
    ensures ObserveOne(Round([])) == []
    ensures ObserveOne(Round(sent + [last]))
         == ObserveOne(Round(sent)) + if last.req.httpMethod == "GET" then [] else [Obs.Call(last.req)]
  {
    var reqs := MutationsOf(sent);
    assert (sent + [last])[..|sent|] == sent;
    assert MutationsOf(sent + [last]) == reqs + if last.req.httpMethod == "GET" then [] else [last.req];
    hide MutationsOf;
    assert Calls(reqs + [last.req]) == Calls(reqs) + [Obs.Call(last.req)] && reqs + [] == reqs;
  }

  lemma {:induction false} ObserveAppend(a: seq<Event>, b: seq<Event>)
    ensures Observe(a + b) == Observe(a) + Observe(b)
  {
    hide ObserveOne;
    if b == [] {
      assert a + b == a;
    } else {
      var init, last := b[..|b| - 1], b[|b| - 1];
      assert b == init + [last] && a + b == (a + init) + [last];
      ObserveAppend(a, init);
      ObserveSnoc(init, last);
      ObserveSnoc(a + init, last);
    }
  }

  lemma MutationsAppend(a: seq<Event>, b: seq<Event>)
    ensures Mutations(a + b) == Mutations(a) + Mutations(b)
  {
    MutationsObserved(a); MutationsObserved(b); MutationsObserved(a + b);
    ObserveAppend(a, b);
    CallsInAppend(Observe(a), Observe(b));
  }

  /** How many requests a trace sends. */
  function Sends(evs: seq<Event>): nat {
    if evs == [] then 0
    else Sends(evs[..|evs| - 1]) + SendsOf(evs[|evs| - 1])
  }

  function SendsOf(e: Event): nat {
    match e case Print(_) => 0 case Round(sent) => |sent|
  }

  lemma SendsSnoc(evs: seq<Event>, e: Event)
    ensures Sends(evs + [e]) == Sends(evs) + SendsOf(e)
  {
    assert (evs + [e])[..|evs|] == evs;
  }

  lemma {:induction false} SendsAppend(a: seq<Event>, b: seq<Event>)
    ensures Sends(a + b) == Sends(a) + Sends(b)
  {
    if b == [] {
      assert a + b == a;
    } else {
      var init, last := b[..|b| - 1], b[|b| - 1];
      assert b == init + [last] && a + b == (a + init) + [last];
      SendsAppend(a, init);
      SendsSnoc(init, last);
      SendsSnoc(a + init, last);
    }
  }

  lemma {:induction false} PrintsSendNothing(lines: seq<string>)
    ensures Sends(Prints(lines)) == 0
  {
    if lines != [] {
      var init := lines[..|lines| - 1];
      assert Prints(lines) == Prints(init) + [Print(lines[|lines| - 1])];
      PrintsSendNothing(init);
      SendsSnoc(Prints(init), Print(lines[|lines| - 1]));
    }
  }

  lemma LaunchSends(l: Launch)
    ensures Sends(LaunchEvents(l)) == |l.sent|
  {
    var mid := if l.sent == [] then [] else [Round(l.sent)];
    PrintsSendNothing(l.before);
    PrintsSendNothing(l.after);
    if l.sent != [] { assert mid == [] + [Round(l.sent)]; SendsSnoc([], Round(l.sent)); }
    SendsAppend(Prints(l.before), mid);
    SendsAppend(Prints(l.before) + mid, Prints(l.after));
  }

  // ---------- the events of a single fetch ----------

  function FetchEvents(r: Fetched): seq<Event> {
    LaunchEvents(Launch(r.before, if r.sent.Some? then [r.sent.value] else [], r.after, map[]))
  }

  /** A round of one fetch is that fetch. */
  lemma SingleRound(p: Prog, b: Body, i: NodeId, r: Run, hist: seq<Request>)
    requires hide RoundStep, FetchOne, Eval, ApplyPipeline; r.ctl.Next? && IsFetch(b, i)
    ensures var o := FetchOne(p.world, b.nodes[i].kind.f, r.env, hist + Mutations(r.evs));
            RoundStep(p, b, [i], [i], r, hist)
            == (if o.val.None? then Run(r.env, r.evs + FetchEvents(o), Fail(!b.nodes[i].effect))
                else Run(BindTo(r.env, b.nodes[i].binding, o.val.value), r.evs + FetchEvents(o), r.ctl))
  {
    hide FetchOne, Prepare, Eval, ApplyPipeline;
    var h := hist + Mutations(r.evs);
    var o := FetchOne(p.world, b.nodes[i].kind.f, r.env, h);
    var l0 := LaunchTo(p.world, b, [i], 0, r.env, h);
    assert h + MutationsOf(l0.sent) == h;
    var l := LaunchTo(p.world, b, [i], 1, r.env, h);
    assert [] + o.before == o.before && [] + o.after == o.after;
    assert l.sent == if o.sent.Some? then [o.sent.value] else [];
    assert LaunchEvents(l) == FetchEvents(o);
    var q := r.(evs := r.evs + LaunchEvents(l));
    assert Collect(b, [i], 0, l.vals, q) == q;
  }

  /** A quiet GET is not observed. */
  lemma QuietGetUnobserved(w: World, f: FetchIr, env: Env, hist: seq<Request>)
    requires f.httpMethod == "GET" && QuietFetch(f)
    ensures Observe(FetchEvents(FetchOne(w, f, env, hist))) == []
  {
    hide FetchOne, Prepare, EvalPath, Eval, ApplyPipeline;
    QuietFetchOne(w, f, env, hist);
    GetIgnoresHistory(w, f, env, hist, hist);
    var r := FetchOne(w, f, env, hist);
    if r.sent.Some? {
      assert FetchEvents(r) == [Round([r.sent.value])];
      assert MutationsOf([r.sent.value]) == [];
      assert Observe([Round([r.sent.value])]) == Observe([]) + Calls([]);
    }
  }

  // ---------- the fetches of a wave ----------

  ghost predicate Distinct(ids: seq<NodeId>) {
    forall x: nat, y: nat | x < y < |ids| :: ids[x] != ids[y]
  }

  lemma {:induction false} FetchIdsMembers(b: Body, wave: seq<NodeId>)
    ensures forall i :: i in FetchIds(b, wave) <==> i in wave && IsFetch(b, i)
  {
    if wave != [] {
      FetchIdsMembers(b, wave[1..]);
      assert wave == [wave[0]] + wave[1..];
    }
  }

  lemma {:induction false} FetchIdsDistinct(b: Body, wave: seq<NodeId>)
    requires Distinct(wave)
    ensures Distinct(FetchIds(b, wave))
  {
    if wave != [] {
      FetchIdsDistinct(b, wave[1..]);
      FetchIdsMembers(b, wave[1..]);
      assert wave[0] !in wave[1..];
    }
  }

  lemma {:induction false} FetchIdsSnoc(b: Body, wave: seq<NodeId>, i: NodeId)
    ensures FetchIds(b, wave + [i]) == FetchIds(b, wave) + if IsFetch(b, i) then [i] else []
  {
    if wave != [] {
      assert (wave + [i])[1..] == wave[1..] + [i];
      FetchIdsSnoc(b, wave[1..], i);
    }
  }
}
