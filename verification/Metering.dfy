/** How many requests a run sends, in how many rounds, and how long they take. */
module Metering {
  import opened Wrappers
  import opened Exec
  import opened Traces
  import opened Costs

  /** Sequential request rounds. */
  function Rounds(evs: seq<Event>): nat {
    if evs == [] then 0 else Rounds(evs[..|evs| - 1]) + RoundsOf(evs[|evs| - 1])
  }

  function RoundsOf(e: Event): nat {
    if e.Round? && e.sent != [] then 1 else 0
  }

  /** The requests of a round overlap, so it lasts as long as the slowest of them. */
  function Slowest(sent: seq<Sent>, took: Sent -> nat): nat {
    if sent == [] then 0 else Max(Slowest(sent[..|sent| - 1], took), took(sent[|sent| - 1]))
  }

  function Elapsed(evs: seq<Event>, took: Sent -> nat): nat {
    if evs == [] then 0 else Elapsed(evs[..|evs| - 1], took) + ElapsedOf(evs[|evs| - 1], took)
  }

  function ElapsedOf(e: Event, took: Sent -> nat): nat {
    match e case Print(_) => 0 case Round(sent) => Slowest(sent, took)
  }

  /** No request takes longer than its endpoint declares. */
  ghost predicate Punctual(took: Sent -> nat) {
    forall s: Sent :: s.latency.Some? ==> took(s) <= s.latency.value
  }

  lemma Snoc(evs: seq<Event>, e: Event, took: Sent -> nat)
    ensures Sends(evs + [e]) == Sends(evs) + SendsOf(e)
    ensures Rounds(evs + [e]) == Rounds(evs) + RoundsOf(e)
    ensures Elapsed(evs + [e], took) == Elapsed(evs, took) + ElapsedOf(e, took)
  {
    assert (evs + [e])[..|evs|] == evs;
  }

  lemma {:induction false} MetersAppend(a: seq<Event>, b: seq<Event>, took: Sent -> nat)
    ensures Sends(a + b) == Sends(a) + Sends(b)
    ensures Rounds(a + b) == Rounds(a) + Rounds(b)
    ensures Elapsed(a + b, took) == Elapsed(a, took) + Elapsed(b, took)
  {
    if b == [] {
      assert a + b == a;
    } else {
      var init, last := b[..|b| - 1], b[|b| - 1];
      assert b == init + [last] && a + b == (a + init) + [last];
      MetersAppend(a, init, took);
      Snoc(init, last, took);
      Snoc(a + init, last, took);
    }
  }

  lemma {:induction false} PrintsAreFree(lines: seq<string>, took: Sent -> nat)
    ensures Sends(Prints(lines)) == Rounds(Prints(lines)) == Elapsed(Prints(lines), took) == 0
  {
    if lines != [] {
      var init := lines[..|lines| - 1];
      assert Prints(lines) == Prints(init) + [Print(lines[|lines| - 1])];
      PrintsAreFree(init, took);
      Snoc(Prints(init), Print(lines[|lines| - 1]), took);
    }
  }

  /** A run without requests has no rounds and takes no request time. */
  lemma {:induction false} NothingSent(evs: seq<Event>, took: Sent -> nat)
    requires Sends(evs) == 0
    ensures Rounds(evs) == 0 && Elapsed(evs, took) == 0
  {
    if evs != [] {
      NothingSent(evs[..|evs| - 1], took);
      assert SendsOf(evs[|evs| - 1]) == 0;
    }
  }

  lemma {:induction false} NoRounds(evs: seq<Event>, took: Sent -> nat)
    requires Rounds(evs) == 0
    ensures Sends(evs) == 0 && Elapsed(evs, took) == 0
  {
    if evs != [] { NoRounds(evs[..|evs| - 1], took); }
  }

  lemma LaunchMeters(l: Launch, took: Sent -> nat)
    ensures Sends(LaunchEvents(l)) == |l.sent|
    ensures Rounds(LaunchEvents(l)) == if l.sent == [] then 0 else 1
    ensures Elapsed(LaunchEvents(l), took) == Slowest(l.sent, took)
  {
    var mid := if l.sent == [] then [] else [Round(l.sent)];
    PrintsAreFree(l.before, took);
    PrintsAreFree(l.after, took);
    if l.sent != [] { assert mid == [] + [Round(l.sent)]; Snoc([], Round(l.sent), took); }
    MetersAppend(Prints(l.before), mid, took);
    MetersAppend(Prints(l.before) + mid, Prints(l.after), took);
  }

  /** A trace stays within a cost: always in requests, and when `timed` also in rounds and time. */
  ghost predicate Bounded(evs: seq<Event>, c: Cost, timed: bool, took: Sent -> nat) {
    && Sends(evs) <= c.requests
    && (timed ==> Rounds(evs) <= c.depth && (c.latency.Some? ==> Elapsed(evs, took) <= c.latency.value))
  }

  lemma PrintsFirst(lines: seq<string>, evs: seq<Event>, c: Cost, timed: bool, took: Sent -> nat)
    ensures Bounded(Prints(lines) + evs, c, timed, took) == Bounded(evs, c, timed, took)
  {
    MetersAppend(Prints(lines), evs, took);
    PrintsAreFree(lines, took);
  }

  lemma OnlyPrints(lines: seq<string>, c: Cost, timed: bool, took: Sent -> nat)
    ensures Bounded(Prints(lines), c, timed, took)
  {
    PrintsAreFree(lines, took);
  }
}
