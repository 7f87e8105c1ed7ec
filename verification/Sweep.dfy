// The auto-operator's scheduler: sweep() coalesces triggers and keeps one pass
// in flight. Several calls of sweep may be under way; each runs up to its next
// await and then waits there, so the state between two awaits is what others see.
module Sweep {
  import opened Common

  type Ticker = string

  /** A call of sweep waiting for the pass of `current`, with `rest` of its round to go. */
  datatype Flight = Flight(current: Ticker, rest: seq<Ticker>)

  /** queued and sweeping are the module variables; flights are the waiting calls; started logs every pass begun. */
  datatype State = State(queued: set<Ticker>, sweeping: bool, flights: seq<Flight>, started: seq<Ticker>)

  const IDLE := State({}, false, [], [])

  datatype Event =
    | Trigger(tickers: seq<Ticker>)  // sweep(tickers) is called
    | PassDone(k: nat)               // the pass that waiting call k awaits resolves or throws

  function Asked(tickers: seq<Ticker>): set<Ticker> { set t | t in tickers }

  /** The tickers of a round: the listed ones that are queued, in listed order. */
  function Round(listed: seq<Ticker>, queued: set<Ticker>): seq<Ticker> {
    if listed == [] then []
    else (if listed[0] in queued then [listed[0]] else []) + Round(listed[1..], queued)
  }

  function Begin(s: State, round: seq<Ticker>): State
    requires round != []
  {
    s.(flights := s.flights + [Flight(round[0], round[1..])], started := s.started + [round[0]])
  }

  /** From the test of the while loop to the next await, or to the end of the call. */
  function Loop(listed: seq<Ticker>, s: State): State
    decreases |s.queued|
  {
    if s.queued == {} then s.(sweeping := false)
    else
      var round := Round(listed, s.queued);
      if round == [] then Loop(listed, s.(queued := {})) else Begin(s.(queued := {}), round)
  }

  function Remove(flights: seq<Flight>, k: nat): seq<Flight>
    requires k < |flights|
  {
    flights[..k] + flights[k+1..]
  }

  function Step(listed: seq<Ticker>, s: State, e: Event): State {
    match e
    case Trigger(tickers) =>
      var asked := s.(queued := s.queued + Asked(tickers));
      if s.sweeping then asked else Loop(listed, asked.(sweeping := true))
    case PassDone(k) =>
      if k >= |s.flights| then s
      else
        var rest := s.flights[k].rest;
        var landed := s.(flights := Remove(s.flights, k));
        if rest != [] then Begin(landed, rest) else Loop(listed, landed)
  }

  function Run(listed: seq<Ticker>, s: State, es: seq<Event>): State
    decreases |es|
  {
    if es == [] then s else Run(listed, Step(listed, s, es[0]), es[1..])
  }

  class Operator {
    const listed: seq<Ticker>
    var queued: set<Ticker>
    var sweeping: bool
    var flights: seq<Flight>
    var started: seq<Ticker>

    function Now(): State
      reads this
    {
      State(queued, sweeping, flights, started)
    }

    constructor (listed: seq<Ticker>)
      ensures Now() == IDLE && this.listed == listed
    {
      this.listed := listed;
      queued, sweeping, flights, started := {}, false, [], [];
    }

    /** The queue loop up to the first await: a pass begins, or the flag is lowered. */
    method Drain()
      modifies this
      ensures Now() == Loop(listed, old(Now()))
    {
      while queued != {}
        invariant Loop(listed, Now()) == Loop(listed, old(Now()))
        decreases |queued|
      {
        var round := Round(listed, queued);
        ghost var asked := queued;
        queued := {};
        assert asked != {};
        if round != [] {
          BeginPass(round);
          return;
        }
      }
      sweeping := false;
    }

    method BeginPass(round: seq<Ticker>)
      requires round != []
      modifies this`flights, this`started
      ensures Now() == Begin(old(Now()), round)
    {
      started := started + [round[0]];
      flights := flights + [Flight(round[0], round[1..])];
    }

    method Sweep(tickers: seq<Ticker>)
      modifies this
      ensures Now() == Step(listed, old(Now()), Trigger(tickers))
    {
      queued := queued + Asked(tickers);
      if sweeping {
        return;
      }
      sweeping := true;
      Drain();
    }

    /** The awaited pass of a waiting call is over, well or badly: the call goes on. */
    method Resume(k: nat)
      requires k < |flights|
      modifies this
      ensures Now() == Step(listed, old(Now()), PassDone(k))
    {
      var rest := flights[k].rest;
      flights := Remove(flights, k);
      if rest != [] {
        BeginPass(rest);
      } else {
        Drain();
      }
    }
  }

  // ---------- one pass at a time ----------

  /** At most one call waits, exactly while the flag is up, and nothing is queued without it. */
  ghost predicate SingleFlight(s: State) {
    && |s.flights| == (if s.sweeping then 1 else 0)
    && (s.queued != {} ==> s.sweeping)
  }

  lemma {:induction false} LoopKeepsSingle(listed: seq<Ticker>, s: State)
    requires s.sweeping && s.flights == []
    ensures SingleFlight(Loop(listed, s))
    decreases |s.queued|
  {
    if s.queued != {} && Round(listed, s.queued) == [] {
      LoopKeepsSingle(listed, s.(queued := {}));
    }
  }

  lemma {:induction false} StepKeepsSingle(listed: seq<Ticker>, s: State, e: Event)
    requires SingleFlight(s)
    ensures SingleFlight(Step(listed, s, e))
  {
    match e
    case Trigger(tickers) =>
      if !s.sweeping {
        LoopKeepsSingle(listed, s.(queued := s.queued + Asked(tickers), sweeping := true));
      }
    case PassDone(k) =>
      if k < |s.flights| && s.flights[k].rest == [] {
        LoopKeepsSingle(listed, s.(flights := Remove(s.flights, k)));
      }
  }

  lemma {:induction false} IdleIsSingle()
    ensures SingleFlight(IDLE)
  {
  }

  /** Under every interleaving of triggers and pass completions, at most one pass is in flight. */
  lemma {:induction false} NeverTwoPasses(listed: seq<Ticker>, s: State, es: seq<Event>)
    requires SingleFlight(s)
    ensures SingleFlight(Run(listed, s, es))
    decreases |es|
  {
    if es != [] {
      StepKeepsSingle(listed, s, es[0]);
      NeverTwoPasses(listed, Step(listed, s, es[0]), es[1..]);
    }
  }

  // ---------- no trigger is lost ----------

  /** A pass of t is still to come: t is queued, or waits in the round under way. */
  ghost predicate Due(s: State, t: Ticker) {
    t in s.queued || exists k :: 0 <= k < |s.flights| && t in s.flights[k].rest
  }

  lemma {:induction false} RoundHas(listed: seq<Ticker>, queued: set<Ticker>, t: Ticker)
    ensures t in Round(listed, queued) <==> t in listed && t in queued
  {
    if listed != [] {
      RoundHas(listed[1..], queued, t);
    }
  }

  lemma {:induction false} RoundConcat(a: seq<Ticker>, b: seq<Ticker>, queued: set<Ticker>)
    ensures Round(a + b, queued) == Round(a, queued) + Round(b, queued)
  {
    if a == [] {
      assert a + b == b;
    } else {
      assert (a + b)[1..] == a[1..] + b;
      RoundConcat(a[1..], b, queued);
    }
  }

  /** A round serves two queued tickers in the order in which they are listed. */
  lemma {:induction false} RoundKeepsOrder(listed: seq<Ticker>, queued: set<Ticker>, i: nat, j: nat)
      returns (a: nat, b: nat)
    requires i < j < |listed| && listed[i] in queued && listed[j] in queued
    ensures a < b < |Round(listed, queued)|
    ensures Round(listed, queued)[a] == listed[i] && Round(listed, queued)[b] == listed[j]
  {
    var front, back := Round(listed[..j], queued), Round(listed[j..], queued);
    assert listed[..j] + listed[j..] == listed;
    RoundConcat(listed[..j], listed[j..], queued);
    assert listed[..j][i] == listed[i] && listed[j..][0] == listed[j];
    RoundHas(listed[..j], queued, listed[i]);
    a :| 0 <= a < |front| && front[a] == listed[i];
    b := |front|;
    assert back[0] == listed[j];
  }

  /** What became of t between two states: a pass of it began, or one is still due. */
  ghost predicate ServedOrDue(before: State, after: State, t: Ticker) {
    && before.started <= after.started
    && (Due(after, t) || t in after.started[|before.started|..])
  }

  lemma {:induction false} LoopServes(listed: seq<Ticker>, s: State, t: Ticker)
    requires t in listed
    ensures s.started <= Loop(listed, s).started
    ensures t in s.queued ==> ServedOrDue(s, Loop(listed, s), t)
    decreases |s.queued|
  {
    RoundHas(listed, s.queued, t);
    if s.queued != {} {
      var round := Round(listed, s.queued);
      if round == [] {
        LoopServes(listed, s.(queued := {}), t);
      } else {
        BeginServes(s.(queued := {}), round, t);
      }
    }
  }

  lemma {:induction false} BeginServes(s: State, round: seq<Ticker>, t: Ticker)
    requires round != []
    ensures s.started <= Begin(s, round).started
    ensures t in round ==> ServedOrDue(s, Begin(s, round), t)
  {
    var after := Begin(s, round);
    assert after.started[|s.started|..] == [round[0]];
    if t in round && t != round[0] {
      assert t in round[1..];
      assert after.flights[|s.flights|].rest == round[1..];
    }
  }

  lemma {:induction false} StepServes(listed: seq<Ticker>, s: State, e: Event, t: Ticker)
    requires SingleFlight(s) && t in listed
    ensures s.started <= Step(listed, s, e).started
    ensures Due(s, t) || (e.Trigger? && t in e.tickers) ==> ServedOrDue(s, Step(listed, s, e), t)
  {
    match e
    case Trigger(tickers) =>
      if s.sweeping {
        if t in tickers {
          assert t in Asked(tickers);
        } else if t !in s.queued && Due(s, t) {
          assert t in Step(listed, s, e).flights[0].rest;
        }
      } else {
        LoopServes(listed, s.(queued := s.queued + Asked(tickers), sweeping := true), t);
      }
    case PassDone(k) =>
      if k < |s.flights| {
        assert k == 0 && Remove(s.flights, k) == [];
        var landed := s.(flights := Remove(s.flights, k));
        if s.flights[k].rest != [] {
          BeginServes(landed, s.flights[k].rest, t);
        } else {
          LoopServes(listed, landed, t);
        }
      }
  }

  lemma {:induction false} DueUntilServed(listed: seq<Ticker>, s: State, es: seq<Event>, t: Ticker)
    requires SingleFlight(s) && t in listed
    ensures s.started <= Run(listed, s, es).started
    ensures Due(s, t) ==> ServedOrDue(s, Run(listed, s, es), t)
    decreases |es|
  {
    if es != [] {
      var next := Step(listed, s, es[0]);
      StepServes(listed, s, es[0], t);
      StepKeepsSingle(listed, s, es[0]);
      DueUntilServed(listed, next, es[1..], t);
      var end := Run(listed, s, es);
      if Due(s, t) && t in next.started[|s.started|..] {
        assert next.started[|s.started|..] <= end.started[|s.started|..];
      } else if Due(s, t) && !Due(end, t) {
        assert t in end.started[|next.started|..];
        assert end.started[|next.started|..] == end.started[|s.started|..][|next.started| - |s.started|..];
      }
    }
  }

  /**
   * No lost wake-up: after a trigger for a listed ticker, whatever happens next,
   * either a pass of it has begun since the trigger or one is still due.
   */
  lemma {:induction false} TriggerIsNotLost(
      listed: seq<Ticker>, s: State, tickers: seq<Ticker>, es: seq<Event>, t: Ticker)
    requires SingleFlight(s) && t in listed && t in tickers
    ensures ServedOrDue(s, Run(listed, Step(listed, s, Trigger(tickers)), es), t)
  {
    var next := Step(listed, s, Trigger(tickers));
    assert t in Trigger(tickers).tickers;
    StepServes(listed, s, Trigger(tickers), t);
    StepKeepsSingle(listed, s, Trigger(tickers));
    DueUntilServed(listed, next, es, t);
    var end := Run(listed, next, es);
    if t in next.started[|s.started|..] {
      assert next.started[|s.started|..] <= end.started[|s.started|..];
    } else if !Due(end, t) {
      assert t in end.started[|next.started|..];
      assert end.started[|next.started|..] == end.started[|s.started|..][|next.started| - |s.started|..];
    }
  }

  // ---------- triggers coalesce ----------

  function Count(ts: seq<Ticker>, t: Ticker): nat { multiset(ts)[t] }

  /** How many passes of t are due. */
  ghost function Pending(s: State, t: Ticker): nat {
    (if t in s.queued then 1 else 0) + PendingIn(s.flights, t)
  }

  ghost function PendingIn(flights: seq<Flight>, t: Ticker): nat {
    if flights == [] then 0 else Count(flights[0].rest, t) + PendingIn(flights[1..], t)
  }

  ghost function Triggers(es: seq<Event>, t: Ticker): nat {
    if es == [] then 0
    else (if es[0].Trigger? && t in es[0].tickers then 1 else 0) + Triggers(es[1..], t)
  }

  lemma {:induction false} RoundCount(listed: seq<Ticker>, queued: set<Ticker>, t: Ticker)
    requires Distinct(listed)
    ensures Count(Round(listed, queued), t) == if t in listed && t in queued then 1 else 0
  {
    if listed != [] {
      RoundCount(listed[1..], queued, t);
      var head := if listed[0] in queued then [listed[0]] else [];
      assert multiset(head + Round(listed[1..], queued)) == multiset(head) + multiset(Round(listed[1..], queued));
      assert t in listed <==> t == listed[0] || t in listed[1..];
    }
  }

  lemma {:induction false} BeginCount(s: State, round: seq<Ticker>, t: Ticker)
    requires round != [] && s.flights == []
    ensures Count(Begin(s, round).started, t) + Pending(Begin(s, round), t)
         == Count(s.started, t) + Pending(s, t) + Count(round, t)
  {
    var after := Begin(s, round);
    assert round == [round[0]] + round[1..];
    assert multiset(round) == multiset{round[0]} + multiset(round[1..]);
    assert after.flights == [Flight(round[0], round[1..])];
    assert after.flights[1..] == [];
  }

  lemma {:induction false} LoopCount(listed: seq<Ticker>, s: State, t: Ticker)
    requires Distinct(listed)
    requires s.flights == []
    ensures Count(Loop(listed, s).started, t) + Pending(Loop(listed, s), t)
         == Count(s.started, t) + if t in listed then Pending(s, t) else 0
    decreases |s.queued|
  {
    RoundCount(listed, s.queued, t);
    if s.queued != {} {
      var round := Round(listed, s.queued);
      if round == [] {
        LoopCount(listed, s.(queued := {}), t);
      } else {
        BeginCount(s.(queued := {}), round, t);
      }
    }
  }

  lemma {:induction false} StepCount(listed: seq<Ticker>, s: State, e: Event, t: Ticker)
    requires Distinct(listed)
    requires SingleFlight(s)
    ensures Count(Step(listed, s, e).started, t) + Pending(Step(listed, s, e), t)
         <= Count(s.started, t) + Pending(s, t) + Triggers([e], t)
  {
    assert [e][1..] == [];
    match e
    case Trigger(tickers) =>
      assert t in Asked(tickers) <==> t in tickers;
      if !s.sweeping {
        LoopCount(listed, s.(queued := s.queued + Asked(tickers), sweeping := true), t);
      }
    case PassDone(k) =>
      if k < |s.flights| {
        assert s.flights == [s.flights[0]] && s.flights[1..] == [];
        var landed := s.(flights := Remove(s.flights, k));
        assert landed.flights == [];
        if s.flights[k].rest != [] {
          BeginCount(landed, s.flights[k].rest, t);
        } else {
          LoopCount(listed, landed, t);
        }
      }
  }

  /** Every pass of t is paid for by a trigger of t: bursts never multiply passes. */
  lemma {:induction false} PassesAtMostTriggers(listed: seq<Ticker>, s: State, es: seq<Event>, t: Ticker)
    requires Distinct(listed)
    requires SingleFlight(s)
    ensures Count(Run(listed, s, es).started, t) + Pending(Run(listed, s, es), t)
         <= Count(s.started, t) + Pending(s, t) + Triggers(es, t)
    decreases |es|
  {
    if es != [] {
      StepCount(listed, s, es[0], t);
      StepKeepsSingle(listed, s, es[0]);
      PassesAtMostTriggers(listed, Step(listed, s, es[0]), es[1..], t);
      assert [es[0]][1..] == [];
      assert Triggers([es[0]], t) == if es[0].Trigger? && t in es[0].tickers then 1 else 0;
    }
  }

  // ---------- once triggers stop, the queue drains ----------

  /** n completions of the one pass in flight. */
  function Completions(n: nat): seq<Event> { seq(n, _ => PassDone(0)) }

  lemma {:induction false} NextPass(listed: seq<Ticker>, s: State)
    requires SingleFlight(s) && s.sweeping && s.flights[0].rest != []
    ensures var rest := s.flights[0].rest;
      Step(listed, s, PassDone(0)) == State(s.queued, true, [Flight(rest[0], rest[1..])], s.started + [rest[0]])
  {
    assert Remove(s.flights, 0) == [];
  }

  lemma {:induction false} DrainRest(listed: seq<Ticker>, s: State, rest: seq<Ticker>)
    requires SingleFlight(s) && s.sweeping && s.flights[0].rest == rest
    ensures var end := Run(listed, s, Completions(|rest|));
      && SingleFlight(end) && end.sweeping && end.queued == s.queued
      && end.flights[0].rest == [] && end.started == s.started + rest
    decreases |rest|
  {
    if rest == [] {
      assert Completions(0) == [];
    } else {
      var es := Completions(|rest|);
      assert es[0] == PassDone(0) && es[1..] == Completions(|rest| - 1);
      NextPass(listed, s);
      DrainRest(listed, Step(listed, s, PassDone(0)), rest[1..]);
      assert [rest[0]] + rest[1..] == rest;
      assert s.started + rest == s.started + [rest[0]] + rest[1..];
    }
  }

  lemma {:induction false} RunConcat(listed: seq<Ticker>, s: State, a: seq<Event>, b: seq<Event>)
    ensures Run(listed, s, a + b) == Run(listed, Run(listed, s, a), b)
    decreases |a|
  {
    if a == [] {
      assert a + b == b;
    } else {
      assert (a + b)[0] == a[0] && (a + b)[1..] == a[1..] + b;
      RunConcat(listed, Step(listed, s, a[0]), a[1..], b);
    }
  }

  lemma {:induction false} SplitCompletions(listed: seq<Ticker>, s: State, a: nat, b: nat)
    ensures Run(listed, s, Completions(a + 1 + b))
         == Run(listed, Step(listed, Run(listed, s, Completions(a)), PassDone(0)), Completions(b))
  {
    var tail := [PassDone(0)] + Completions(b);
    assert Completions(a + 1 + b) == Completions(a) + tail;
    RunConcat(listed, s, Completions(a), tail);
    assert tail[0] == PassDone(0) && tail[1..] == Completions(b);
  }

  lemma {:induction false} NoRoundOfNone(listed: seq<Ticker>)
    ensures Round(listed, {}) == []
  {
    if listed != [] {
      NoRoundOfNone(listed[1..]);
    }
  }

  /** The last pass of a round ends: the queued tickers make the next round, or the call is over. */
  lemma {:induction false} NextRound(listed: seq<Ticker>, s: State)
    requires SingleFlight(s) && s.sweeping && s.flights[0].rest == []
    ensures var more := Round(listed, s.queued);
      Step(listed, s, PassDone(0)) ==
        if more == [] then State({}, false, [], s.started)
        else State({}, true, [Flight(more[0], more[1..])], s.started + [more[0]])
  {
    assert Remove(s.flights, 0) == [];
    var landed := s.(flights := []);
    var more := Round(listed, s.queued);
    if more == [] {
      DrainedLoop(listed, landed);
    } else {
      RoundHas(listed, s.queued, more[0]);
      assert [] + [Flight(more[0], more[1..])] == [Flight(more[0], more[1..])];
    }
  }

  /** One whole round with nothing queued behind it. */
  lemma {:induction false} LastRound(listed: seq<Ticker>, s: State, more: seq<Ticker>)
    requires more != [] && s.queued == {} && s.sweeping && s.flights == [Flight(more[0], more[1..])]
    ensures Run(listed, s, Completions(|more|)) == State({}, false, [], s.started + more[1..])
  {
    DrainRest(listed, s, more[1..]);
    SplitCompletions(listed, s, |more| - 1, 0);
    NoRoundOfNone(listed);
    NextRound(listed, Run(listed, s, Completions(|more| - 1)));
    assert Completions(0) == [];
  }

  /** From the end of a round to the end of the next one. */
  lemma {:induction false} RoundsEnd(listed: seq<Ticker>, s: State, more: seq<Ticker>)
    requires SingleFlight(s) && s.sweeping && s.flights[0].rest == [] && more == Round(listed, s.queued)
    ensures Run(listed, Step(listed, s, PassDone(0)), Completions(|more|)) == State({}, false, [], s.started + more)
  {
    NextRound(listed, s);
    if more == [] {
      assert Completions(0) == [];
      assert s.started + more == s.started;
    } else {
      LastRound(listed, State({}, true, [Flight(more[0], more[1..])], s.started + [more[0]]), more);
      Assoc(s.started, [more[0]], more[1..]);
      assert [more[0]] + more[1..] == more;
    }
  }

  /**
   * From any reachable busy state, if no more triggers come, exactly the rest
   * of the round and then one pass of each queued listed ticker, in listed
   * order, are run, and the scheduler is idle after that many completions.
   */
  lemma {:induction false} Drains(listed: seq<Ticker>, s: State)
    requires SingleFlight(s) && s.sweeping
    ensures var more := Round(listed, s.queued);
      Run(listed, s, Completions(|s.flights[0].rest| + 1 + |more|))
        == State({}, false, [], s.started + s.flights[0].rest + more)
  {
    var rest, more := s.flights[0].rest, Round(listed, s.queued);
    DrainRest(listed, s, rest);
    RoundsEnd(listed, Run(listed, s, Completions(|rest|)), more);
    SplitCompletions(listed, s, |rest|, |more|);
  }

  lemma {:induction false} DrainedLoop(listed: seq<Ticker>, s: State)
    requires Round(listed, s.queued) == []
    ensures Loop(listed, s) == s.(queued := {}, sweeping := false)
  {
    if s.queued != {} {
      assert Loop(listed, s.(queued := {})) == s.(queued := {}, sweeping := false);
    }
  }

  /** All the tickers a run of events asks for. */
  ghost function AskedAll(es: seq<Event>): set<Ticker> {
    if es == [] then {}
    else (if es[0].Trigger? then Asked(es[0].tickers) else {}) + AskedAll(es[1..])
  }

  /** How many passes end in a run of events. */
  ghost function Ended(es: seq<Event>): nat {
    if es == [] then 0 else (if es[0] == PassDone(0) then 1 else 0) + Ended(es[1..])
  }

  lemma {:induction false} StepWithinRound(listed: seq<Ticker>, s: State, e: Event)
    requires SingleFlight(s) && s.sweeping && (e == PassDone(0) ==> s.flights[0].rest != [])
    ensures var next := Step(listed, s, e); var rest := s.flights[0].rest;
      && SingleFlight(next) && next.sweeping
      && next.queued == s.queued + (if e.Trigger? then Asked(e.tickers) else {})
      && next.started == s.started + (if e == PassDone(0) then [rest[0]] else [])
      && next.flights[0].rest == if e == PassDone(0) then rest[1..] else rest
  {
    if e == PassDone(0) {
      NextPass(listed, s);
    }
  }

  lemma {:induction false} Shifted(started: seq<Ticker>, rest: seq<Ticker>, d: nat)
    requires 1 <= d <= |rest|
    ensures started + [rest[0]] + rest[1..][..d-1] == started + rest[..d] && rest[1..][d-1..] == rest[d..]
  {
    assert rest[..d] == [rest[0]] + rest[1..][..d-1];
    Assoc(started, [rest[0]], rest[1..][..d-1]);
  }

  /** While a round lasts its passes run in order, and triggers of any kind at any time only queue. */
  lemma {:induction false} RoundOnlyQueues(listed: seq<Ticker>, s: State, es: seq<Event>)
    requires SingleFlight(s) && s.sweeping && Ended(es) <= |s.flights[0].rest|
    ensures var end := Run(listed, s, es); var rest := s.flights[0].rest;
      && SingleFlight(end) && end.sweeping
      && end.queued == s.queued + AskedAll(es)
      && end.started == s.started + rest[..Ended(es)] && end.flights[0].rest == rest[Ended(es)..]
    decreases |es|
  {
    var rest := s.flights[0].rest;
    if es == [] {
      assert s.started + rest[..0] == s.started && rest[0..] == rest && s.queued + {} == s.queued;
    } else {
      StepWithinRound(listed, s, es[0]);
      RoundOnlyQueues(listed, Step(listed, s, es[0]), es[1..]);
      if es[0] == PassDone(0) {
        Shifted(s.started, rest, Ended(es));
      } else {
        assert s.started + [] == s.started;
      }
    }
  }

  /**
   * Triggers within one round, however many and wherever between its passes, add
   * one later round: what is left of this round, then each asked or queued listed
   * ticker exactly once.
   */
  lemma {:induction false} RoundAddsOneRound(listed: seq<Ticker>, s: State, es: seq<Event>)
    requires SingleFlight(s) && s.sweeping && Ended(es) <= |s.flights[0].rest|
    ensures var rest := s.flights[0].rest; var more := Round(listed, s.queued + AskedAll(es));
      Run(listed, s, es + Completions(|rest| - Ended(es) + 1 + |more|))
        == State({}, false, [], s.started + rest + more)
  {
    RoundOnlyQueues(listed, s, es);
    var mid := Run(listed, s, es);
    var rest, more := s.flights[0].rest, Round(listed, mid.queued);
    Drains(listed, mid);
    RunConcat(listed, s, es, Completions(|rest| - Ended(es) + 1 + |more|));
    assert rest[..Ended(es)] + rest[Ended(es)..] == rest;
    Assoc(s.started, rest[..Ended(es)], rest[Ended(es)..]);
  }
}
