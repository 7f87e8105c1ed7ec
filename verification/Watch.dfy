// newOrders: the watcher of the markets' order counters, which triggers sweeps.
// A poll's answer is taken in at one go; polls may overlap, so their answers may
// come in another order than they were asked.
module Watch {
  import opened Common
  import opened Sweep

  /** A market account as one poll returns it: missing, its order counter, or data that does not decode. */
  datatype Info = Missing | Counter(value: nat) | Broken

  type Poll = seq<Info>

  /** What a poll leaves behind; ok is false when decoding threw, and what it had found is lost. */
  datatype Answer = Answer(ok: bool, moved: seq<Ticker>, last: map<Ticker, nat>)

  /** One more market of a poll: report it if its counter is known and moved, and remember the counter. */
  function Look(a: Answer, t: Ticker, info: Info): Answer {
    if !a.ok then a
    else
      match info
      case Missing => a
      case Broken => Answer(false, [], a.last)
      case Counter(n) => Answer(true, if t in a.last && n != a.last[t] then a.moved + [t] else a.moved, a.last[t := n])
  }

  function Polled(listed: seq<Ticker>, poll: Poll, last: map<Ticker, nat>): Answer
    requires |listed| == |poll|
    decreases |listed|
  {
    var n := |listed| - 1;
    if n < 0 then Answer(true, [], last) else Look(Polled(listed[..n], poll[..n], last), listed[n], poll[n])
  }

  class Watcher {
    const listed: seq<Ticker>
    var last: map<Ticker, nat>

    constructor (listed: seq<Ticker>)
      ensures this.listed == listed && last == map[]
    {
      this.listed, last := listed, map[];
    }

    method NewOrders(poll: Poll) returns (ok: bool, moved: seq<Ticker>)
      requires |poll| == |listed|
      modifies this
      ensures Answer(ok, moved, last) == Polled(listed, poll, old(last))
    {
      ok, moved := true, [];
      for k := 0 to |listed|
        invariant ok && Answer(true, moved, last) == Polled(listed[..k], poll[..k], old(last))
      {
        assert listed[..k+1][..k] == listed[..k] && poll[..k+1][..k] == poll[..k];
        var t := listed[k];
        if poll[k].Broken? {
          BrokenStays(listed, poll, old(last), k + 1);
          return false, [];
        }
        if poll[k].Counter? {
          if t in last && poll[k].value != last[t] {
            moved := moved + [t];
          }
          last := last[t := poll[k].value];
        }
      }
      assert listed[..|listed|] == listed && poll[..|listed|] == poll;
    }
  }

  /** A poll that threw looks no further. */
  lemma {:induction false} BrokenStays(listed: seq<Ticker>, poll: Poll, last: map<Ticker, nat>, k: nat)
    requires |listed| == |poll| && k <= |listed| && !Polled(listed[..k], poll[..k], last).ok
    ensures Polled(listed, poll, last) == Polled(listed[..k], poll[..k], last)
    decreases |listed|
  {
    var n := |listed| - 1;
    if k == |listed| {
      assert listed[..k] == listed && poll[..k] == poll;
    } else {
      assert listed[..n][..k] == listed[..k] && poll[..n][..k] == poll[..k];
      BrokenStays(listed[..n], poll[..n], last, k);
    }
  }

  // ---------- one poll ----------

  ghost predicate Whole(poll: Poll) { forall k :: 0 <= k < |poll| ==> !poll[k].Broken? }

  lemma {:induction false} OkIffWhole(listed: seq<Ticker>, poll: Poll, last: map<Ticker, nat>)
    requires |listed| == |poll|
    ensures Polled(listed, poll, last).ok <==> Whole(poll)
    ensures !Whole(poll) ==> Polled(listed, poll, last).moved == []
    decreases |listed|
  {
    var n := |listed| - 1;
    if n >= 0 {
      OkIffWhole(listed[..n], poll[..n], last);
      assert poll == poll[..n] + [poll[n]];
    }
  }

  /** How often x was reported so far, and its counter as remembered, if known. */
  datatype View = View(count: nat, known: bool, counter: nat)

  function ViewOf(a: Answer, x: Ticker): View {
    View(Count(a.moved, x), x in a.last, if x in a.last then a.last[x] else 0)
  }

  /** What one market's answer does to its own view. */
  function Seen(v: View, info: Info): View {
    match info
    case Counter(n) => View(if v.known && n != v.counter then v.count + 1 else v.count, true, n)
    case _ => v
  }

  lemma {:induction false} LookFacts(a: Answer, t: Ticker, info: Info, x: Ticker)
    ensures var v, u := ViewOf(a, x), ViewOf(Look(a, t, info), x);
      var want := if x == t && a.ok then Seen(v, info) else v;
      u == if a.ok && info.Broken? then want.(count := 0) else want
  {
    assert multiset(a.moved + [t]) == multiset(a.moved) + multiset{t};
  }

  lemma {:induction false} Unlisted(listed: seq<Ticker>, poll: Poll, last: map<Ticker, nat>, x: Ticker)
    requires |listed| == |poll| && x !in listed
    ensures ViewOf(Polled(listed, poll, last), x) == ViewOf(Answer(true, [], last), x)
    decreases |listed|
  {
    var n := |listed| - 1;
    if n >= 0 {
      Unlisted(listed[..n], poll[..n], last, x);
      LookFacts(Polled(listed[..n], poll[..n], last), listed[n], poll[n], x);
    }
  }

  /** The market's counter was read before anything threw. */
  ghost predicate Taken(poll: Poll, i: nat)
    requires i < |poll|
  {
    poll[i].Counter? && Whole(poll[..i])
  }

  /**
   * A poll remembers exactly the counters read before anything threw; one that
   * throws reports nothing, any other exactly the markets whose known counter
   * moved, each once.
   */
  lemma {:induction false} ReportsWhatMoved(listed: seq<Ticker>, poll: Poll, last: map<Ticker, nat>, i: nat)
    requires |listed| == |poll| && Distinct(listed) && i < |listed|
    ensures var v, t := ViewOf(Answer(true, [], last), listed[i]), ViewOf(Polled(listed, poll, last), listed[i]);
      && t.known == (v.known || Taken(poll, i))
      && t.counter == (if Taken(poll, i) then poll[i].value else v.counter)
      && t.count == (if Whole(poll) && Taken(poll, i) && v.known && poll[i].value != v.counter then 1 else 0)
    decreases |listed|
  {
    var n := |listed| - 1;
    var front := Polled(listed[..n], poll[..n], last);
    OkIffWhole(listed[..n], poll[..n], last);
    OkIffWhole(listed, poll, last);
    LookFacts(front, listed[n], poll[n], listed[i]);
    if i == n {
      Unlisted(listed[..n], poll[..n], last, listed[i]);
    } else {
      ReportsWhatMoved(listed[..n], poll[..n], last, i);
      assert poll[..n][..i] == poll[..i];
      assert Whole(poll) <==> Whole(poll[..n]) && !poll[n].Broken?;
    }
  }

  // ---------- any run of polls ----------

  /** All reports of a run of polls, in the order their answers came. */
  function Reports(listed: seq<Ticker>, last: map<Ticker, nat>, polls: seq<Poll>): seq<Ticker>
    requires forall k :: 0 <= k < |polls| ==> |polls[k]| == |listed|
    decreases |polls|
  {
    if polls == [] then []
    else
      var a := Polled(listed, polls[0], last);
      a.moved + Reports(listed, a.last, polls[1..])
  }

  /** One taken reading of a counter, and whether its poll lasted to the end. */
  datatype Reading = Reading(value: nat, kept: bool)

  /** The taken readings of market i. */
  ghost function Readings(polls: seq<Poll>, i: nat): seq<Reading>
    requires forall k :: 0 <= k < |polls| ==> i < |polls[k]|
  {
    if polls == [] then []
    else
      (if Taken(polls[0], i) then [Reading(polls[0][i].value, Whole(polls[0]))] else []) + Readings(polls[1..], i)
  }

  /** How many readings differ from the one before and were kept. */
  ghost function Changes(known: Option<nat>, readings: seq<Reading>): nat
    decreases |readings|
  {
    if readings == [] then 0
    else
      (if known.Some? && readings[0].value != known.value && readings[0].kept then 1 else 0)
        + Changes(Some(readings[0].value), readings[1..])
  }

  function Known(last: map<Ticker, nat>, t: Ticker): Option<nat> {
    if t in last then Some(last[t]) else None
  }

  /**
   * Over any run of polls, in any order of their answers, a market is reported
   * exactly as often as a reading of its counter differs from the reading before
   * it in a poll that did not throw.
   */
  lemma {:induction false} ReportsAreChanges(listed: seq<Ticker>, last: map<Ticker, nat>, polls: seq<Poll>, i: nat)
    requires Distinct(listed) && i < |listed|
    requires forall k :: 0 <= k < |polls| ==> |polls[k]| == |listed|
    ensures Count(Reports(listed, last, polls), listed[i]) == Changes(Known(last, listed[i]), Readings(polls, i))
    decreases |polls|
  {
    if polls != [] {
      var t := listed[i];
      var a := Polled(listed, polls[0], last);
      var more := Reports(listed, a.last, polls[1..]);
      assert Count(a.moved + more, t) == Count(a.moved, t) + Count(more, t);
      ReportsWhatMoved(listed, polls[0], last, i);
      assert Count([], t) == 0;
      ReportsAreChanges(listed, a.last, polls[1..], i);
      if Taken(polls[0], i) {
        var r := Reading(polls[0][i].value, Whole(polls[0]));
        assert Readings(polls, i)[0] == r && Readings(polls, i)[1..] == Readings(polls[1..], i);
        assert Known(a.last, t) == Some(r.value);
      } else {
        assert Readings(polls, i) == Readings(polls[1..], i);
      }
    }
  }

  // ---------- answers in order, nothing thrown ----------

  function Values(readings: seq<Reading>): (r: seq<nat>)
    ensures |r| == |readings|
    ensures forall k :: 0 <= k < |readings| ==> r[k] == readings[k].value
  {
    seq(|readings|, k requires 0 <= k < |readings| => readings[k].value)
  }

  ghost predicate Rising(s: seq<nat>) {
    forall i, j :: 0 <= i < j < |s| ==> s[i] <= s[j]
  }

  ghost predicate AllKept(readings: seq<Reading>) {
    forall k :: 0 <= k < |readings| ==> readings[k].kept
  }

  lemma {:induction false} RisingChanges(first: nat, readings: seq<Reading>)
    requires AllKept(readings) && Rising([first] + Values(readings))
    ensures var seen := [first] + Values(readings); var n := Changes(Some(first), readings);
      n <= seen[|seen|-1] - first && (n > 0 <==> seen[|seen|-1] != first)
    decreases |readings|
  {
    if readings != [] {
      var seen := [first] + Values(readings);
      var later := [readings[0].value] + Values(readings[1..]);
      assert seen == [first] + later;
      assert seen[0] <= seen[1] <= seen[|seen|-1] == later[|later|-1];
      RisingTail([first], later);
      RisingChanges(readings[0].value, readings[1..]);
    }
  }

  /**
   * When answers come in order and none throws: a market whose counter is known
   * is reported at least once exactly when the counter has moved by the last
   * reading, and at most once per new order.
   */
  lemma {:induction false} ReportedIffMoved(listed: seq<Ticker>, last: map<Ticker, nat>, polls: seq<Poll>, i: nat)
    requires Distinct(listed) && i < |listed| && listed[i] in last
    requires forall k :: 0 <= k < |polls| ==> |polls[k]| == |listed|
    requires AllKept(Readings(polls, i)) && Rising([last[listed[i]]] + Values(Readings(polls, i)))
    ensures var seen := [last[listed[i]]] + Values(Readings(polls, i));
      var n := Count(Reports(listed, last, polls), listed[i]);
      n <= seen[|seen|-1] - seen[0] && (n > 0 <==> seen[|seen|-1] != seen[0])
  {
    ReportsAreChanges(listed, last, polls, i);
    RisingChanges(last[listed[i]], Readings(polls, i));
  }

  lemma {:induction false} RisingTail(a: seq<nat>, b: seq<nat>)
    requires Rising(a + b)
    ensures Rising(b)
  {
    forall i, j | 0 <= i < j < |b|
      ensures b[i] <= b[j]
    {
      assert (a + b)[|a| + i] <= (a + b)[|a| + j];
    }
  }

  // ---------- what goes wrong otherwise ----------

  lemma {:induction false} OneMarket(t: Ticker, known: nat, n: nat)
    ensures Polled([t], [Counter(n)], map[t := known])
         == Answer(true, if n != known then [t] else [], map[t := n])
  {
    assert [t][..0] == [] && [Counter(n)][..0] == [];
    assert Polled([], [], map[t := known]) == Answer(true, [], map[t := known]);
    assert [] + [t] == [t];
  }

  /** Answers out of order: one new order, told as three. */
  lemma {:induction false} LateAnswerRepeats(t: Ticker)
    ensures Reports([t], map[t := 5], [[Counter(6)], [Counter(5)], [Counter(6)]]) == [t, t, t]
  {
    OneMarket(t, 5, 6);
    OneMarket(t, 6, 5);
    var polls := [[Counter(6)], [Counter(5)], [Counter(6)]];
    assert polls[1..] == [[Counter(5)], [Counter(6)]] && polls[1..][1..] == [[Counter(6)]];
    assert polls[1..][1..][1..] == [];
    assert Reports([t], map[t := 6], []) == [];
  }

  /** A poll that remembers t's new counter and then throws over another market: the order is never reported. */
  lemma {:induction false} BrokenHidesOrder(t: Ticker, u: Ticker)
    requires t != u
    ensures var polls := [[Counter(6), Broken], [Counter(6), Missing]];
      Count(Reports([t, u], map[t := 5], polls), t) == 0
  {
    var polls: seq<Poll> := [[Counter(6), Broken], [Counter(6), Missing]];
    ReportsAreChanges([t, u], map[t := 5], polls, 0);
    assert polls[1..] == [polls[1]] && polls[1..][1..] == [];
    assert polls[0][1].Broken? && !Whole(polls[0]);
    assert Taken(polls[0], 0) && Taken(polls[1], 0);
    var last := Reading(6, Whole(polls[1]));
    assert Readings(polls[1..], 0) == [last] && [last][1..] == [];
    assert Readings(polls, 0) == [Reading(6, false), last];
    assert Readings(polls, 0)[1..] == [last];
    assert Changes(Some(6), [last]) == 0;
  }

  /** What a poll reports is swept: whatever happens next, a pass of it has begun since or is still due. */
  lemma {:induction false} ReportIsSwept(
      listed: seq<Ticker>, poll: Poll, last: map<Ticker, nat>, s: State, es: seq<Event>, i: nat)
    requires |listed| == |poll| && Distinct(listed) && i < |listed| && SingleFlight(s)
    requires Whole(poll) && poll[i].Counter? && listed[i] in last && last[listed[i]] != poll[i].value
    ensures var moved := Polled(listed, poll, last).moved;
      ServedOrDue(s, Run(listed, Step(listed, s, Trigger(moved)), es), listed[i])
  {
    ReportsWhatMoved(listed, poll, last, i);
    var moved := Polled(listed, poll, last).moved;
    assert listed[i] in moved;
    TriggerIsNotLost(listed, s, moved, es, listed[i]);
  }
}
