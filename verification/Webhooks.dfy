// Webhook ingest: dedupe deliveries by an atomic claim and wake the owning
// intent by compare-and-swap. Ingests run concurrently, interleaved at awaits.
module Webhooks {
  import opened Common

  datatype Source = Msb | Broker | Custodian

  function SourceName(s: Source): string {
    match s
    case Msb => "msb"
    case Broker => "broker"
    case Custodian => "custodian"
  }

  type Key = string

  function EventKey(source: Source, deliveryId: string): Key { SourceName(source) + ":" + deliveryId }

  datatype Event = Event(deliveryId: string, clientRef: Option<string>)

  datatype IntentState = Waiting | Running | Other(name: string)

  /** An intent; `rest` is everything a wake never touches. */
  datatype Intent = Intent(state: IntentState, nextAttemptAt: Option<string>, version: nat, rest: string)

  predicate Wakeable(i: Intent) { i.state == Waiting || i.state == Running }

  /** The part of a client reference before its first dot. */
  function Stem(s: string): string {
    if s == "" || s[0] == '.' then "" else [s[0]] + Stem(s[1..])
  }

  /** The intent an event belongs to; none for a missing reference or an empty stem. */
  function Target(e: Event): Option<string> {
    if e.clientRef.None? || Stem(e.clientRef.value) == "" then None else Some(Stem(e.clientRef.value))
  }

  /** What saving a woken intent stores. */
  function Woken(i: Intent, now: string): Intent {
    i.(nextAttemptAt := Some(now), version := i.version + 1)
  }

  // ---------- one ingest at a time ----------

  datatype Store = Store(claimed: set<Key>, intents: map<string, Intent>)

  datatype Result = Result(accepted: nat, duplicates: nat, woken: seq<string>)

  const NOTHING := Result(0, 0, [])

  function WakeIn(intents: map<string, Intent>, e: Event, now: string): (map<string, Intent>, Option<string>) {
    var t := Target(e);
    if t.Some? && t.value in intents && Wakeable(intents[t.value]) then
      (intents[t.value := Woken(intents[t.value], now)], t)
    else (intents, None)
  }

  function IngestOne(s: Store, r: Result, source: Source, e: Event, now: string): (Store, Result) {
    var key := EventKey(source, e.deliveryId);
    if key in s.claimed then (s, r.(duplicates := r.duplicates + 1))
    else
      var w := WakeIn(s.intents, e, now);
      (Store(s.claimed + {key}, w.0),
       r.(accepted := r.accepted + 1, woken := if w.1.Some? then r.woken + [w.1.value] else r.woken))
  }

  /** The whole batch; clock[k] is what the clock reads when event k wakes its intent. */
  function IngestAll(s: Store, r: Result, source: Source, es: seq<Event>, clock: seq<string>): (Store, Result)
    requires |clock| == |es|
    decreases |es|
  {
    if es == [] then (s, r)
    else
      var one := IngestOne(s, r, source, es[0], clock[0]);
      IngestAll(one.0, one.1, source, es[1..], clock[1..])
  }

  class WebhookIngest {
    var claimed: set<Key>
    var intents: map<string, Intent>

    function Now(): Store
      reads this
    {
      Store(claimed, intents)
    }

    constructor (intents: map<string, Intent>)
      ensures Now() == Store({}, intents)
    {
      claimed, this.intents := {}, intents;
    }

    method Claim(key: Key) returns (isNew: bool)
      modifies this`claimed
      ensures isNew == (key !in old(claimed)) && claimed == old(claimed) + {key}
    {
      isNew := key !in claimed;
      claimed := claimed + {key};
    }

    method Wake(e: Event, now: string) returns (id: Option<string>)
      modifies this`intents
      ensures (intents, id) == WakeIn(old(intents), e, now)
    {
      var t := Target(e);
      if t.None? || t.value !in intents {
        return None;
      }
      var intent := intents[t.value];
      if intent.state != Waiting && intent.state != Running {
        return None;
      }
      intents := intents[t.value := Woken(intent, now)];
      return t;
    }

    method Ingest(source: Source, es: seq<Event>, clock: seq<string>) returns (r: Result)
      requires |clock| == |es|
      modifies this
      ensures (Now(), r) == IngestAll(old(Now()), NOTHING, source, es, clock)
    {
      r := NOTHING;
      for k := 0 to |es|
        invariant IngestAll(Now(), r, source, es[k..], clock[k..]) == IngestAll(old(Now()), NOTHING, source, es, clock)
      {
        var e := es[k];
        assert es[k..][0] == e && es[k..][1..] == es[k+1..];
        assert clock[k..][0] == clock[k] && clock[k..][1..] == clock[k+1..];
        ghost var before := Now();
        ghost var r0 := r;
        var key := EventKey(source, e.deliveryId);
        var isNew := Claim(key);
        if !isNew {
          assert claimed == before.claimed;
          r := r.(duplicates := r.duplicates + 1);
        } else {
          var id := Wake(e, clock[k]);
          r := r.(accepted := r.accepted + 1, woken := if id.Some? then r.woken + [id.value] else r.woken);
        }
        assert (Now(), r) == IngestOne(before, r0, source, e, clock[k]);
      }
    }
  }

  /** The intent as a wake at that time leaves it, field by field. */
  ghost predicate IsWoken(was: Intent, i: Intent, now: string) {
    i.state == was.state && i.rest == was.rest && i.nextAttemptAt == Some(now) && i.version == was.version + 1
  }

  /** The intents before and after, of which this one alone was woken. */
  ghost predicate OnlyWoken(was: map<string, Intent>, after: map<string, Intent>, id: string, now: string) {
    && after.Keys == was.Keys && id in was && IsWoken(was[id], after[id], now)
    && forall x :: x in was && x != id ==> after[x] == was[x]
  }

  /** A wake changes the next attempt and the version of its target, if it stands waiting or running, and no more. */
  lemma {:induction false} WakeIsLocal(intents: map<string, Intent>, e: Event, now: string)
    ensures var w := WakeIn(intents, e, now); var t := Target(e);
      if t.Some? && t.value in intents && intents[t.value].state in {Waiting, Running}
      then w.1 == t && OnlyWoken(intents, w.0, t.value, now)
      else w.1 == None && w.0 == intents
  {
    var t := Target(e);
    if t.Some? && t.value in intents && Wakeable(intents[t.value]) {
      assert WakeIn(intents, e, now).0.Keys == intents.Keys;
    }
  }

  /**
   * One event of a batch: a key claimed before is counted as a duplicate and
   * changes nothing; a new one is claimed and accepted, and its intent, and no
   * other, woken and listed if it stands waiting or running.
   */
  lemma {:induction false} IngestOneIsLocal(s: Store, r: Result, source: Source, e: Event, now: string)
    ensures var key := EventKey(source, e.deliveryId); var t := Target(e); var one := IngestOne(s, r, source, e, now);
      if key in s.claimed then one == (s, Result(r.accepted, r.duplicates + 1, r.woken))
      else
        && one.0.claimed == s.claimed + {key}
        && one.1.accepted == r.accepted + 1 && one.1.duplicates == r.duplicates
        && if t.Some? && t.value in s.intents && s.intents[t.value].state in {Waiting, Running}
           then one.1.woken == r.woken + [t.value] && OnlyWoken(s.intents, one.0.intents, t.value, now)
           else one.1.woken == r.woken && one.0.intents == s.intents
  {
    WakeIsLocal(s.intents, e, now);
  }

  /** A reference is its intent's id, alone or with a dot and anything behind it. */
  lemma {:induction false} StemIsBeforeDot(id: string, tail: string)
    requires '.' !in id
    ensures Stem(id) == id && Stem(id + "." + tail) == id
  {
    if id != "" {
      StemIsBeforeDot(id[1..], tail);
      assert id[0] in id && (id + "." + tail)[1..] == id[1..] + "." + tail;
      assert [id[0]] + id[1..] == id;
    }
  }

  /** Two deliveries share a key exactly when source and delivery id agree. */
  lemma {:induction false} KeysAreExact(s1: Source, d1: string, s2: Source, d2: string)
    ensures EventKey(s1, d1) == EventKey(s2, d2) <==> s1 == s2 && d1 == d2
  {
    var k1, k2 := EventKey(s1, d1), EventKey(s2, d2);
    assert k1[0] == SourceName(s1)[0] && k2[0] == SourceName(s2)[0];
    if s1 == s2 && k1 == k2 {
      var n := |SourceName(s1)| + 1;
      assert k1[n..] == d1 && k2[n..] == d2;
    }
  }

  lemma {:induction false} AllClaimed(s: Store, r: Result, source: Source, es: seq<Event>, clock: seq<string>)
    requires |clock| == |es|
    ensures var end := IngestAll(s, r, source, es, clock);
      && s.claimed <= end.0.claimed
      && (forall k :: 0 <= k < |es| ==> EventKey(source, es[k].deliveryId) in end.0.claimed)
      && end.1.accepted + end.1.duplicates == r.accepted + r.duplicates + |es|
    decreases |es|
  {
    if es != [] {
      var one := IngestOne(s, r, source, es[0], clock[0]);
      AllClaimed(one.0, one.1, source, es[1..], clock[1..]);
    }
  }

  lemma {:induction false} DuplicatesAreInert(s: Store, r: Result, source: Source, es: seq<Event>, clock: seq<string>)
    requires |clock| == |es|
    requires forall k :: 0 <= k < |es| ==> EventKey(source, es[k].deliveryId) in s.claimed
    ensures IngestAll(s, r, source, es, clock) == (s, r.(duplicates := r.duplicates + |es|))
    decreases |es|
  {
    if es != [] {
      DuplicatesAreInert(s, r.(duplicates := r.duplicates + 1), source, es[1..], clock[1..]);
    }
  }

  /** Replaying a batch changes nothing and counts every event as a duplicate. */
  lemma {:induction false} ReplayIsInert(
      s: Store, source: Source, es: seq<Event>, clock: seq<string>, later: seq<string>)
    requires |clock| == |es| == |later|
    ensures var first := IngestAll(s, NOTHING, source, es, clock);
      IngestAll(first.0, NOTHING, source, es, later) == (first.0, Result(0, |es|, []))
  {
    AllClaimed(s, NOTHING, source, es, clock);
    DuplicatesAreInert(IngestAll(s, NOTHING, source, es, clock).0, NOTHING, source, es, later);
  }

  // ---------- concurrent ingests ----------

  /** Where a call of ingest waits: for its next claim, for the intent, or for the save. */
  datatype Phase = Claiming | Loading(id: string) | Saving(id: string, read: Intent) | Thrown

  /** One call: its events still to do (the current one first), and its counters. */
  datatype Call = Call(source: Source, total: nat, todo: seq<Event>, phase: Phase, r: Result)

  /** log lists every key in the order it was accepted. */
  datatype World = World(store: Store, calls: seq<Call>, log: seq<Key>)

  datatype Action =
    | Arrive(source: Source, es: seq<Event>)     // a verified delivery comes in
    | Resume(k: nat, now: string)                // call k runs to its next await
    | Saga(id: string, intent: Intent)           // another writer saves an intent
    | Create(id: string, intent: Intent)

  predicate Shaped(c: Call) {
    !c.phase.Claiming? ==> c.todo != []
  }

  function NextEvent(c: Call): Call
    requires c.todo != []
  {
    c.(todo := c.todo[1..], phase := Claiming)
  }

  /** Call c at one of its awaits, with the store as it is then. */
  function Advance(s: Store, c: Call, now: string): (Store, Call)
    requires Shaped(c)
  {
    match c.phase
    case Thrown => (s, c)
    case Claiming =>
      if c.todo == [] then (s, c)
      else
        var e := c.todo[0];
        var key := EventKey(c.source, e.deliveryId);
        if key in s.claimed then (s, NextEvent(c).(r := c.r.(duplicates := c.r.duplicates + 1)))
        else
          var took := c.(r := c.r.(accepted := c.r.accepted + 1));
          (s.(claimed := s.claimed + {key}),
           if Target(e).Some? then took.(phase := Loading(Target(e).value)) else NextEvent(took))
    case Loading(id) =>
      if id in s.intents && Wakeable(s.intents[id]) then (s, c.(phase := Saving(id, s.intents[id])))
      else (s, NextEvent(c))
    case Saving(id, read) =>
      if id in s.intents && s.intents[id].version == read.version then
        (s.(intents := s.intents[id := Woken(read, now)]),
         NextEvent(c).(r := c.r.(woken := c.r.woken + [id])))
      else (s, c.(phase := Thrown))
  }

  /** Call c run to its end with nothing else in between; clock goes with the events to do. */
  function Alone(s: Store, c: Call, clock: seq<string>): (Store, Call)
    requires Shaped(c) && |clock| == |c.todo|
    decreases |c.todo|, match c.phase case Claiming => 2 case Loading(_) => 1 case _ => 0
  {
    if c.todo == [] || c.phase.Thrown? then (s, c)
    else
      var next := Advance(s, c, clock[0]);
      if next.1.phase.Thrown? then next
      else Alone(next.0, next.1, if |next.1.todo| < |clock| then clock[1..] else clock)
  }

  /** With no other writer the awaits do not show: a call is one sequential ingest. */
  lemma {:induction false} AloneIsSequential(s: Store, c: Call, clock: seq<string>)
    requires c.phase.Claiming? && |clock| == |c.todo|
    ensures var end := Alone(s, c, clock);
      && (end.0, end.1.r) == IngestAll(s, c.r, c.source, c.todo, clock)
      && end.1.todo == [] && end.1.phase == Claiming
    decreases |c.todo|
  {
    if c.todo != [] {
      var now := clock[0];
      var claim := Advance(s, c, now);
      if claim.1.phase.Claiming? {
        AloneIsSequential(claim.0, claim.1, clock[1..]);
      } else {
        assert Alone(s, c, clock) == Alone(claim.0, claim.1, clock);
        var load := Advance(claim.0, claim.1, now);
        if load.1.phase.Claiming? {
          AloneIsSequential(load.0, load.1, clock[1..]);
        } else {
          assert Alone(claim.0, claim.1, clock) == Alone(load.0, load.1, clock);
          var save := Advance(load.0, load.1, now);
          assert !save.1.phase.Thrown?;
          assert Alone(load.0, load.1, clock) == Alone(save.0, save.1, clock[1..]);
          AloneIsSequential(save.0, save.1, clock[1..]);
        }
      }
    }
  }

  function Step(w: World, a: Action): World
    requires forall k :: 0 <= k < |w.calls| ==> Shaped(w.calls[k])
  {
    match a
    case Arrive(source, es) => w.(calls := w.calls + [Call(source, |es|, es, Claiming, NOTHING)])
    case Resume(k, now) =>
      if k >= |w.calls| then w
      else
        assert Shaped(w.calls[k]);
        var next := Advance(w.store, w.calls[k], now);
        World(next.0, w.calls[k := next.1],
              if next.0.claimed != w.store.claimed
              then w.log + [EventKey(w.calls[k].source, w.calls[k].todo[0].deliveryId)] else w.log)
    case Saga(id, intent) =>
      if id in w.store.intents
      then w.(store := w.store.(intents := w.store.intents[id := intent.(version := w.store.intents[id].version + 1)]))
      else w
    case Create(id, intent) =>
      if id in w.store.intents then w
      else w.(store := w.store.(intents := w.store.intents[id := intent]))
  }

  function Processed(c: Call): int {
    c.total - |c.todo| + if c.phase.Claiming? then 0 else 1
  }

  /** A call counts every event it has processed once, and its snapshot is current if its version is. */
  ghost predicate CallSound(s: Store, c: Call) {
    && Shaped(c) && |c.todo| <= c.total
    && c.r.accepted + c.r.duplicates == Processed(c)
    && (!c.phase.Claiming? ==> EventKey(c.source, c.todo[0].deliveryId) in s.claimed)
    && (c.phase.Saving? ==>
          && Wakeable(c.phase.read)
          && c.phase.id in s.intents && s.intents[c.phase.id].version >= c.phase.read.version
          && (s.intents[c.phase.id].version == c.phase.read.version ==> s.intents[c.phase.id] == c.phase.read))
  }

  function Accepted(calls: seq<Call>): nat {
    if calls == [] then 0 else Accepted(calls[..|calls|-1]) + calls[|calls|-1].r.accepted
  }

  ghost predicate Sound(w: World) {
    && (forall k :: 0 <= k < |w.calls| ==> CallSound(w.store, w.calls[k]))
    && Distinct(w.log)
    && (forall x :: x in w.log ==> x in w.store.claimed)
    && Accepted(w.calls) == |w.log|
  }

  lemma {:induction false} AcceptedUpdate(calls: seq<Call>, k: nat, c: Call)
    requires k < |calls|
    ensures Accepted(calls[k := c]) == Accepted(calls) - calls[k].r.accepted + c.r.accepted
    decreases |calls|
  {
    var n := |calls| - 1;
    if k == n {
      assert calls[k := c][..n] == calls[..n];
    } else {
      assert calls[k := c][..n] == calls[..n][k := c];
      AcceptedUpdate(calls[..n], k, c);
    }
  }

  /** How the store may move: claims grow; an intent that changes gets a higher version. */
  ghost predicate Moves(a: Store, b: Store) {
    && a.claimed <= b.claimed
    && (forall id :: id in a.intents ==>
          && id in b.intents
          && (b.intents[id] == a.intents[id] || b.intents[id].version > a.intents[id].version))
  }

  lemma {:induction false} CallStaysSound(a: Store, b: Store, c: Call)
    requires CallSound(a, c) && Moves(a, b)
    ensures CallSound(b, c)
  {
  }

  lemma {:induction false} AdvanceIsSound(s: Store, c: Call, now: string)
    requires CallSound(s, c)
    ensures var next := Advance(s, c, now);
      && CallSound(next.0, next.1) && Moves(s, next.0)
      && next.1.r.accepted == c.r.accepted + (if next.0.claimed != s.claimed then 1 else 0)
      && (next.0.claimed != s.claimed ==>
            && c.todo != []
            && var key := EventKey(c.source, c.todo[0].deliveryId);
            key !in s.claimed && next.0.claimed == s.claimed + {key})
  {
  }

  lemma {:induction false} CallsStaySound(a: Store, b: Store, calls: seq<Call>)
    requires Moves(a, b) && forall k :: 0 <= k < |calls| ==> CallSound(a, calls[k])
    ensures forall k :: 0 <= k < |calls| ==> CallSound(b, calls[k])
  {
    forall k | 0 <= k < |calls|
      ensures CallSound(b, calls[k])
    {
      CallStaysSound(a, b, calls[k]);
    }
  }

  lemma {:induction false} ResumeIsSound(w: World, k: nat, now: string)
    requires Sound(w) && k < |w.calls|
    ensures var after := Step(w, Resume(k, now)); Sound(after) && Moves(w.store, after.store)
  {
    var next := Advance(w.store, w.calls[k], now);
    AdvanceIsSound(w.store, w.calls[k], now);
    AcceptedUpdate(w.calls, k, next.1);
    CallsStaySound(w.store, next.0, w.calls);
  }

  lemma {:induction false} StepIsSound(w: World, a: Action)
    requires Sound(w)
    ensures Sound(Step(w, a)) && Moves(w.store, Step(w, a).store)
  {
    var after := Step(w, a);
    match a
    case Arrive(source, es) =>
      assert after.calls[..|w.calls|] == w.calls;
    case Resume(k, now) =>
      if k < |w.calls| {
        ResumeIsSound(w, k, now);
      }
    case Saga(_, _) =>
      CallsStaySound(w.store, after.store, w.calls);
    case Create(_, _) =>
      CallsStaySound(w.store, after.store, w.calls);
  }

  function Run(w: World, actions: seq<Action>): World
    requires Sound(w)
    decreases |actions|
  {
    if actions == [] then w
    else
      StepIsSound(w, actions[0]);
      Run(Step(w, actions[0]), actions[1..])
  }

  /**
   * Over any interleaving of concurrent and replayed ingests: no key is ever
   * accepted twice, the accepted counters add up to the keys accepted, and each
   * call's accepted + duplicates is the number of events it has processed.
   */
  lemma {:induction false} AcceptedOnce(w: World, actions: seq<Action>)
    requires Sound(w)
    ensures Sound(Run(w, actions))
    decreases |actions|
  {
    if actions != [] {
      StepIsSound(w, actions[0]);
      AcceptedOnce(Step(w, actions[0]), actions[1..]);
    }
  }

  /** A call that ran through has accounted for its whole batch. */
  lemma {:induction false} CountsAddUp(w: World, actions: seq<Action>, k: nat)
    requires Sound(w) && k < |Run(w, actions).calls|
    ensures var c := Run(w, actions).calls[k];
      c.todo == [] ==> c.r.accepted + c.r.duplicates == c.total
  {
    AcceptedOnce(w, actions);
  }

  /**
   * A resumed call changes intents only by waking one: the stored intent is
   * waiting or running, is exactly the one it read, and only its next attempt
   * and version change. No other writer's save is ever overwritten.
   */
  lemma {:induction false} WakesAreCompareAndSwap(w: World, k: nat, now: string)
    requires Sound(w) && k < |w.calls| && Step(w, Resume(k, now)).store.intents != w.store.intents
    ensures w.calls[k].phase.Saving?
    ensures var id := w.calls[k].phase.id; var after := Step(w, Resume(k, now)).store;
      && id in w.store.intents && w.store.intents[id].state in {Waiting, Running}
      && w.store.intents[id] == w.calls[k].phase.read
      && OnlyWoken(w.store.intents, after.intents, id, now) && after.claimed == w.store.claimed
      && Step(w, Resume(k, now)).calls[k].r == w.calls[k].r.(woken := w.calls[k].r.woken + [id])
  {
    assert CallSound(w.store, w.calls[k]);
  }

  /**
   * A wake that has read its intent is stored exactly when nobody saved that
   * intent since; otherwise the call throws and the store stays as it is.
   */
  lemma {:induction false} WakeIsStoredIff(w: World, k: nat, now: string)
    requires Sound(w) && k < |w.calls| && w.calls[k].phase.Saving?
    ensures var c := w.calls[k]; var id := c.phase.id; var after := Step(w, Resume(k, now));
      && id in w.store.intents
      && (w.store.intents[id].version == c.phase.read.version <==>
            after.calls[k].phase != Thrown && id in after.store.intents
            && IsWoken(w.store.intents[id], after.store.intents[id], now))
      && (w.store.intents[id].version != c.phase.read.version ==>
            after.calls[k].phase == Thrown && after.store == w.store)
  {
    assert CallSound(w.store, w.calls[k]);
  }

  /** After a lost race the redelivery is a duplicate: its delivery is claimed already. */
  lemma {:induction false} LostRaceLosesWake(w: World, k: nat, now: string)
    requires Sound(w) && k < |w.calls| && w.calls[k].phase.Saving?
    requires w.store.intents[w.calls[k].phase.id].version != w.calls[k].phase.read.version
    ensures var after := Step(w, Resume(k, now));
      && after.store == w.store && after.calls[k].phase == Thrown
      && IngestAll(after.store, NOTHING, w.calls[k].source, [w.calls[k].todo[0]], [now])
           == (w.store, Result(0, 1, []))
  {
    assert CallSound(w.store, w.calls[k]);
    DuplicatesAreInert(w.store, NOTHING, w.calls[k].source, [w.calls[k].todo[0]], [now]);
  }

  // ---------- when a wake is lost in effect ----------

  /** The order of time stamps, which is that of their texts. */
  predicate NotAfter(a: string, b: string) {
    a == "" || (b != "" && (a[0] < b[0] || (a[0] == b[0] && NotAfter(a[1..], b[1..]))))
  }

  /** The states the runner takes up. */
  predicate Claimable(i: Intent) {
    Wakeable(i) || i.state == Other("PENDING") || i.state == Other("UNWINDING")
  }

  /** The runner would take the intent up at that time; no next attempt means at once. */
  predicate Due(i: Intent, time: string) {
    Claimable(i) && (i.nextAttemptAt.None? || NotAfter(i.nextAttemptAt.value, time))
  }

  /**
   * A wake made at `now` is lost in effect, the intent not being due at some later
   * time, exactly when another writer saved the intent first and left it not due.
   */
  lemma {:induction false} WakeIsLostIff(w: World, k: nat, now: string, later: string)
    requires Sound(w) && k < |w.calls| && w.calls[k].phase.Saving? && NotAfter(now, later)
    ensures var c := w.calls[k]; var id := c.phase.id; var after := Step(w, Resume(k, now));
      && id in w.store.intents && id in after.store.intents
      && (!Due(after.store.intents[id], later) <==>
            w.store.intents[id].version != c.phase.read.version && !Due(w.store.intents[id], later))
  {
    assert CallSound(w.store, w.calls[k]);
  }

  // ---------- a run in which the wake is lost ----------

  const EMPTY := World(Store({}, map[]), [], [])

  /** As the watcher creates an intent, and as the runner saves it: taken up, waiting, waiting on. */
  const CREATED := Intent(Other("PENDING"), Some("t0"), 1, "")
  const RUNNING := Intent(Running, Some("t0"), 1, "")
  const WAITING := Intent(Waiting, Some("t1"), 2, "")
  const PARKED := WAITING.(version := 3)
  const AGAIN := Intent(Waiting, Some("t9"), 3, "")

  const DELIVERY := [Event("d", Some("i.1"))]

  const WAITED := [Create("i", CREATED)] + [Saga("i", RUNNING)] + [Saga("i", WAITING)]

  /** An event for the waiting intent is claimed, and the intent read. */
  const READ := WAITED + [Arrive(Msb, DELIVERY)] + [Resume(0, "t4")] + [Resume(0, "t4")]

  /** Then the runner's own poll puts the intent off, and the wake saves what it read. */
  const RACE := READ + [Saga("i", AGAIN)] + [Resume(0, "t5")]

  /** The call after its read. */
  const READER := Call(Msb, 1, DELIVERY, Saving("i", PARKED), Result(1, 0, []))

  lemma {:induction false} EmptyIsSound()
    ensures Sound(EMPTY)
  {
  }

  lemma {:induction false} StemOfRef()
    ensures Target(DELIVERY[0]) == Some("i")
  {
    assert "i.1"[1..] == ".1";
    assert Stem(".1") == "";
    assert ["i"[0]] + "" == "i";
  }

  lemma {:induction false} RunSnoc(w: World, actions: seq<Action>, a: Action)
    requires Sound(w)
    ensures Sound(Run(w, actions)) && Run(w, actions + [a]) == Step(Run(w, actions), a)
    decreases |actions|
  {
    if actions == [] {
      StepIsSound(w, a);
      assert [] + [a] == [a] && [a][1..] == [];
    } else {
      StepIsSound(w, actions[0]);
      assert (actions + [a])[0] == actions[0] && (actions + [a])[1..] == actions[1..] + [a];
      RunSnoc(Step(w, actions[0]), actions[1..], a);
    }
  }

  lemma {:induction false} RunToWait()
    ensures Sound(EMPTY)
    ensures Run(EMPTY, WAITED) == World(Store({}, map["i" := PARKED]), [], [])
  {
    EmptyIsSound();
    var a := [Create("i", CREATED)];
    RunSnoc(EMPTY, [], a[0]);
    assert [] + a == a;
    RunSnoc(EMPTY, a, Saga("i", RUNNING));
    RunSnoc(EMPTY, a + [Saga("i", RUNNING)], Saga("i", WAITING));
  }

  lemma {:induction false} RunToRead()
    ensures Sound(EMPTY)
    ensures Run(EMPTY, READ)
         == World(Store({EventKey(Msb, "d")}, map["i" := PARKED]), [READER], [EventKey(Msb, "d")])
  {
    RunToWait();
    StemOfRef();
    RunSnoc(EMPTY, WAITED, Arrive(Msb, DELIVERY));
    var b := WAITED + [Arrive(Msb, DELIVERY)];
    assert Run(EMPTY, b) == World(Store({}, map["i" := PARKED]), [Call(Msb, 1, DELIVERY, Claiming, NOTHING)], []);
    RunSnoc(EMPTY, b, Resume(0, "t4"));
    var w3 := Run(EMPTY, b + [Resume(0, "t4")]);
    assert w3.calls == [Call(Msb, 1, DELIVERY, Loading("i"), Result(1, 0, []))];
    assert w3.store.claimed == {EventKey(Msb, "d")} && w3.log == [EventKey(Msb, "d")];
    RunSnoc(EMPTY, b + [Resume(0, "t4")], Resume(0, "t4"));
  }

  lemma {:induction false} TimeOrder()
    ensures !NotAfter("t9", "t5") && NotAfter("t5", "t5")
  {
    assert "t9"[1..] == "9" && "t5"[1..] == "5";
    assert "9"[1..] == "" && "5"[1..] == "";
    assert NotAfter("", "") && NotAfter("5", "5") && !NotAfter("9", "5");
  }

  /**
   * The intent ends waiting until t9, as the runner left it, and is not due at t5,
   * when the wake would have made it so; the call has thrown, and the redelivery
   * is dropped as a duplicate.
   */
  lemma {:induction false} WakeCanBeLost()
    ensures Sound(EMPTY)
    ensures var end := Run(EMPTY, RACE); var left := AGAIN.(version := 4);
      && end.calls == [READER.(phase := Thrown)]
      && end.store == Store({EventKey(Msb, "d")}, map["i" := left])
      && !Due(left, "t5") && Due(Woken(PARKED, "t5"), "t5")
      && IngestAll(end.store, NOTHING, Msb, DELIVERY, ["u"]) == (end.store, Result(0, 1, []))
  {
    RunToRead();
    TimeOrder();
    RunSnoc(EMPTY, READ, Saga("i", AGAIN));
    RunSnoc(EMPTY, READ + [Saga("i", AGAIN)], Resume(0, "t5"));
    DuplicatesAreInert(Run(EMPTY, RACE).store, NOTHING, Msb, DELIVERY, ["u"]);
  }
}
