// recentDeposits: a pool of up to five workers over one shared index, with a
// persistent cache of decoded records (a decoded "nothing here" included).
module Feed {
  import opened Common

  type Sig = string

  /** A deposit record; `at` is the block time, absent on some nodes. */
  datatype Rec = Rec(signature: Sig, wallet: string, amount: nat, total: nat, at: Option<int>)

  /** One entry of recs: not assigned yet, or a record or null. */
  datatype Slot = Unset | Got(rec: Option<Rec>)

  /** next is the shared index; waiting holds, per worker in flight, the index whose transaction it awaits. */
  datatype Pool = Pool(next: nat, recs: seq<Slot>, cache: map<Sig, Option<Rec>>, waiting: seq<nat>)

  /** What becomes of a fetch: decoded, with or without room to store it, or failed for good. */
  datatype Result = Fetched(stored: bool) | Failed

  /** The awaited fetch of waiting worker w is over. */
  datatype Event = Event(w: nat, result: Result)

  const WORKERS := 5

  /** One worker from the top of its loop to its next await or its end. */
  function Advance(sigs: seq<Sig>, p: Pool): Pool
    requires p.next <= |sigs| == |p.recs|
    decreases |sigs| - p.next
  {
    if p.next == |sigs| then p
    else
      var i := p.next;
      if sigs[i] in p.cache then
        Advance(sigs, p.(next := i + 1, recs := p.recs[i := Got(p.cache[sigs[i]])]))
      else
        p.(next := i + 1, waiting := p.waiting + [i])
  }

  function Launch(sigs: seq<Sig>, p: Pool, k: nat): Pool
    requires p.next <= |sigs| == |p.recs|
    decreases k
  {
    if k == 0 then p
    else
      AdvanceShape(sigs, p);
      Launch(sigs, Advance(sigs, p), k - 1)
  }

  function Crew(sigs: seq<Sig>): nat { if |sigs| < WORKERS then |sigs| else WORKERS }

  function Begin(sigs: seq<Sig>, cache: map<Sig, Option<Rec>>): Pool {
    Launch(sigs, Pool(0, seq(|sigs|, _ => Unset), cache, []), Crew(sigs))
  }

  function RemoveAt(s: seq<nat>, w: nat): seq<nat>
    requires w < |s|
  {
    s[..w] + s[w+1..]
  }

  /** A worker takes its result in and goes on; `answer` is what the chain holds for a signature. */
  function Step(sigs: seq<Sig>, answer: Sig -> Option<Rec>, p: Pool, e: Event): Pool
    requires Shape(sigs, p)
  {
    if e.w >= |p.waiting| then p else Advance(sigs, Taken(sigs, answer, p, e))
  }

  function Taken(sigs: seq<Sig>, answer: Sig -> Option<Rec>, p: Pool, e: Event): (r: Pool)
    requires Shape(sigs, p) && e.w < |p.waiting|
    ensures r.next == p.next && |r.recs| == |p.recs|
  {
    var i := p.waiting[e.w];
    var gone := p.(waiting := RemoveAt(p.waiting, e.w));
    match e.result
    case Failed => gone.(recs := p.recs[i := Got(None)])
    case Fetched(stored) =>
      var rec := answer(sigs[i]);
      gone.(recs := p.recs[i := Got(rec)], cache := if stored then p.cache[sigs[i] := rec] else p.cache)
  }

  predicate Shape(sigs: seq<Sig>, p: Pool) {
    && p.next <= |sigs| == |p.recs|
    && forall k :: 0 <= k < |p.waiting| ==> p.waiting[k] < p.next
  }

  lemma {:induction false} AdvanceShape(sigs: seq<Sig>, p: Pool)
    requires p.next <= |sigs| == |p.recs|
    ensures p.next <= Advance(sigs, p).next <= |sigs| == |Advance(sigs, p).recs|
    ensures Shape(sigs, p) ==> Shape(sigs, Advance(sigs, p))
    decreases |sigs| - p.next
  {
    if p.next < |sigs| && sigs[p.next] in p.cache {
      var i := p.next;
      AdvanceShape(sigs, p.(next := i + 1, recs := p.recs[i := Got(p.cache[sigs[i]])]));
    }
  }

  class WorkerPool {
    const sigs: seq<Sig>
    var next: nat
    var recs: seq<Slot>
    var cache: map<Sig, Option<Rec>>
    var waiting: seq<nat>

    function Now(): Pool
      reads this
    {
      Pool(next, recs, cache, waiting)
    }

    constructor (sigs: seq<Sig>, cache: map<Sig, Option<Rec>>)
      ensures this.sigs == sigs && Now() == Pool(0, seq(|sigs|, _ => Unset), cache, [])
    {
      this.sigs := sigs;
      next, recs, this.cache, waiting := 0, seq(|sigs|, _ => Unset), cache, [];
    }

    /** The body of a worker, up to its next await. */
    method Work()
      requires next <= |sigs| == |recs|
      modifies this
      ensures Now() == Advance(sigs, old(Now()))
    {
      while next < |sigs|
        invariant next <= |sigs| == |recs|
        invariant Advance(sigs, Now()) == Advance(sigs, old(Now()))
        decreases |sigs| - next
      {
        var i := next;
        next := next + 1;
        if sigs[i] in cache {
          recs := recs[i := Got(cache[sigs[i]])];
        } else {
          waiting := waiting + [i];
          return;
        }
      }
    }

    method StartWorkers()
      requires next <= |sigs| == |recs|
      modifies this
      ensures Now() == Launch(sigs, old(Now()), Crew(sigs))
    {
      var k := Crew(sigs);
      while k > 0
        invariant next <= |sigs| == |recs|
        invariant Launch(sigs, Now(), k) == Launch(sigs, old(Now()), Crew(sigs))
      {
        AdvanceShape(sigs, Now());
        Work();
        k := k - 1;
      }
    }

    /** The fetch of waiting worker w resolves with the chain's answer, or has failed. */
    method Land(w: nat, result: Result, answer: Sig -> Option<Rec>)
      requires Shape(sigs, Now()) && w < |waiting|
      modifies this
      ensures Now() == Step(sigs, answer, old(Now()), Event(w, result))
    {
      var i := waiting[w];
      waiting := RemoveAt(waiting, w);
      match result {
        case Failed =>
          recs := recs[i := Got(None)];
        case Fetched(stored) =>
          var rec := answer(sigs[i]);
          if stored {
            cache := cache[sigs[i] := rec];
          }
          recs := recs[i := Got(rec)];
      }
      Work();
    }
  }

  // ---------- every signature is handled exactly once ----------

  /** An index is open exactly while it is unclaimed or some one worker awaits it. */
  ghost predicate Ready(sigs: seq<Sig>, p: Pool) {
    && Shape(sigs, p) && Distinct(p.waiting)
    && (forall i :: 0 <= i < |sigs| ==> (p.recs[i].Unset? <==> i >= p.next || i in p.waiting))
  }

  /** And of the crew's workers only those that found nothing left have ended. */
  ghost predicate Sound(sigs: seq<Sig>, p: Pool, crew: nat) {
    Ready(sigs, p) && |p.waiting| <= crew && (|p.waiting| < crew ==> p.next == |sigs|)
  }

  /** Slots already assigned stay as they are. */
  ghost predicate Keeps(a: Pool, b: Pool) {
    |a.recs| == |b.recs| && forall i :: 0 <= i < |a.recs| && a.recs[i].Got? ==> b.recs[i] == a.recs[i]
  }

  /** How many signatures are not handled yet. */
  ghost function Left(sigs: seq<Sig>, p: Pool): int { |sigs| - p.next + |p.waiting| }

  lemma {:induction false} AdvanceIsSound(sigs: seq<Sig>, p: Pool)
    requires Ready(sigs, p)
    ensures var q := Advance(sigs, p);
      && Ready(sigs, q) && Keeps(p, q) && Left(sigs, q) <= Left(sigs, p)
      && |q.waiting| <= |p.waiting| + 1 && (|q.waiting| <= |p.waiting| ==> q.next == |sigs|)
      && q.cache == p.cache
    decreases |sigs| - p.next
  {
    if p.next < |sigs| {
      var i := p.next;
      if sigs[i] in p.cache {
        AdvanceIsSound(sigs, p.(next := i + 1, recs := p.recs[i := Got(p.cache[sigs[i]])]));
      } else {
        assert forall j :: j in p.waiting + [i] <==> j in p.waiting || j == i;
      }
    }
  }

  lemma {:induction false} LaunchIsSound(sigs: seq<Sig>, p: Pool, k: nat, crew: nat)
    requires Sound(sigs, p, crew)
    ensures Sound(sigs, Launch(sigs, p, k), crew + k)
    decreases k
  {
    if k > 0 {
      AdvanceIsSound(sigs, p);
      LaunchIsSound(sigs, Advance(sigs, p), k - 1, crew + 1);
    }
  }

  lemma {:induction false} BeginIsSound(sigs: seq<Sig>, cache: map<Sig, Option<Rec>>)
    ensures Sound(sigs, Begin(sigs, cache), Crew(sigs))
  {
    LaunchIsSound(sigs, Pool(0, seq(|sigs|, _ => Unset), cache, []), Crew(sigs), 0);
  }

  lemma {:induction false} TakenIsReady(sigs: seq<Sig>, answer: Sig -> Option<Rec>, p: Pool, e: Event)
    requires Ready(sigs, p) && e.w < |p.waiting|
    ensures Ready(sigs, Taken(sigs, answer, p, e)) && Keeps(p, Taken(sigs, answer, p, e))
    ensures Left(sigs, Taken(sigs, answer, p, e)) == Left(sigs, p) - 1
  {
    var q := RemoveAt(p.waiting, e.w);
    var i := p.waiting[e.w];
    forall j
      ensures j in q <==> j in p.waiting && j != i
    {
      if j in p.waiting && j != i {
        var k :| 0 <= k < |p.waiting| && p.waiting[k] == j;
        assert q[if k < e.w then k else k - 1] == j;
      }
    }
  }

  /** Each result assigns one open slot for good, keeps at most five fetches in flight, and leaves fewer to do. */
  lemma {:induction false} StepIsSound(sigs: seq<Sig>, answer: Sig -> Option<Rec>, p: Pool, e: Event, crew: nat)
    requires Sound(sigs, p, crew)
    ensures var q := Step(sigs, answer, p, e);
      && Sound(sigs, q, crew) && Keeps(p, q)
      && (e.w < |p.waiting| ==> Left(sigs, q) < Left(sigs, p))
  {
    if e.w < |p.waiting| {
      TakenIsReady(sigs, answer, p, e);
      AdvanceIsSound(sigs, Taken(sigs, answer, p, e));
    }
  }

  ghost predicate Finished(sigs: seq<Sig>, p: Pool) {
    p.next == |sigs| && p.waiting == []
  }

  // ---------- the feed does not depend on the schedule or the cache ----------

  ghost predicate Truthful(answer: Sig -> Option<Rec>, cache: map<Sig, Option<Rec>>) {
    forall s :: s in cache ==> cache[s] == answer(s)
  }

  /** Assigned slots hold the chain's answer, except that those whose fetch failed hold null. */
  ghost predicate Right(sigs: seq<Sig>, answer: Sig -> Option<Rec>, p: Pool, failed: set<nat>) {
    && |p.recs| == |sigs|
    && Truthful(answer, p.cache)
    && (forall i :: i in failed ==> i < |sigs| && p.recs[i].Got?)
    && (forall i :: 0 <= i < |sigs| && p.recs[i].Got? ==>
          p.recs[i].rec == if i in failed then None else answer(sigs[i]))
  }

  lemma {:induction false} AdvanceIsRight(sigs: seq<Sig>, answer: Sig -> Option<Rec>, p: Pool, failed: set<nat>)
    requires Ready(sigs, p) && Right(sigs, answer, p, failed)
    ensures Right(sigs, answer, Advance(sigs, p), failed)
    decreases |sigs| - p.next
  {
    if p.next < |sigs| && sigs[p.next] in p.cache {
      var i := p.next;
      AdvanceIsRight(sigs, answer, p.(next := i + 1, recs := p.recs[i := Got(p.cache[sigs[i]])]), failed);
    }
  }

  lemma {:induction false} LaunchIsRight(sigs: seq<Sig>, answer: Sig -> Option<Rec>, p: Pool, k: nat)
    requires Ready(sigs, p) && Right(sigs, answer, p, {})
    ensures Right(sigs, answer, Launch(sigs, p, k), {})
    decreases k
  {
    if k > 0 {
      AdvanceShape(sigs, p);
      AdvanceIsSound(sigs, p);
      AdvanceIsRight(sigs, answer, p, {});
      LaunchIsRight(sigs, answer, Advance(sigs, p), k - 1);
    }
  }

  ghost predicate NoFailures(es: seq<Event>) {
    forall k :: 0 <= k < |es| ==> !es[k].result.Failed?
  }

  function Run(sigs: seq<Sig>, answer: Sig -> Option<Rec>, p: Pool, es: seq<Event>): (q: Pool)
    requires Shape(sigs, p)
    ensures Shape(sigs, q)
    decreases |es|
  {
    if es == [] then p
    else
      StepShape(sigs, answer, p, es[0]);
      Run(sigs, answer, Step(sigs, answer, p, es[0]), es[1..])
  }

  lemma {:induction false} StepShape(sigs: seq<Sig>, answer: Sig -> Option<Rec>, p: Pool, e: Event)
    requires Shape(sigs, p)
    ensures Shape(sigs, Step(sigs, answer, p, e))
  {
    if e.w < |p.waiting| {
      AdvanceShape(sigs, Taken(sigs, answer, p, e));
    }
  }

  /** The index an event's failed fetch was for. */
  function FailedBy(p: Pool, e: Event): set<nat> {
    if e.w < |p.waiting| && e.result.Failed? then {p.waiting[e.w]} else {}
  }

  /** All indices whose fetch failed in a run. */
  function FailedAt(sigs: seq<Sig>, answer: Sig -> Option<Rec>, p: Pool, es: seq<Event>): set<nat>
    requires Shape(sigs, p)
    decreases |es|
  {
    if es == [] then {}
    else
      StepShape(sigs, answer, p, es[0]);
      FailedBy(p, es[0]) + FailedAt(sigs, answer, Step(sigs, answer, p, es[0]), es[1..])
  }

  lemma {:induction false} RunIsSound(
      sigs: seq<Sig>, answer: Sig -> Option<Rec>, p: Pool, es: seq<Event>, crew: nat, failed: set<nat>)
    requires Sound(sigs, p, crew) && Right(sigs, answer, p, failed)
    ensures var q := Run(sigs, answer, p, es);
      Sound(sigs, q, crew) && Keeps(p, q) && Right(sigs, answer, q, failed + FailedAt(sigs, answer, p, es))
    decreases |es|
  {
    if es == [] {
      assert failed + {} == failed;
    } else {
      var q := Step(sigs, answer, p, es[0]);
      StepIsSound(sigs, answer, p, es[0], crew);
      StepIsRight(sigs, answer, p, es[0], failed);
      RunIsSound(sigs, answer, q, es[1..], crew, failed + FailedBy(p, es[0]));
      assert failed + FailedBy(p, es[0]) + FailedAt(sigs, answer, q, es[1..]) == failed + FailedAt(sigs, answer, p, es);
    }
  }

  lemma {:induction false} StepIsRight(
      sigs: seq<Sig>, answer: Sig -> Option<Rec>, p: Pool, e: Event, failed: set<nat>)
    requires Ready(sigs, p) && Right(sigs, answer, p, failed)
    ensures Right(sigs, answer, Step(sigs, answer, p, e), failed + FailedBy(p, e))
  {
    if e.w < |p.waiting| {
      TakenIsReady(sigs, answer, p, e);
      TakenIsRight(sigs, answer, p, e, failed);
      AdvanceIsRight(sigs, answer, Taken(sigs, answer, p, e), failed + FailedBy(p, e));
    } else {
      assert failed + {} == failed;
    }
  }

  lemma {:induction false} TakenIsRight(
      sigs: seq<Sig>, answer: Sig -> Option<Rec>, p: Pool, e: Event, failed: set<nat>)
    requires Ready(sigs, p) && Right(sigs, answer, p, failed) && e.w < |p.waiting|
    ensures Right(sigs, answer, Taken(sigs, answer, p, e), failed + FailedBy(p, e))
  {
    var i := p.waiting[e.w];
    assert p.recs[i].Unset? && i !in failed;
  }

  lemma {:induction false} NothingFailed(sigs: seq<Sig>, answer: Sig -> Option<Rec>, p: Pool, es: seq<Event>)
    requires Shape(sigs, p) && NoFailures(es)
    ensures FailedAt(sigs, answer, p, es) == {}
    decreases |es|
  {
    if es != [] {
      StepShape(sigs, answer, p, es[0]);
      NothingFailed(sigs, answer, Step(sigs, answer, p, es[0]), es[1..]);
    }
  }

  function Answers(sigs: seq<Sig>, answer: Sig -> Option<Rec>): (r: seq<Slot>)
    ensures |r| == |sigs|
    ensures forall i :: 0 <= i < |sigs| ==> r[i] == Got(answer(sigs[i]))
  {
    seq(|sigs|, i requires 0 <= i < |sigs| => Got(answer(sigs[i])))
  }

  lemma {:induction false} BeginIsRight(sigs: seq<Sig>, answer: Sig -> Option<Rec>, cache: map<Sig, Option<Rec>>)
    requires Truthful(answer, cache)
    ensures Right(sigs, answer, Begin(sigs, cache), {})
  {
    LaunchIsRight(sigs, answer, Pool(0, seq(|sigs|, _ => Unset), cache, []), Crew(sigs));
  }

  /** A failed fetch writes nothing to the cache. */
  lemma {:induction false} FailureIsNotCached(sigs: seq<Sig>, answer: Sig -> Option<Rec>, p: Pool, e: Event)
    requires Ready(sigs, p) && e.result.Failed?
    ensures Step(sigs, answer, p, e).cache == p.cache
  {
    if e.w < |p.waiting| {
      TakenIsReady(sigs, answer, p, e);
      AdvanceIsSound(sigs, Taken(sigs, answer, p, e));
    }
  }

  /** Whatever is cached was cached before, or is the signature of an entry whose fetch succeeded. */
  ghost predicate Earned(sigs: seq<Sig>, p: Pool, cache: map<Sig, Option<Rec>>, failed: set<nat>) {
    forall s :: s in p.cache && s !in cache ==>
      exists i: nat :: i < |sigs| == |p.recs| && sigs[i] == s && i !in failed && p.recs[i].Got?
  }

  lemma {:induction false} StepIsEarned(
      sigs: seq<Sig>, answer: Sig -> Option<Rec>, p: Pool, e: Event, cache: map<Sig, Option<Rec>>, failed: set<nat>)
    requires Ready(sigs, p) && Earned(sigs, p, cache, failed)
    requires forall i :: i in failed ==> i < |sigs| && p.recs[i].Got?
    ensures Earned(sigs, Step(sigs, answer, p, e), cache, failed + FailedBy(p, e))
  {
    if e.w < |p.waiting| {
      var taken := Taken(sigs, answer, p, e);
      var q := Step(sigs, answer, p, e);
      TakenIsReady(sigs, answer, p, e);
      AdvanceIsSound(sigs, taken);
      var i0 := p.waiting[e.w];
      forall s | s in q.cache && s !in cache
        ensures exists i: nat ::
          i < |sigs| == |q.recs| && sigs[i] == s && i !in failed + FailedBy(p, e) && q.recs[i].Got?
      {
        if s in p.cache {
          var i: nat :| i < |sigs| && sigs[i] == s && i !in failed && p.recs[i].Got?;
          assert i != i0 && q.recs[i].Got?;
        } else {
          assert sigs[i0] == s && p.recs[i0].Unset? && q.recs[i0].Got?;
        }
      }
    }
  }

  lemma {:induction false} RunIsEarned(
      sigs: seq<Sig>, answer: Sig -> Option<Rec>, p: Pool, es: seq<Event>, cache: map<Sig, Option<Rec>>,
      crew: nat, failed: set<nat>)
    requires Sound(sigs, p, crew) && Right(sigs, answer, p, failed) && Earned(sigs, p, cache, failed)
    ensures Earned(sigs, Run(sigs, answer, p, es), cache, failed + FailedAt(sigs, answer, p, es))
    decreases |es|
  {
    if es == [] {
      assert failed + {} == failed;
    } else {
      var q := Step(sigs, answer, p, es[0]);
      StepIsSound(sigs, answer, p, es[0], crew);
      StepIsRight(sigs, answer, p, es[0], failed);
      StepIsEarned(sigs, answer, p, es[0], cache, failed);
      RunIsEarned(sigs, answer, q, es[1..], cache, crew, failed + FailedBy(p, es[0]));
      assert failed + FailedBy(p, es[0]) + FailedAt(sigs, answer, q, es[1..]) == failed + FailedAt(sigs, answer, p, es);
    }
  }

  lemma {:induction false} BeginCache(sigs: seq<Sig>, p: Pool, k: nat)
    requires p.next <= |sigs| == |p.recs| && Ready(sigs, p)
    ensures Launch(sigs, p, k).cache == p.cache
    decreases k
  {
    if k > 0 {
      AdvanceShape(sigs, p);
      AdvanceIsSound(sigs, p);
      BeginCache(sigs, Advance(sigs, p), k - 1);
    }
  }

  /**
   * With any cache of earlier decodes and any order of results: a failed fetch
   * makes its own entry null, every other entry handled holds the chain's answer,
   * and nothing is newly cached but for an entry whose fetch succeeded.
   */
  lemma {:induction false} FailuresAreLocal(
      sigs: seq<Sig>, answer: Sig -> Option<Rec>, cache: map<Sig, Option<Rec>>, es: seq<Event>)
    requires Truthful(answer, cache)
    ensures Sound(sigs, Begin(sigs, cache), Crew(sigs))
    ensures var q := Run(sigs, answer, Begin(sigs, cache), es);
      && Truthful(answer, q.cache)
      && forall i :: 0 <= i < |sigs| && q.recs[i].Got? ==>
           q.recs[i].rec == if i in FailedAt(sigs, answer, Begin(sigs, cache), es) then None else answer(sigs[i])
    ensures Earned(sigs, Run(sigs, answer, Begin(sigs, cache), es), cache,
                   FailedAt(sigs, answer, Begin(sigs, cache), es))
  {
    BeginIsSound(sigs, cache);
    BeginIsRight(sigs, answer, cache);
    RunIsSound(sigs, answer, Begin(sigs, cache), es, Crew(sigs), {});
    BeginCache(sigs, Pool(0, seq(|sigs|, _ => Unset), cache, []), Crew(sigs));
    RunIsEarned(sigs, answer, Begin(sigs, cache), es, cache, Crew(sigs), {});
    assert {} + FailedAt(sigs, answer, Begin(sigs, cache), es) == FailedAt(sigs, answer, Begin(sigs, cache), es);
  }

  /**
   * Schedule and cache independence: a finished pool whose fetches all succeeded
   * holds exactly the chain's answers, and its cache stays truthful.
   */
  lemma {:induction false} FeedIsDetermined(
      sigs: seq<Sig>, answer: Sig -> Option<Rec>, cache: map<Sig, Option<Rec>>, es: seq<Event>)
    requires Truthful(answer, cache) && NoFailures(es)
    ensures Sound(sigs, Begin(sigs, cache), Crew(sigs))
    ensures var q := Run(sigs, answer, Begin(sigs, cache), es);
      && Truthful(answer, q.cache)
      && (Finished(sigs, q) ==> q.recs == Answers(sigs, answer))
  {
    FailuresAreLocal(sigs, answer, cache, es);
    NothingFailed(sigs, answer, Begin(sigs, cache), es);
    BeginIsRight(sigs, answer, cache);
    RunIsSound(sigs, answer, Begin(sigs, cache), es, Crew(sigs), {});
  }

  /** A pool with nobody waiting is finished: no signature is left behind. */
  lemma {:induction false} IdleIsFinished(
      sigs: seq<Sig>, answer: Sig -> Option<Rec>, cache: map<Sig, Option<Rec>>, es: seq<Event>)
    requires Truthful(answer, cache)
    ensures Sound(sigs, Begin(sigs, cache), Crew(sigs))
    ensures var q := Run(sigs, answer, Begin(sigs, cache), es);
      && |q.waiting| <= WORKERS
      && (q.waiting == [] ==> Finished(sigs, q) && forall i :: 0 <= i < |sigs| ==> q.recs[i].Got?)
  {
    BeginIsSound(sigs, cache);
    BeginIsRight(sigs, answer, cache);
    RunIsSound(sigs, answer, Begin(sigs, cache), es, Crew(sigs), {});
  }

  // ---------- a second read ----------

  /** Every signature handled so far is cached. */
  ghost predicate DoneIsCached(sigs: seq<Sig>, p: Pool) {
    forall i :: 0 <= i < p.next && i < |sigs| && i !in p.waiting ==> sigs[i] in p.cache
  }

  /** Every fetch comes back with a decode that is stored. */
  ghost predicate AllStored(es: seq<Event>) {
    forall k :: 0 <= k < |es| ==> es[k].result == Fetched(true)
  }

  lemma {:induction false} AdvanceCaches(sigs: seq<Sig>, p: Pool)
    requires p.next <= |sigs| == |p.recs| && DoneIsCached(sigs, p)
    ensures DoneIsCached(sigs, Advance(sigs, p)) && Advance(sigs, p).cache == p.cache
    decreases |sigs| - p.next
  {
    if p.next < |sigs| {
      var i := p.next;
      if sigs[i] in p.cache {
        AdvanceCaches(sigs, p.(next := i + 1, recs := p.recs[i := Got(p.cache[sigs[i]])]));
      } else {
        assert forall j :: j in p.waiting + [i] <==> j in p.waiting || j == i;
      }
    }
  }

  lemma {:induction false} LaunchCaches(sigs: seq<Sig>, p: Pool, k: nat)
    requires p.next <= |sigs| == |p.recs| && DoneIsCached(sigs, p)
    ensures DoneIsCached(sigs, Launch(sigs, p, k))
    decreases k
  {
    if k > 0 {
      AdvanceShape(sigs, p);
      AdvanceCaches(sigs, p);
      LaunchCaches(sigs, Advance(sigs, p), k - 1);
    }
  }

  lemma {:induction false} TakenCaches(sigs: seq<Sig>, answer: Sig -> Option<Rec>, p: Pool, e: Event)
    requires Shape(sigs, p) && DoneIsCached(sigs, p) && e.w < |p.waiting| && e.result == Fetched(true)
    ensures DoneIsCached(sigs, Taken(sigs, answer, p, e))
  {
    var q := RemoveAt(p.waiting, e.w);
    forall j | j in p.waiting && j != p.waiting[e.w]
      ensures j in q
    {
      var k :| 0 <= k < |p.waiting| && p.waiting[k] == j;
      assert q[if k < e.w then k else k - 1] == j;
    }
  }

  lemma {:induction false} RunCaches(sigs: seq<Sig>, answer: Sig -> Option<Rec>, p: Pool, es: seq<Event>)
    requires Shape(sigs, p) && DoneIsCached(sigs, p) && AllStored(es)
    ensures DoneIsCached(sigs, Run(sigs, answer, p, es))
    decreases |es|
  {
    if es != [] {
      StepShape(sigs, answer, p, es[0]);
      if es[0].w < |p.waiting| {
        TakenCaches(sigs, answer, p, es[0]);
        AdvanceCaches(sigs, Taken(sigs, answer, p, es[0]));
      }
      RunCaches(sigs, answer, Step(sigs, answer, p, es[0]), es[1..]);
    }
  }

  lemma {:induction false} AdvanceToEnd(sigs: seq<Sig>, p: Pool)
    requires p.next <= |sigs| == |p.recs| && forall s :: s in sigs ==> s in p.cache
    ensures var q := Advance(sigs, p); q.next == |sigs| && q.waiting == p.waiting && q.cache == p.cache
    decreases |sigs| - p.next
  {
    if p.next < |sigs| {
      var i := p.next;
      AdvanceToEnd(sigs, p.(next := i + 1, recs := p.recs[i := Got(p.cache[sigs[i]])]));
    }
  }

  lemma {:induction false} LaunchToEnd(sigs: seq<Sig>, p: Pool, k: nat)
    requires p.next <= |sigs| == |p.recs| && p.waiting == [] && forall s :: s in sigs ==> s in p.cache
    requires k == 0 ==> p.next == |sigs|
    ensures Finished(sigs, Launch(sigs, p, k))
    decreases k
  {
    if k > 0 {
      AdvanceShape(sigs, p);
      AdvanceToEnd(sigs, p);
      LaunchToEnd(sigs, Advance(sigs, p), k - 1);
    }
  }

  lemma {:induction false} CachedIsFree(sigs: seq<Sig>, cache: map<Sig, Option<Rec>>)
    requires forall s :: s in sigs ==> s in cache
    ensures Finished(sigs, Begin(sigs, cache))
  {
    LaunchToEnd(sigs, Pool(0, seq(|sigs|, _ => Unset), cache, []), Crew(sigs));
  }

  /** After a finished read whose decodes were all stored, reading any of those signatures again fetches nothing. */
  lemma {:induction false} SecondReadIsFree(
      sigs: seq<Sig>, answer: Sig -> Option<Rec>, cache: map<Sig, Option<Rec>>, es: seq<Event>, again: seq<Sig>)
    requires AllStored(es) && forall s :: s in again ==> s in sigs
    ensures Shape(sigs, Begin(sigs, cache))
    ensures var q := Run(sigs, answer, Begin(sigs, cache), es);
      Finished(sigs, q) ==> Finished(again, Begin(again, q.cache))
  {
    BeginIsSound(sigs, cache);
    LaunchCaches(sigs, Pool(0, seq(|sigs|, _ => Unset), cache, []), Crew(sigs));
    RunCaches(sigs, answer, Begin(sigs, cache), es);
    var q := Run(sigs, answer, Begin(sigs, cache), es);
    if Finished(sigs, q) {
      forall s | s in again
        ensures s in q.cache
      {
        var i :| 0 <= i < |sigs| && sigs[i] == s;
      }
      CachedIsFree(again, q.cache);
    }
  }

  // ---------- newest first ----------

  function Time(r: Rec): int {
    match r.at
    case Some(t) => t
    case None => 0
  }

  /** The records among the slots. */
  function Found(recs: seq<Slot>): seq<Rec> {
    if recs == [] then []
    else (if recs[0].Got? && recs[0].rec.Some? then [recs[0].rec.value] else []) + Found(recs[1..])
  }

  function InsertNewest(r: Rec, rs: seq<Rec>): seq<Rec> {
    if rs == [] || Time(r) >= Time(rs[0]) then [r] + rs else [rs[0]] + InsertNewest(r, rs[1..])
  }

  /** Stable sort by falling time. */
  function NewestFirst(rs: seq<Rec>): seq<Rec> {
    if rs == [] then [] else InsertNewest(rs[0], NewestFirst(rs[1..]))
  }

  ghost predicate Falling(rs: seq<Rec>) {
    forall i, j :: 0 <= i < j < |rs| ==> Time(rs[i]) >= Time(rs[j])
  }

  lemma {:induction false} InsertKeepsFalling(r: Rec, rs: seq<Rec>)
    requires Falling(rs)
    ensures Falling(InsertNewest(r, rs))
    ensures forall k :: 0 <= k < |InsertNewest(r, rs)| ==>
      InsertNewest(r, rs)[k] == r || (rs != [] && Time(InsertNewest(r, rs)[k]) <= Time(rs[0]))
  {
    if rs != [] && Time(r) < Time(rs[0]) {
      InsertKeepsFalling(r, rs[1..]);
    }
  }

  lemma {:induction false} InsertAddsOne(r: Rec, rs: seq<Rec>)
    ensures multiset(InsertNewest(r, rs)) == multiset{r} + multiset(rs)
  {
    if rs != [] && Time(r) < Time(rs[0]) {
      InsertAddsOne(r, rs[1..]);
      assert rs == [rs[0]] + rs[1..];
    }
  }

  /** The feed is newest first and has exactly the records found. */
  lemma {:induction false} FeedIsNewestFirst(rs: seq<Rec>)
    ensures Falling(NewestFirst(rs)) && multiset(NewestFirst(rs)) == multiset(rs)
  {
    if rs != [] {
      FeedIsNewestFirst(rs[1..]);
      InsertKeepsFalling(rs[0], NewestFirst(rs[1..]));
      InsertAddsOne(rs[0], NewestFirst(rs[1..]));
      assert rs == [rs[0]] + rs[1..];
    }
  }

  lemma {:induction false} FoundIsGot(recs: seq<Slot>, x: Rec)
    ensures multiset(Found(recs))[x] == multiset(recs)[Got(Some(x))]
  {
    if recs != [] {
      FoundIsGot(recs[1..], x);
      assert recs == [recs[0]] + recs[1..];
    }
  }

  /** The feed holds each record as often as some slot holds it; slots without one leave no trace. */
  lemma {:induction false} FeedIsWhatWasRead(recs: seq<Slot>, x: Rec)
    ensures multiset(NewestFirst(Found(recs)))[x] == multiset(recs)[Got(Some(x))]
  {
    FeedIsNewestFirst(Found(recs));
    FoundIsGot(recs, x);
  }

  /** Two complete reads of the same chain show the same feed, whatever their caches and schedules. */
  lemma {:induction false} SameFeed(sigs: seq<Sig>, answer: Sig -> Option<Rec>,
                                    cache1: map<Sig, Option<Rec>>, es1: seq<Event>,
                                    cache2: map<Sig, Option<Rec>>, es2: seq<Event>)
    requires Truthful(answer, cache1) && NoFailures(es1) && Truthful(answer, cache2) && NoFailures(es2)
    ensures Sound(sigs, Begin(sigs, cache1), Crew(sigs)) && Sound(sigs, Begin(sigs, cache2), Crew(sigs))
    ensures var p, q := Run(sigs, answer, Begin(sigs, cache1), es1), Run(sigs, answer, Begin(sigs, cache2), es2);
      Finished(sigs, p) && Finished(sigs, q) ==> NewestFirst(Found(p.recs)) == NewestFirst(Found(q.recs))
  {
    FeedIsDetermined(sigs, answer, cache1, es1);
    FeedIsDetermined(sigs, answer, cache2, es2);
  }
}
