// returnProceeds: bring an account up to `gross` under a retry loop whose
// attempts may fail at the read, at the mint, or after a mint that did land.
module TopUp {
  import opened Common

  const ATTEMPTS := 7

  /** What the network does to one attempt; a lost mint lands before the next read. */
  datatype Attempt =
    | ReadFails(transient: bool)
    | MintFails(transient: bool)
    | MintLost(transient: bool)
    | Confirmed

  /** How the call ends: balance and mints so far, time waited, and whether it returned or threw. */
  datatype Outcome = Outcome(ok: bool, balance: nat, minted: nat, waited: nat)

  function Missing(balance: nat, gross: nat): nat { if balance >= gross then 0 else gross - balance }

  /** An attempt that gets through: it reads, and finds nothing missing or sees its mint confirmed. */
  predicate Through(a: Attempt, need: nat) {
    !a.ReadFails? && (need == 0 || a.Confirmed?)
  }

  /** Attempt number i (from 1) of the retry loop, with the given delay before a further one. */
  function Retry(balance: nat, minted: nat, gross: nat, net: seq<Attempt>, i: nat, delay: nat, waited: nat): Outcome
    requires 1 <= i <= |net|
    decreases |net| - i
  {
    var a := net[i-1];
    var need := Missing(balance, gross);
    if Through(a, need) then
      Outcome(true, balance + need, minted + need, waited)
    else
      var landed := if a.MintLost? then need else 0;
      if !a.transient || i == |net| then Outcome(false, balance + landed, minted + landed, waited)
      else Retry(balance + landed, minted + landed, gross, net, i + 1, Min(delay * 2, 8000), waited + delay)
  }

  function TopUpOutcome(balance: nat, gross: nat, net: seq<Attempt>): Outcome
    requires |net| == ATTEMPTS
  {
    Retry(balance, 0, gross, net, 1, 800, 0)
  }

  class Account {
    var amount: nat
    var minted: nat

    constructor (amount: nat)
      ensures this.amount == amount && minted == 0
    {
      this.amount, minted := amount, 0;
    }

    method MintTo(x: nat)
      modifies this
      ensures amount == old(amount) + x && minted == old(minted) + x
    {
      amount, minted := amount + x, minted + x;
    }

    /** One attempt: re-read, and mint only what is missing; ok is false when it throws. */
    method AttemptTopUp(gross: nat, a: Attempt) returns (ok: bool, transient: bool)
      modifies this
      ensures ok == Through(a, Missing(old(amount), gross))
      ensures !ok ==> !a.Confirmed? && transient == a.transient
      ensures amount == old(amount) + (if ok || a.MintLost? then Missing(old(amount), gross) else 0)
      ensures minted - old(minted) == amount - old(amount)
    {
      if a.ReadFails? {
        return false, a.transient;
      }
      if amount >= gross {
        return true, false;
      }
      if a.MintFails? {
        return false, a.transient;
      }
      MintTo(gross - amount);
      if a.MintLost? {
        return false, a.transient;
      }
      return true, false;
    }

    method ReturnProceeds(gross: nat, net: seq<Attempt>) returns (ok: bool, waited: nat)
      requires |net| == ATTEMPTS
      modifies this
      ensures minted >= old(minted)
      ensures Outcome(ok, amount, minted - old(minted), waited) == TopUpOutcome(old(amount), gross, net)
    {
      var delay: nat := 800;
      waited := 0;
      var i := 1;
      while i <= ATTEMPTS
        invariant 1 <= i <= ATTEMPTS
        invariant minted >= old(minted)
        invariant Retry(amount, minted - old(minted), gross, net, i, delay, waited)
               == TopUpOutcome(old(amount), gross, net)
        decreases ATTEMPTS - i
      {
        var transient;
        ok, transient := AttemptTopUp(gross, net[i-1]);
        if ok {
          return;
        }
        if !transient || i == ATTEMPTS {
          return;
        }
        waited := waited + delay;
        delay := Min(delay * 2, 8000);
        i := i + 1;
      }
    }
  }

  // ---------- for every schedule ----------

  /** From any point of the loop, the account is topped up at most once, and exactly once if the call returns. */
  lemma {:induction false} RetryIsExact(
      balance: nat, minted: nat, gross: nat, net: seq<Attempt>, i: nat, delay: nat, waited: nat)
    requires 1 <= i <= |net|
    ensures var o := Retry(balance, minted, gross, net, i, delay, waited);
      && o.minted - minted == o.balance - balance
      && (o.balance == balance || o.balance == balance + Missing(balance, gross))
      && (o.ok ==> o.balance == balance + Missing(balance, gross))
    decreases |net| - i
  {
    var a := net[i-1];
    var need := Missing(balance, gross);
    if !Through(a, need) && a.transient && i < |net| {
      var landed := if a.MintLost? then need else 0;
      RetryIsExact(balance + landed, minted + landed, gross, net, i + 1, Min(delay * 2, 8000), waited + delay);
    }
  }

  /**
   * For every schedule of failures and lost confirmations: a call that returns
   * leaves max(initial, gross) and has minted exactly the difference in total; a
   * call that throws has minted that difference once or not at all.
   */
  lemma {:induction false} TopUpIsExact(balance: nat, gross: nat, net: seq<Attempt>)
    requires |net| == ATTEMPTS
    ensures var o := TopUpOutcome(balance, gross, net);
      && (o.ok ==> o.balance == (if balance >= gross then balance else gross) && o.minted == Missing(balance, gross))
      && (!o.ok ==> o.minted == o.balance - balance && (o.minted == 0 || o.minted == Missing(balance, gross)))
  {
    RetryIsExact(balance, 0, gross, net, 1, 800, 0);
  }

  /** A confirmed attempt that only transient failures precede makes the call return. */
  lemma {:induction false} ReturnsWhenConfirmed(
      balance: nat, minted: nat, gross: nat, net: seq<Attempt>, i: nat, delay: nat, waited: nat, k: nat)
    requires 1 <= i <= k + 1 <= |net| && net[k].Confirmed?
    requires forall j :: i - 1 <= j < k ==> !net[j].Confirmed? && net[j].transient
    ensures Retry(balance, minted, gross, net, i, delay, waited).ok
    decreases |net| - i
  {
    var a := net[i-1];
    var need := Missing(balance, gross);
    if !Through(a, need) {
      var landed := if a.MintLost? then need else 0;
      ReturnsWhenConfirmed(
        balance + landed, minted + landed, gross, net, i + 1, Min(delay * 2, 8000), waited + delay, k);
    }
  }

  // ---------- where a call ends ----------

  /** A wire of attempts i to k - 1 landed without its confirmation. */
  ghost predicate SomeLost(net: seq<Attempt>, i: nat, k: nat)
    requires k <= |net|
  {
    exists m :: i <= m < k && net[m].MintLost?
  }

  /** Attempt j gets through, when the balance was that before attempt i. */
  ghost predicate Gets(balance: nat, gross: nat, net: seq<Attempt>, i: nat, j: nat)
    requires j < |net|
  {
    !net[j].ReadFails? && (net[j].Confirmed? || balance >= gross || SomeLost(net, i, j))
  }

  /** Attempt k is the last: all before it fail transiently, and it gets through, fails for good, or is the seventh. */
  ghost predicate EndsAt(balance: nat, gross: nat, net: seq<Attempt>, i: nat, k: nat)
    requires k < |net|
  {
    && (forall j :: i <= j < k ==> !Gets(balance, gross, net, i, j) && net[j].transient)
    && (Gets(balance, gross, net, i, k) || !net[k].transient || k == |net| - 1)
  }

  /** The doubling delay, capped at eight seconds, summed over that many attempts. */
  function Waited(delay: nat, left: nat): nat
    decreases left
  {
    if left == 0 then 0 else delay + Waited(Min(delay * 2, 8000), left - 1)
  }

  lemma {:induction false} LostStep(net: seq<Attempt>, i: nat, k: nat)
    requires i < k <= |net|
    ensures SomeLost(net, i, k) <==> net[i].MintLost? || SomeLost(net, i + 1, k)
  {
  }

  lemma {:induction false} GetsLater(balance: nat, gross: nat, net: seq<Attempt>, i: nat, j: nat)
    requires i < j < |net|
    ensures var landed := if net[i].MintLost? then Missing(balance, gross) else 0;
      Gets(balance, gross, net, i, j) <==> Gets(balance + landed, gross, net, i + 1, j)
  {
    LostStep(net, i, j);
  }

  lemma {:induction false} RetryEndsAt(
      balance: nat, minted: nat, gross: nat, net: seq<Attempt>, i: nat, delay: nat, waited: nat, k: nat)
    requires 1 <= i <= k + 1 <= |net| && EndsAt(balance, gross, net, i - 1, k)
    ensures var o := Retry(balance, minted, gross, net, i, delay, waited);
      && o.ok == Gets(balance, gross, net, i - 1, k) && o.waited == waited + Waited(delay, k + 1 - i)
      && o.minted == minted + if o.ok || SomeLost(net, i - 1, k + 1) then Missing(balance, gross) else 0
    decreases |net| - i
  {
    var a := net[i-1];
    var need := Missing(balance, gross);
    assert Gets(balance, gross, net, i - 1, i - 1) == Through(a, need);
    LostStep(net, i - 1, k + 1);
    if i <= k {
      var landed := if a.MintLost? then need else 0;
      var first := i - 1;
      forall j | i <= j <= k
        ensures Gets(balance, gross, net, first, j) == Gets(balance + landed, gross, net, i, j)
      {
        GetsLater(balance, gross, net, first, j);
      }
      RetryEndsAt(balance + landed, minted + landed, gross, net, i + 1, Min(delay * 2, 8000), waited + delay, k);
    }
  }

  lemma {:induction false} SomeEnd(balance: nat, gross: nat, net: seq<Attempt>, i: nat) returns (k: nat)
    requires i < |net| && forall j :: 0 <= j < i ==> !Gets(balance, gross, net, 0, j) && net[j].transient
    ensures k < |net| && EndsAt(balance, gross, net, 0, k)
    decreases |net| - i
  {
    k := i;
    if !EndsAt(balance, gross, net, 0, i) {
      k := SomeEnd(balance, gross, net, i + 1);
    }
  }

  /** The milliseconds waited before attempts 1 to 7. */
  const WAITS := [0, 800, 2400, 5600, 12_000, 20_000, 28_000]

  /**
   * Every call ends at one attempt: the first that gets through, the first failure
   * that is not transient, or the seventh. It returns in the first case alone, has
   * waited for the attempts up to that one and no more, and has minted what was
   * missing exactly when it returns or a wire up to there landed.
   */
  lemma {:induction false} EndsExactly(balance: nat, gross: nat, net: seq<Attempt>) returns (k: nat)
    requires |net| == ATTEMPTS
    ensures k < ATTEMPTS && EndsAt(balance, gross, net, 0, k)
    ensures var o := TopUpOutcome(balance, gross, net);
      && o.ok == Gets(balance, gross, net, 0, k) && o.waited == WAITS[k]
      && o.minted == if o.ok || SomeLost(net, 0, k + 1) then Missing(balance, gross) else 0
  {
    k := SomeEnd(balance, gross, net, 0);
    RetryEndsAt(balance, 0, gross, net, 1, 800, 0, k);
    WaitTable(k);
  }

  lemma {:induction false} WaitTable(k: nat)
    requires k < ATTEMPTS
    ensures Waited(800, k) == WAITS[k]
  {
    if k >= 4 {
      CappedWait(k - 4);
    }
    assert k >= 4 ==> Waited(6400, k - 3) == 6400 + Waited(8000, k - 4);
    assert k >= 3 ==> Waited(3200, k - 2) == 3200 + Waited(6400, k - 3);
    assert k >= 2 ==> Waited(1600, k - 1) == 1600 + Waited(3200, k - 2);
  }

  lemma {:induction false} CappedWait(left: nat)
    ensures Waited(8000, left) == 8000 * left
  {
    if left > 0 {
      CappedWait(left - 1);
    }
  }

  /** The whole call never waits longer than 28 seconds between attempts in sum. */
  lemma {:induction false} WaitIsBounded(balance: nat, gross: nat, net: seq<Attempt>)
    requires |net| == ATTEMPTS
    ensures TopUpOutcome(balance, gross, net).waited <= 28_000
  {
    var _ := EndsExactly(balance, gross, net);
  }
}
