// paceRpc: one shared cursor spaces the starts of all RPC calls 115 ms apart.
module Pace {
  import opened Common

  const GAP := 115

  /** The starts granted to calls arriving at these clock readings, in call order, from a given cursor. */
  function Starts(slot: int, nows: seq<int>): (r: seq<int>)
    ensures |r| == |nows|
    decreases |nows|
  {
    if nows == [] then []
    else [Max(nows[0], slot)] + Starts(Max(nows[0], slot) + GAP, nows[1..])
  }

  class Pacer {
    var slot: int

    constructor ()
      ensures slot == 0
    {
      slot := 0;
    }

    /** How long this call has to wait; its start is now + wait. */
    method Pace(now: int) returns (wait: int)
      modifies this
      ensures wait >= 0
      ensures now + wait == Starts(old(slot), [now])[0]
      ensures slot == now + wait + GAP
    {
      wait := Max(0, slot - now);
      slot := Max(now, slot) + GAP;
    }

    /** Calls in a row, each with its own clock reading, get the starts of the specification. */
    method PaceAll(nows: seq<int>) returns (starts: seq<int>)
      modifies this
      ensures starts == Starts(old(slot), nows)
    {
      starts := [];
      for k := 0 to |nows|
        invariant starts + Starts(slot, nows[k..]) == Starts(old(slot), nows)
      {
        assert nows[k..][0] == nows[k] && nows[k..][1..] == nows[k+1..];
        var wait := Pace(nows[k]);
        starts := starts + [nows[k] + wait];
      }
    }
  }

  /** Starts never precede their arrival or the cursor, and successive ones are at least a gap apart. */
  lemma {:induction false} StartsAreSpaced(slot: int, nows: seq<int>)
    ensures var s := Starts(slot, nows);
      && (forall k :: 0 <= k < |s| ==> s[k] >= nows[k] && s[k] >= slot)
      && (forall i, j :: 0 <= i < j < |s| ==> s[j] >= s[i] + GAP * (j - i))
    decreases |nows|
  {
    if nows != [] {
      var first := Max(nows[0], slot);
      var rest := Starts(first + GAP, nows[1..]);
      StartsAreSpaced(first + GAP, nows[1..]);
      StartsAfter(first + GAP, nows[1..]);
      var s := Starts(slot, nows);
      forall i, j | 0 <= i < j < |s|
        ensures s[j] >= s[i] + GAP * (j - i)
      {
        assert s[j] == rest[j-1];
        if i > 0 {
          assert s[i] == rest[i-1];
        }
      }
    }
  }

  lemma {:induction false} StartsAfter(slot: int, nows: seq<int>)
    ensures var s := Starts(slot, nows); forall k :: 0 <= k < |s| ==> s[k] >= slot + GAP * k
    decreases |nows|
  {
    if nows != [] {
      var first := Max(nows[0], slot);
      StartsAfter(first + GAP, nows[1..]);
      var s := Starts(slot, nows);
      assert s == [first] + Starts(first + GAP, nows[1..]);
      forall k | 0 <= k < |s|
        ensures s[k] >= slot + GAP * k
      {
        if k > 0 {
          assert s[k] == Starts(first + GAP, nows[1..])[k-1];
          assert Starts(first + GAP, nows[1..])[k-1] >= first + GAP + GAP * (k - 1);
        } else {
          assert s[0] == first;
        }
      }
    }
  }

  /** Any schedule that is not earlier than the arrivals and keeps the gap. */
  ghost predicate Fair(slot: int, nows: seq<int>, g: seq<int>) {
    && |g| == |nows|
    && (forall k :: 0 <= k < |g| ==> g[k] >= nows[k])
    && (g != [] ==> g[0] >= slot)
    && (forall k :: 0 <= k < |g| - 1 ==> g[k+1] >= g[k] + GAP)
  }

  /** No fair schedule starts any call earlier: each start is the earliest allowed. */
  lemma {:induction false} StartsAreEarliest(slot: int, nows: seq<int>, g: seq<int>)
    requires Fair(slot, nows, g)
    ensures Fair(slot, nows, Starts(slot, nows))
    ensures forall k :: 0 <= k < |g| ==> Starts(slot, nows)[k] <= g[k]
    decreases |nows|
  {
    StartsAreSpaced(slot, nows);
    if nows != [] {
      var first := Max(nows[0], slot);
      var late := g[1..];
      var moved := Starts(first + GAP, nows[1..]);
      if |late| > 0 {
        assert late[0] == g[0+1] >= g[0] + GAP;
      }
      assert Fair(first + GAP, nows[1..], late) by {
        forall k | 0 <= k < |late| - 1
          ensures late[k+1] >= late[k] + GAP
        {
          assert g[k+1+1] >= g[k+1] + GAP;
        }
      }
      StartsAreEarliest(first + GAP, nows[1..], late);
      forall k | 0 <= k < |g|
        ensures Starts(slot, nows)[k] <= g[k]
      {
        if k > 0 {
          assert Starts(slot, nows)[k] == moved[k-1] <= late[k-1];
        }
      }
    }
  }

  /** The calls whose start falls in [t, t + 1000). */
  ghost function InSecond(s: seq<int>, t: int): set<int> {
    set k | 0 <= k < |s| && t <= s[k] < t + 1000
  }

  /** lo, lo + 1, ..., lo + n - 1. */
  ghost function Span(lo: int, n: nat): set<int> {
    if n == 0 then {} else Span(lo, n - 1) + {lo + n - 1}
  }

  lemma {:induction false} SpanHas(lo: int, n: nat, k: int)
    ensures k in Span(lo, n) <==> lo <= k < lo + n
  {
    if n > 0 {
      SpanHas(lo, n - 1, k);
    }
  }

  lemma {:induction false} SpanSize(lo: int, n: nat)
    ensures |Span(lo, n)| == n
    decreases n
  {
    if n > 0 {
      SpanSize(lo, n - 1);
      SpanHas(lo, n - 1, lo + n - 1);
    }
  }

  lemma {:induction false} SubsetSize(a: set<int>, b: set<int>)
    requires a <= b
    ensures |a| <= |b|
  {
    assert b == a + (b - a);
  }

  /** Whatever the arrivals, any half-open second holds at most nine starts. */
  lemma {:induction false} AtMostNinePerSecond(slot: int, nows: seq<int>, t: int)
    ensures |InSecond(Starts(slot, nows), t)| <= 9
  {
    var s := Starts(slot, nows);
    StartsAreSpaced(slot, nows);
    var inside := InSecond(s, t);
    var lo := 0;
    while lo < |s| && lo !in inside
      invariant 0 <= lo <= |s|
      invariant forall k :: k in inside ==> lo <= k
    {
      lo := lo + 1;
    }
    if lo == |s| {
      assert inside == {};
    } else {
      forall k | k in inside
        ensures k in Span(lo, 9)
      {
        SpanHas(lo, 9, k);
        if k > lo {
          assert s[k] >= s[lo] + GAP * (k - lo);
          assert 115 * (k - lo) < 1000;
        }
      }
      SpanSize(lo, 9);
      SubsetSize(inside, Span(lo, 9));
    }
  }
}
