// The shared rate limiter (kis_adapter/client.py): threads claim slots under a lock and
// sleep outside it. A claim is a step of a max-plus recurrence.
module RateLimiter {
  import opened Reals

  // The slot claimed by the last of the callers that read the clock at `nows`, in the
  // order they took the lock; before the first, the last call is at 0.
  function Slot(interval: real, nows: seq<real>): real {
    if nows == [] then 0.0
    else Max(nows[|nows| - 1], Slot(interval, nows[..|nows| - 1]) + interval)
  }

  // The slot of the caller that came n-th, from 0.
  function SlotAt(interval: real, nows: seq<real>, n: nat): real
    requires n < |nows|
  {
    Slot(interval, nows[..n + 1])
  }

  class RateLimiter {
    const interval: real
    var lastCall: real
    ghost var nows: seq<real>

    ghost predicate Valid()
      reads this
    {
      lastCall == Slot(interval, nows)
    }

    constructor (callsPerSecond: nat)
      requires callsPerSecond > 0
      ensures Valid() && nows == [] && interval == 1.0 / callsPerSecond as real
    {
      interval := 1.0 / callsPerSecond as real;
      lastCall, nows := 0.0, [];
    }

    // `now` is the clock under the lock, `later` the clock after it: what the caller
    // then sleeps brings it to its slot at least, and not past it if it was in time.
    method Wait(now: real, later: real) returns (slot: real, delay: real)
      requires Valid()
      modifies this
      ensures Valid() && nows == old(nows) + [now]
      ensures slot == lastCall == SlotAt(interval, nows, |old(nows)|)
      ensures delay >= 0.0 && later + delay == Max(later, slot)
    {
      assert (nows + [now])[..|nows + [now]| - 1] == nows;
      assert (nows + [now])[..|nows| + 1] == nows + [now];
      slot := Max(now, lastCall + interval);
      lastCall := slot;
      nows := nows + [now];
      delay := if slot - later > 0.0 then slot - later else 0.0;
    }
  }

  // ── One limiter per credential and environment ──────────────────────────────

  datatype Env = Paper | Real

  datatype Key = Key(fingerprint: string, env: Env)

  function RateOf(env: Env): nat { if env == Paper then 5 else 15 }

  class Limiters {
    var table: map<Key, RateLimiter>

    ghost predicate Valid()
      reads this
    {
      && (forall k :: k in table ==> table[k].interval == 1.0 / RateOf(k.env) as real)
      && (forall k, l :: k in table && l in table && table[k] == table[l] ==> k == l)
    }

    constructor ()
      ensures Valid() && table == map[]
    {
      table := map[];
    }

    // The same credential and environment always get the one limiter, and two never
    // share one; an entry is never dropped or replaced.
    method LimiterFor(key: Key) returns (limiter: RateLimiter)
      requires Valid()
      modifies this
      ensures Valid() && key in table && limiter == table[key]
      ensures limiter.interval == if key.env == Paper then 0.2 else 1.0 / 15.0
      ensures table.Keys == old(table).Keys + {key}
      ensures forall k :: k in old(table) ==> table[k] == old(table)[k]
      ensures key !in old(table) ==> fresh(limiter) && limiter.Valid() && limiter.nows == []
    {
      if key in table { return table[key]; }
      limiter := new RateLimiter(RateOf(key.env));
      table := table[key := limiter];
    }
  }

  // ── The closed form ─────────────────────────────────────────────────────────

  // n slots after `from`, at one interval each.
  function Later(interval: real, from: real, n: int): real { from + n as real * interval }

  lemma LaterStep(interval: real, from: real, n: int)
    ensures Later(interval, from, n + 1) == Later(interval, from, n) + interval
    ensures Later(interval, from, 0) == from
  {
    assert (n + 1) as real * interval == n as real * interval + interval;
  }

  lemma LastSlot(interval: real, nows: seq<real>, n: nat)
    requires 0 < n < |nows|
    ensures SlotAt(interval, nows, n) == Max(nows[n], SlotAt(interval, nows, n - 1) + interval)
  {
    assert nows[..n + 1][..n] == nows[..n];
  }

  lemma FirstSlot(interval: real, nows: seq<real>)
    requires nows != []
    ensures SlotAt(interval, nows, 0) == Max(nows[0], interval)
  {
    var one := nows[..0 + 1];
    assert |one| == 1 && one[0] == nows[0] && one[..|one| - 1] == [];
    assert Slot(interval, []) == 0.0;
  }

  // The n-th slot is the greatest of (n + 1) intervals and of every caller's clock plus
  // the intervals since: it is at least each of them ...
  lemma {:induction false} SlotIsBound(interval: real, nows: seq<real>, n: nat, i: nat)
    requires i <= n < |nows|
    ensures SlotAt(interval, nows, n) >= Later(interval, 0.0, n + 1)
    ensures SlotAt(interval, nows, n) >= Later(interval, nows[i], n - i)
  {
    LaterStep(interval, 0.0, n);
    LaterStep(interval, nows[n], 0);
    if n == 0 {
      FirstSlot(interval, nows);
    } else {
      LastSlot(interval, nows, n);
      SlotIsBound(interval, nows, n - 1, if i < n then i else n - 1);
      LaterStep(interval, nows[i], n - 1 - i);
    }
  }

  // ... and it is one of them.
  lemma {:induction false} SlotIsReached(interval: real, nows: seq<real>, n: nat)
    requires n < |nows|
    ensures SlotAt(interval, nows, n) == Later(interval, 0.0, n + 1)
            || exists i :: 0 <= i <= n && SlotAt(interval, nows, n) == Later(interval, nows[i], n - i)
  {
    LaterStep(interval, 0.0, n);
    LaterStep(interval, nows[n], 0);
    if n == 0 {
      FirstSlot(interval, nows);
      if SlotAt(interval, nows, 0) == nows[0] { assert SlotAt(interval, nows, 0) == Later(interval, nows[0], 0 - 0); }
    } else {
      LastSlot(interval, nows, n);
      SlotIsReached(interval, nows, n - 1);
      if SlotAt(interval, nows, n) == nows[n] {
        assert SlotAt(interval, nows, n) == Later(interval, nows[n], n - n);
      } else if SlotAt(interval, nows, n - 1) != Later(interval, 0.0, n) {
        var i :| 0 <= i <= n - 1 && SlotAt(interval, nows, n - 1) == Later(interval, nows[i], n - 1 - i);
        LaterStep(interval, nows[i], n - 1 - i);
        assert SlotAt(interval, nows, n) == Later(interval, nows[i], n - i);
      }
    }
  }

  // Slots are at least an interval apart, so j - i intervals from the i-th to the j-th.
  lemma {:induction false} SlotsApart(interval: real, nows: seq<real>, i: nat, j: nat)
    requires i <= j < |nows|
    ensures SlotAt(interval, nows, j) >= Later(interval, SlotAt(interval, nows, i), j - i)
    decreases j
  {
    LaterStep(interval, SlotAt(interval, nows, i), 0);
    if i < j {
      SlotsApart(interval, nows, i, j - 1);
      LastSlot(interval, nows, j);
      LaterStep(interval, SlotAt(interval, nows, i), j - 1 - i);
    }
  }

  lemma {:induction false} Bounded(xs: set<int>, lo: int, n: nat)
    requires forall x :: x in xs ==> lo <= x < lo + n
    ensures |xs| <= n
    decreases n
  {
    if n == 0 {
      assert forall x :: x !in xs;
    } else {
      var top := lo + n - 1;
      Bounded(xs - {top}, lo, n - 1);
      assert xs <= (xs - {top}) + {top};
    }
  }

  lemma AtMost(d: int, interval: real, window: real)
    requires interval > 0.0 && d as real * interval <= window
    ensures d <= (window / interval).Floor
  {
    var q := window / interval;
    assert q * interval == window;
    if q < d as real { Product(d as real - q, interval); }
  }

  lemma Product(x: real, y: real)
    requires x > 0.0 && y > 0.0
    ensures x * y > 0.0
  {
  }

  // Any window of a given length holds at most floor(length / interval) + 1 slots,
  // whatever the clocks read.
  lemma WindowHolds(interval: real, nows: seq<real>, from: real, window: real, inside: set<int>)
    requires interval > 0.0 && window >= 0.0
    requires forall k :: k in inside ==> 0 <= k < |nows| && from <= SlotAt(interval, nows, k) <= from + window
    ensures |inside| <= (window / interval).Floor + 1
  {
    AtMost(0, interval, window);
    if inside != {} {
      var lo := Least(inside);
      forall k | k in inside ensures lo <= k < lo + (window / interval).Floor + 1 {
        SlotsApart(interval, nows, lo, k);
        AtMost(k - lo, interval, window);
      }
      Bounded(inside, lo, (window / interval).Floor + 1);
    }
  }

  lemma {:induction false} Least(xs: set<int>) returns (least: int)
    requires xs != {}
    ensures least in xs && forall x :: x in xs ==> least <= x
    decreases |xs|
  {
    HasMember(xs);
    var x :| x in xs;
    var others := xs - {x};
    assert forall y :: y in xs ==> y == x || y in others;
    if others == {} {
      least := x;
    } else {
      var rest := Least(others);
      least := if rest < x then rest else x;
    }
  }

  lemma HasMember(xs: set<int>)
    ensures xs != {} ==> exists x :: x in xs
  {
    if forall x :: x !in xs { assert xs == {}; }
  }

  // Nobody waits longer than needed: any schedule that keeps every caller no earlier
  // than its clock, starts an interval after 0 and spaces calls an interval apart is
  // nowhere ahead of the limiter's.
  lemma {:induction false} LeastSchedule(interval: real, nows: seq<real>, times: seq<real>, n: nat)
    requires n < |times| == |nows|
    requires times[0] >= interval
    requires forall i :: 0 <= i < |nows| ==> times[i] >= nows[i]
    requires forall i :: 0 <= i < |nows| - 1 ==> times[i + 1] >= times[i] + interval
    ensures times[n] >= SlotAt(interval, nows, n)
  {
    if n == 0 {
      FirstSlot(interval, nows);
    } else {
      LeastSchedule(interval, nows, times, n - 1);
      LastSlot(interval, nows, n);
      assert times[n - 1 + 1] >= times[n - 1] + interval;
    }
  }
}
