// The poller's circuit breaker (backend/execution/order_poller.py,
// PollingHealthMonitor): five failed lookups in a row stop all lookups; after a
// cool-down one probe tests the broker, and each failed probe doubles the wait
// up to five minutes.
module Breaker {
  import opened Basics

  const THRESHOLD: nat := 5
  const COOLDOWN_SECONDS: int := 60
  const MAX_COOLDOWN_SECONDS: int := 300

  datatype Circuit = Closed | Open | Probe

  datatype Monitor = Monitor(
    consecutive: nat, open: bool, cooldown: int, nextProbeAt: int, openedAt: int)

  const FRESH := Monitor(0, false, COOLDOWN_SECONDS, 0, 0)

  function State(m: Monitor, now: int): Circuit {
    if !m.open then Closed else if now >= m.nextProbeAt then Probe else Open
  }

  function Success(m: Monitor): Monitor {
    m.(consecutive := 0, open := false)
  }

  function Failure(m: Monitor, clock: int): Monitor {
    var m1 := m.(consecutive := m.consecutive + 1);
    if m.open || m1.consecutive < THRESHOLD then m1
    else m1.(open := true, openedAt := clock, cooldown := COOLDOWN_SECONDS,
             nextProbeAt := clock + COOLDOWN_SECONDS)
  }

  function ProbeFailure(m: Monitor, clock: int): Monitor {
    var cooldown := Min(m.cooldown * 2, MAX_COOLDOWN_SECONDS);
    m.(consecutive := m.consecutive + 1, cooldown := cooldown, nextProbeAt := clock + cooldown)
  }

  // One lookup of the poll loop: `probe` is how _poll_one was called.
  function Lookup(m: Monitor, probe: bool, answered: bool, clock: int): Monitor {
    if answered then Success(m) else if probe then ProbeFailure(m, clock) else Failure(m, clock)
  }

  // ── The schedule of the probes ──────────────────────────────────────────────

  function Pow2(n: nat): int { if n == 0 then 1 else 2 * Pow2(n - 1) }

  // Wait before the probe with index j, counting from 0 at the opening.
  function Cooldown(j: nat): int { Min(COOLDOWN_SECONDS * Pow2(j), MAX_COOLDOWN_SECONDS) }

  // Sum of Cooldown(j) over j < i: the earliest age of the outage at its i-th probe.
  function ProbeDelay(i: nat): int { if i == 0 then 0 else ProbeDelay(i - 1) + Cooldown(i - 1) }

  // Failed probes since the breaker nowOpen.
  function FailedProbes(m: Monitor): int { m.consecutive - THRESHOLD }

  // Open exactly from the fifth error in a row on, and the wait on schedule.
  predicate Healthy(m: Monitor) {
    && (m.open <==> m.consecutive >= THRESHOLD)
    && (m.open ==>
          && m.cooldown == Cooldown(FailedProbes(m))
          && m.openedAt + ProbeDelay(FailedProbes(m) + 1) <= m.nextProbeAt)
  }

  lemma {:induction false} Pow2Positive(n: nat)
    ensures Pow2(n) >= 1
  {
    if n > 0 { Pow2Positive(n - 1); }
  }

  lemma CooldownDoubles(j: nat)
    ensures Min(Cooldown(j) * 2, MAX_COOLDOWN_SECONDS) == Cooldown(j + 1)
  {
    Pow2Positive(j);
  }

  // What the loop may do: probes only in the Probe state, plain lookups only while
  // closed, and the clock does not go back between a tick and its lookups.
  lemma LookupHealthy(m: Monitor, probe: bool, answered: bool, now: int, clock: int)
    requires Healthy(m) && now <= clock
    requires if probe then State(m, now) == Probe else !m.open
    ensures Healthy(Lookup(m, probe, answered, clock))
    ensures m.open ==> Lookup(m, probe, answered, clock).openedAt == m.openedAt
    ensures !m.open && Lookup(m, probe, answered, clock).open ==>
              !answered && m.consecutive == THRESHOLD - 1
  {
    if !answered {
      if probe {
        CooldownDoubles(FailedProbes(m));
      } else {
        assert ProbeDelay(1) == ProbeDelay(0) + Cooldown(0);
      }
    }
  }

  // The breaker in numbers: a success resets it, the fifth error in a row opens it for a
  // minute, every failed probe doubles the wait up to five minutes, and the next probe is due
  // exactly when the wait is over.
  lemma LookupMeans(m: Monitor, probe: bool, answered: bool, clock: int)
    requires Healthy(m) && m.open == probe
    ensures var m' := Lookup(m, probe, answered, clock);
            && m'.consecutive == (if answered then 0 else m.consecutive + 1)
            && (m'.open <==> m'.consecutive >= 5)
            && (m'.open && !m.open ==>
                  m'.openedAt == clock && m'.cooldown == 60 && m'.nextProbeAt == clock + 60)
            && (m'.open && m.open ==>
                  && m'.openedAt == m.openedAt && m'.nextProbeAt == clock + m'.cooldown
                  && m'.cooldown == if m.cooldown <= 150 then 2 * m.cooldown else 300)
  {
  }

  lemma StateMeans(m: Monitor, now: int)
    ensures State(m, now) == Closed <==> !m.open
    ensures State(m, now) == Open <==> m.open && now < m.nextProbeAt
    ensures State(m, now) == Probe <==> m.open && m.nextProbeAt <= now
  {
  }

  // The i-th probe of an outage comes at least the sum of its waits after the opening.
  lemma ProbeNotEarly(m: Monitor, now: int)
    requires Healthy(m) && State(m, now) == Probe
    ensures now >= m.openedAt + ProbeDelay(FailedProbes(m) + 1)
  {
  }

  // The waits written out: one, two and four minutes, then five minutes each.
  lemma {:induction false} ScheduleWrittenOut(i: nat)
    ensures ProbeDelay(1) == 60 && ProbeDelay(2) == 180 && ProbeDelay(3) == 420
    ensures i >= 3 ==> Cooldown(i) == 300 && ProbeDelay(i) == 420 + 300 * (i - 3)
  {
    assert Pow2(1) == 2 && Pow2(2) == 4 && Pow2(3) == 8;
    assert ProbeDelay(1) == ProbeDelay(0) + Cooldown(0);
    assert ProbeDelay(2) == ProbeDelay(1) + Cooldown(1);
    assert ProbeDelay(3) == ProbeDelay(2) + Cooldown(2);
    if i > 3 {
      ScheduleWrittenOut(i - 1);
      Pow2AtLeast8(i);
    }
  }

  lemma {:induction false} Pow2AtLeast8(n: nat)
    requires n >= 3
    ensures Pow2(n) >= 8
  {
    if n == 3 { assert Pow2(1) == 2 && Pow2(2) == 4; } else { Pow2AtLeast8(n - 1); }
  }

  // ── The mutable monitor ─────────────────────────────────────────────────────

  class PollingHealthMonitor {
    var consecutivePollErrors: nat
    var totalPollErrors: nat
    var circuitOpen: bool
    var cooldownSec: int
    var nextProbeAt: int
    var openedMono: int

    constructor ()
      ensures Abs() == FRESH && totalPollErrors == 0
    {
      consecutivePollErrors, totalPollErrors, circuitOpen := 0, 0, false;
      cooldownSec, nextProbeAt, openedMono := COOLDOWN_SECONDS, 0, 0;
    }

    function Abs(): Monitor
      reads this
    {
      Monitor(consecutivePollErrors, circuitOpen, cooldownSec, nextProbeAt, openedMono)
    }

    // `down` is how long the breaker was open, when this success closed it.
    method RecordPollSuccess(clock: int) returns (closed: bool, down: int)
      modifies this
      ensures Abs() == Success(old(Abs())) && totalPollErrors == old(totalPollErrors)
      ensures closed == old(circuitOpen) && (closed ==> down == clock - old(openedMono))
    {
      consecutivePollErrors := 0;
      closed, down := circuitOpen, clock - openedMono;
      if !circuitOpen { return; }
      circuitOpen := false;
    }

    method RecordPollError(clock: int) returns (nowOpen: bool)
      modifies this
      ensures Abs() == Failure(old(Abs()), clock) && totalPollErrors == old(totalPollErrors) + 1
      ensures nowOpen == (circuitOpen && !old(circuitOpen))
    {
      totalPollErrors := totalPollErrors + 1;
      consecutivePollErrors := consecutivePollErrors + 1;
      if circuitOpen || consecutivePollErrors < THRESHOLD { return false; }
      circuitOpen := true;
      openedMono := clock;
      cooldownSec := COOLDOWN_SECONDS;
      nextProbeAt := openedMono + cooldownSec;
      nowOpen := true;
    }

    method RecordProbeFailure(clock: int)
      modifies this
      ensures Abs() == ProbeFailure(old(Abs()), clock) && totalPollErrors == old(totalPollErrors) + 1
    {
      totalPollErrors := totalPollErrors + 1;
      consecutivePollErrors := consecutivePollErrors + 1;
      cooldownSec := Min(cooldownSec * 2, MAX_COOLDOWN_SECONDS);
      nextProbeAt := clock + cooldownSec;
    }
  }
}
