// One tracked order of the fill poller (backend/execution/order_poller.py,
// _PollEntry and _apply_update_locked): how cumulative broker reports become
// increments, and why each share is handed to the fill callback exactly once.
module PollEntry {
  import opened Orders

  const TIMEOUT_SECONDS: int := 1800

  // Back-off of the next poll: 10, 30, 60, 120, then 300 seconds.
  function PollInterval(index: nat): int {
    if index == 0 then 10 else if index == 1 then 30 else if index == 2 then 60
    else if index == 3 then 120 else 300
  }

  datatype Entry = Entry(
    order: Order, watermark: int, terminalFired: bool,
    registeredAt: int, pollIndex: nat, nextPollAt: int)
  {
    function Advance(clock: int): Entry {
      this.(pollIndex := pollIndex + 1, nextPollAt := clock + PollInterval(pollIndex))
    }

    predicate TimedOut(clock: int) {
      clock - registeredAt > TIMEOUT_SECONDS
    }
  }

  // The copy handed to the fill callback: the increment and the running total.
  datatype Delivery = Delivery(increment: int, cumulative: int)

  // What one broker report did to an entry.
  datatype Applied = Applied(
    entry: Entry,
    settled: bool,                 // False: the fill callback raised, the entry is kept for a retry
    delivered: Option<Delivery>,   // the fill callback ran and succeeded
    dropped: bool,                 // unregister the order
    terminal: bool)                // the terminal branch ran

  function ApplyReport(e: Entry, r: Report, callbackOk: bool, clock: int): Applied {
    var e1 := e.(order := Updated(e.order, r));
    var increment := r.filled - e.watermark;
    if r.status == Filled then
      if increment > 0 then
        if callbackOk
        then Applied(e1.(watermark := r.filled), true, Some(Delivery(increment, r.filled)), true, false)
        else Applied(e1.Advance(clock), false, None, false, false)
      else Applied(e1, true, None, true, false)
    else if TerminalNegative(r.status) then
      if e.terminalFired then Applied(e1, true, None, false, false)
      else Applied(e1.(terminalFired := true), true, None, true, true)
    else if r.status == PartialFilled && increment > 0 then
      if callbackOk
      then Applied(e1.(watermark := r.filled).Advance(clock), true, Some(Delivery(increment, r.filled)), false, false)
      else Applied(e1.Advance(clock), false, None, false, false)
    else Applied(e1.Advance(clock), true, None, false, false)
  }

  // Re-registering a tracked id updates the live entry; the seed can only raise the watermark.
  function Reseed(e: Entry, order: Order, seed: int): Entry {
    e.(order := order, watermark := if seed > e.watermark then seed else e.watermark)
  }

  // ── Every interleaving on one entry ─────────────────────────────────────────

  // The steps other threads can take on an entry, each under its processing lock.
  datatype Event =
    | Apply(report: Report, callbackOk: bool, clock: int)   // a poll or a resync
    | Reregister(order: Order, seed: int)
    | Postpone(clock: int)                                  // a failed or empty lookup

  // Shares lo+1 .. hi left the "not yet reported" range in one step: either
  // delivered to the callback or declared already processed by a seed.
  datatype Span = Span(lo: int, hi: int, delivered: bool)

  // An entry with the observable history of its callbacks.
  datatype Tracked = Tracked(entry: Entry, start: int, spans: seq<Span>, terminalCalls: nat)

  function Track(e: Entry): Tracked { Tracked(e, e.watermark, [], 0) }

  function TrackApply(t: Tracked, r: Report, callbackOk: bool, clock: int): Tracked {
    var a := ApplyReport(t.entry, r, callbackOk, clock);
    Tracked(a.entry, t.start,
            if a.delivered.Some?
            then t.spans + [Span(a.delivered.value.cumulative - a.delivered.value.increment,
                                 a.delivered.value.cumulative, true)]
            else t.spans,
            if a.terminal then t.terminalCalls + 1 else t.terminalCalls)
  }

  function TrackReseed(t: Tracked, order: Order, seed: int): Tracked {
    var e := Reseed(t.entry, order, seed);
    t.(entry := e,
       spans := if e.watermark > t.entry.watermark
                then t.spans + [Span(t.entry.watermark, e.watermark, false)] else t.spans)
  }

  function Step(t: Tracked, ev: Event): Tracked {
    match ev
    case Apply(r, ok, clock) => TrackApply(t, r, ok, clock)
    case Reregister(o, seed) => TrackReseed(t, o, seed)
    case Postpone(clock) => t.(entry := t.entry.Advance(clock))
  }

  function Run(t: Tracked, evs: seq<Event>): Tracked
    decreases |evs|
  {
    if evs == [] then t else Run(Step(t, evs[0]), evs[1..])
  }

  // The spans tile (start, watermark] from left to right without gap or overlap.
  predicate Chained(spans: seq<Span>, from: int, to: int) {
    if spans == [] then from == to
    else spans[0].lo == from && spans[0].lo < spans[0].hi && Chained(spans[1..], spans[0].hi, to)
  }

  ghost predicate Accounted(t: Tracked) {
    && Chained(t.spans, t.start, t.entry.watermark)
    && t.terminalCalls == (if t.entry.terminalFired then 1 else 0)
  }

  lemma {:induction false} ChainExtends(spans: seq<Span>, from: int, mid: int, s: Span)
    requires Chained(spans, from, mid) && s.lo == mid && s.lo < s.hi
    ensures Chained(spans + [s], from, s.hi)
  {
    if spans == [] {
      assert [s][1..] == [];
    } else {
      ChainExtends(spans[1..], spans[0].hi, mid, s);
      assert (spans + [s])[1..] == spans[1..] + [s];
    }
  }

  lemma StepAccounted(t: Tracked, ev: Event)
    requires Accounted(t)
    ensures Accounted(Step(t, ev))
    ensures t.entry.watermark <= Step(t, ev).entry.watermark
    ensures t.spans <= Step(t, ev).spans
    ensures var more := Step(t, ev).spans[|t.spans|..];
            match ev
            case Apply(r, ok, clock) =>
              var a := ApplyReport(t.entry, r, ok, clock);
              more == if a.delivered.Some? then [Span(t.entry.watermark, r.filled, true)] else []
            case Reregister(_, seed) =>
              more == if seed > t.entry.watermark then [Span(t.entry.watermark, seed, false)] else []
            case Postpone(_) => more == []
  {
    var t' := Step(t, ev);
    if t'.spans != t.spans {
      ChainExtends(t.spans, t.start, t.entry.watermark, t'.spans[|t.spans|]);
    }
  }

  lemma {:induction false} RunAccounted(t: Tracked, evs: seq<Event>)
    requires Accounted(t)
    ensures Accounted(Run(t, evs)) && Run(t, evs).start == t.start
    ensures t.entry.watermark <= Run(t, evs).entry.watermark
    ensures t.spans <= Run(t, evs).spans
    decreases |evs|
  {
    if evs != [] {
      StepAccounted(t, evs[0]);
      RunAccounted(Step(t, evs[0]), evs[1..]);
    }
  }

  // ── What the chain means for the shares ─────────────────────────────────────

  predicate Covers(s: Span, share: int) { s.lo < share <= s.hi }

  ghost predicate Reported(spans: seq<Span>, share: int) {
    exists i :: 0 <= i < |spans| && Covers(spans[i], share)
  }

  lemma {:induction false} ChainBounds(spans: seq<Span>, from: int, to: int)
    requires Chained(spans, from, to)
    ensures from <= to
    ensures forall i :: 0 <= i < |spans| ==> from <= spans[i].lo < spans[i].hi <= to
    ensures forall i, j :: 0 <= i < j < |spans| ==> spans[i].hi <= spans[j].lo
  {
    if spans != [] {
      var rest := spans[1..];
      ChainBounds(rest, spans[0].hi, to);
      assert forall i :: 1 <= i < |spans| ==> spans[i] == rest[i - 1];
    }
  }

  lemma {:induction false} ChainCovers(spans: seq<Span>, from: int, to: int, share: int)
    requires Chained(spans, from, to) && from < share <= to
    ensures Reported(spans, share)
  {
    if share <= spans[0].hi {
      assert Covers(spans[0], share);
    } else {
      ChainCovers(spans[1..], spans[0].hi, to, share);
      var i :| 0 <= i < |spans[1..]| && Covers(spans[1..][i], share);
      assert Covers(spans[i + 1], share);
    }
  }

  // Quantity of the delivered (or of the seeded) spans.
  function Total(spans: seq<Span>, delivered: bool): int {
    if spans == [] then 0
    else (if spans[0].delivered == delivered then spans[0].hi - spans[0].lo else 0)
         + Total(spans[1..], delivered)
  }

  lemma {:induction false} ChainTotals(spans: seq<Span>, from: int, to: int)
    requires Chained(spans, from, to)
    ensures Total(spans, true) + Total(spans, false) == to - from
  {
    if spans != [] { ChainTotals(spans[1..], spans[0].hi, to); }
  }

  // Exactly-once fills: over any interleaving, from a fresh entry, every share
  // between the initial seed and the watermark was delivered once or seeded
  // once, never both and never twice; shares outside never; the totals of the
  // successful deliveries strictly increase; the terminal callback ran at most once.
  lemma ExactlyOnce(e: Entry, evs: seq<Event>)
    requires !e.terminalFired
    ensures var t := Run(Track(e), evs);
            && e.watermark <= t.entry.watermark
            && (forall share :: Reported(t.spans, share) <==> e.watermark < share <= t.entry.watermark)
            && (forall share, i, j | 0 <= i < j < |t.spans| ::
                  !(Covers(t.spans[i], share) && Covers(t.spans[j], share)))
            && (forall i, j :: 0 <= i < j < |t.spans| ==> t.spans[i].hi < t.spans[j].hi)
            && Total(t.spans, true) + Total(t.spans, false) == t.entry.watermark - e.watermark
            && t.terminalCalls <= 1
  {
    RunAccounted(Track(e), evs);
    var t := Run(Track(e), evs);
    ChainBounds(t.spans, e.watermark, t.entry.watermark);
    ChainTotals(t.spans, e.watermark, t.entry.watermark);
    forall share ensures Reported(t.spans, share) <==> e.watermark < share <= t.entry.watermark {
      if e.watermark < share <= t.entry.watermark {
        ChainCovers(t.spans, e.watermark, t.entry.watermark, share);
      }
    }
  }

  // Seconds until the next poll, by how many there were.
  function BackOff(polls: nat): int { if polls < 4 then [10, 30, 60, 120][polls] else 300 }

  // What one report does, field by field. News is a fill beyond the watermark; only a
  // callback that raises on news leaves the report unsettled.
  lemma ReportMeans(e: Entry, r: Report, callbackOk: bool, clock: int)
    ensures var a := ApplyReport(e, r, callbackOk, clock);
            var news := r.filled > e.watermark && (r.status == Filled || r.status == PartialFilled);
            var closing := r.status in {Canceled, Rejected, Expired};
            && a.entry.order == e.order.(status := r.status, filled := r.filled, avg := r.avg)
            && a.settled == (!news || callbackOk)
            && a.delivered == (if news && callbackOk then Some(Delivery(r.filled - e.watermark, r.filled)) else None)
            && a.entry.watermark == (if news && callbackOk then r.filled else e.watermark)
            && a.terminal == (closing && !e.terminalFired)
            && a.entry.terminalFired == (e.terminalFired || closing)
            && a.dropped == (a.terminal || (r.status == Filled && a.settled))
            && a.entry.registeredAt == e.registeredAt
            && (if closing || (r.status == Filled && a.settled)
                then a.entry.pollIndex == e.pollIndex && a.entry.nextPollAt == e.nextPollAt
                else a.entry.pollIndex == e.pollIndex + 1 && a.entry.nextPollAt == clock + BackOff(e.pollIndex))
  {
  }

  // A lost callback heals: the report that failed, seen again, delivers exactly the
  // increment that was missed; a report already applied delivers nothing.
  lemma RetryDeliversOnce(e: Entry, r: Report, c0: int, c1: int, c2: int)
    requires r.status == Filled || r.status == PartialFilled
    requires r.filled > e.watermark
    ensures var failed := ApplyReport(e, r, false, c0);
            var retried := ApplyReport(failed.entry, r, true, c1);
            var again := ApplyReport(retried.entry, r, true, c2);
            && !failed.settled && !failed.dropped && failed.entry.watermark == e.watermark
            && retried.settled && retried.delivered == Some(Delivery(r.filled - e.watermark, r.filled))
            && (retried.dropped <==> r.status == Filled)
            && again.settled && again.delivered.None? && again.entry.watermark == r.filled
  {
  }

  // ── The mutable entry ───────────────────────────────────────────────────────

  // Which functions the entry calls; a timeout handler there always is.
  datatype Callbacks = Callbacks(
    filled: nat, timeout: nat, canceled: Option<nat>, rejected: Option<nat>, expired: Option<nat>)

  class PollEntry {
    var order: Order
    var callbacks: Callbacks
    var lastReportedQty: int
    var terminalFired: bool
    const registeredAt: int
    var pollIndex: nat
    var nextPollAt: int
    var timeoutDeferredReported: bool

    constructor (order: Order, callbacks: Callbacks, seed: int, clock: int)
      ensures this.callbacks == callbacks && State() == Entry(order, seed, false, clock, 0, clock)
      ensures !timeoutDeferredReported
    {
      this.order, this.callbacks, lastReportedQty, terminalFired := order, callbacks, seed, false;
      registeredAt, pollIndex, nextPollAt := clock, 0, clock;
      timeoutDeferredReported := false;
    }

    function State(): Entry
      reads this
    {
      Entry(order, lastReportedQty, terminalFired, registeredAt, pollIndex, nextPollAt)
    }

    method Advance(clock: int)
      modifies this`pollIndex, this`nextPollAt
      ensures State() == old(State()).Advance(clock)
    {
      var wait := PollInterval(pollIndex);
      pollIndex := pollIndex + 1;
      nextPollAt := clock + wait;
    }

    // A timeout put off because the lookup failed is reported the first time only.
    method ReportTimeoutDeferred() returns (reported: bool)
      modifies this`timeoutDeferredReported
      ensures timeoutDeferredReported && reported == !old(timeoutDeferredReported)
    {
      if timeoutDeferredReported { return false; }
      timeoutDeferredReported := true;
      reported := true;
    }

    method Reregister(newOrder: Order, newCallbacks: Callbacks, seed: int)
      modifies this`order, this`callbacks, this`lastReportedQty
      ensures State() == Reseed(old(State()), newOrder, seed) && callbacks == newCallbacks
      ensures order == newOrder && lastReportedQty >= seed && lastReportedQty >= old(lastReportedQty)
      ensures lastReportedQty == seed || lastReportedQty == old(lastReportedQty)
    {
      order, callbacks := newOrder, newCallbacks;
      if seed > lastReportedQty { lastReportedQty := seed; }
    }

    // `callbackOk` is whether the fill callback returned; the callback itself is
    // whatever the caller does with `delivered`.
    method ApplyUpdate(r: Report, callbackOk: bool, clock: int)
      returns (settled: bool, delivered: Option<Delivery>, dropped: bool, terminal: bool)
      modifies this`order, this`lastReportedQty, this`terminalFired, this`pollIndex, this`nextPollAt
      ensures Applied(State(), settled, delivered, dropped, terminal)
           == ApplyReport(old(State()), r, callbackOk, clock)
    {
      settled, delivered, dropped, terminal := true, None, false, false;
      order := Updated(order, r);
      match r.status
      case Filled =>
        var incremental := r.filled - lastReportedQty;
        if incremental > 0 {
          if !callbackOk {
            Advance(clock);
            settled := false;
            return;
          }
          delivered := Some(Delivery(incremental, r.filled));
          lastReportedQty := r.filled;
        }
        dropped := true;
      case Canceled | Rejected | Expired =>
        if terminalFired { return; }
        terminalFired := true;
        dropped, terminal := true, true;
      case PartialFilled =>
        var incremental := r.filled - lastReportedQty;
        if incremental > 0 {
          if !callbackOk {
            Advance(clock);
            settled := false;
            return;
          }
          delivered := Some(Delivery(incremental, r.filled));
          lastReportedQty := r.filled;
        }
        Advance(clock);
      case Pending | Submitted | Unknown =>
        Advance(clock);
    }
  }
}
