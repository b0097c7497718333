// The poller object (backend/execution/order_poller.py, OrderFillPoller): its
// table of entries, registration, resync, and one undisturbed tick. What other
// threads may do between the steps of a tick is in PollerProtocol.
module Poller {
  import opened Basics
  import opened Orders
  import opened PollEntry
  import B = Breaker
  import P = PollerProtocol

  // What the outside does to one entry in a tick: the broker's answer, whether the
  // fill callback returns, when its turn came and the time after the lookup. A tick
  // polls an entry at most once.
  datatype Visit = Visit(answer: P.Answer, callbackOk: bool, started: int, clock: int)

  function Visited(e: Entry, v: Visit): Entry {
    match v.answer
    case Failed | Absent => e.Advance(v.clock)
    case Answered(r) => ApplyReport(e, r, v.callbackOk, v.clock).entry
  }

  predicate Closes(e: Entry, v: Visit) {
    v.answer.Answered? && ApplyReport(e, v.answer.report, v.callbackOk, v.clock).dropped
  }

  // The tick may cancel this order: expired, freshly read, still registered, not terminal.
  predicate Expires(e: Entry, v: Visit) {
    e.TimedOut(v.started) && !v.answer.Failed? && !Closes(e, v) && !Terminal(Visited(e, v).order.status)
  }

  type Table = map<OrderId, Entry>

  function VisitOne(t: Table, id: OrderId, v: Visit): Table {
    if id !in t then t
    else if Closes(t[id], v) then t - {id} else t[id := Visited(t[id], v)]
  }

  // One due entry of a closed tick: polled, then timed out if it is expired and still open.
  function TickOne(t: Table, id: OrderId, v: Visit): Table {
    if id in t && Expires(t[id], v) then t - {id} else VisitOne(t, id, v)
  }

  function TickAll(t: Table, looked: seq<OrderId>, env: OrderId -> Visit): Table {
    if looked == [] then t
    else
      var last := looked[|looked| - 1];
      TickOne(TickAll(t, looked[..|looked| - 1], env), last, env(last))
  }

  // The breaker after the lookups of a closed tick, in the order they were made.
  function MonitorAfter(m: B.Monitor, looked: seq<OrderId>, env: OrderId -> Visit): B.Monitor {
    if looked == [] then m
    else
      var v := env(looked[|looked| - 1]);
      B.Lookup(MonitorAfter(m, looked[..|looked| - 1], env), false, !v.answer.Failed?, v.clock)
  }

  // The lookups and timeouts of a closed tick: due entries only, each once, all of
  // them unless the breaker opened; timed out are exactly those that expired.
  ghost predicate IsTick(t: Table, looked: seq<OrderId>, timedOut: seq<OrderId>, now: int,
                         env: OrderId -> Visit, broke: bool) {
    && Distinct(looked) && Distinct(timedOut)
    && (forall id :: id in looked ==> id in t && t[id].nextPollAt <= now)
    && (!broke ==> forall id :: id in t && t[id].nextPollAt <= now ==> id in looked)
    && (forall id :: id in timedOut <==> id in looked && id in t && Expires(t[id], env(id)))
  }

  // The breaker was closed when each of the lookups was made.
  ghost predicate ClosedBeforeEach(m: B.Monitor, looked: seq<OrderId>, env: OrderId -> Visit) {
    forall i :: 0 <= i < |looked| ==> !MonitorAfter(m, looked[..i], env).open
  }

  lemma ClosedBeforeOneMore(m: B.Monitor, looked: seq<OrderId>, id: OrderId, env: OrderId -> Visit)
    requires ClosedBeforeEach(m, looked, env) && !MonitorAfter(m, looked, env).open
    ensures ClosedBeforeEach(m, looked + [id], env)
  {
    forall i | 0 <= i < |looked + [id]| ensures !MonitorAfter(m, (looked + [id])[..i], env).open {
      assert (looked + [id])[..i] == looked[..i];
      assert looked[..|looked|] == looked;
    }
  }

  // What a tick at `now` does to the table and the breaker.
  ghost predicate Ticked(t: Table, m: B.Monitor, t': Table, m': B.Monitor,
                         looked: seq<OrderId>, timedOut: seq<OrderId>, now: int, env: OrderId -> Visit)
  {
    match B.State(m, now)
    // nothing is read, nothing changes
    case Open => looked == [] && timedOut == [] && m' == m && t' == t
    // one lookup, of the entry due first, and no timeout
    case Probe =>
      && timedOut == []
      && if t == map[] then looked == [] && m' == m && t' == t
         else
           && |looked| == 1 && looked[0] in t
           && (forall id :: id in t ==> t[looked[0]].nextPollAt <= t[id].nextPollAt)
           && m' == B.Lookup(m, true, !env(looked[0]).answer.Failed?, env(looked[0]).clock)
           && t' == VisitOne(t, looked[0], env(looked[0]))
    // due entries only, each once, all of them unless a lookup opened the breaker,
    // which ends the tick
    case Closed =>
      && IsTick(t, looked, timedOut, now, env, m'.open) && ClosedBeforeEach(m, looked, env)
      && m' == MonitorAfter(m, looked, env) && t' == TickAll(t, looked, env)
  }

  // The same, part-way: `done` is the visited part of the snapshot.
  ghost predicate Drained(t: Table, done: seq<OrderId>, looked: seq<OrderId>, timedOut: seq<OrderId>,
                          now: int, env: OrderId -> Visit) {
    && Distinct(looked) && Distinct(timedOut)
    && (forall id :: id in looked <==> id in done && id in t && t[id].nextPollAt <= now)
    && (forall id :: id in timedOut <==> id in looked && id in t && Expires(t[id], env(id)))
  }

  lemma DrainedStep(t: Table, done: seq<OrderId>, looked: seq<OrderId>, timedOut: seq<OrderId>,
                    now: int, env: OrderId -> Visit, id: OrderId)
    requires Drained(t, done, looked, timedOut, now, env)
    requires id in t && id !in done && t[id].nextPollAt <= now
    ensures Drained(t, done + [id], looked + [id],
                    if Expires(t[id], env(id)) then timedOut + [id] else timedOut, now, env)
  {
  }

  // The lookup did not fail, and the order is open by what it said, or by what was known
  // before if it found nothing.
  predicate ReadOpen(e: Entry, v: Visit) {
    && !v.answer.Failed?
    && (if v.answer.Answered? then v.answer.report.status else e.order.status)
         !in {Filled, Canceled, Rejected, Expired}
  }

  // The report ends the order: filled and handed over, or the first to say it is closed.
  predicate ReadEnded(e: Entry, v: Visit) {
    && v.answer.Answered?
    && var r := v.answer.report;
       || (r.status == Filled && (v.callbackOk || r.filled <= e.watermark))
       || (r.status in {Canceled, Rejected, Expired} && !e.terminalFired)
  }

  // Read open, more than half an hour after it was registered.
  predicate OverTime(e: Entry, v: Visit) { ReadOpen(e, v) && v.started - e.registeredAt > 1800 }

  lemma VisitMeans(e: Entry, v: Visit)
    ensures Closes(e, v) <==> ReadEnded(e, v)
    ensures Expires(e, v) <==> OverTime(e, v)
  {
  }

  lemma {:induction false} TickByVisits(t: Table, looked: seq<OrderId>, env: OrderId -> Visit)
    requires Distinct(looked) && forall id :: id in looked ==> id in t
    ensures var t' := TickAll(t, looked, env);
            forall id ::
              && (id in t' <==> id in t && !(id in looked && (Closes(t[id], env(id)) || Expires(t[id], env(id)))))
              && (id in t' ==> t'[id] == if id in looked then Visited(t[id], env(id)) else t[id])
  {
    if looked != [] {
      var n := |looked| - 1;
      TickByVisits(t, looked[..n], env);
      assert looked[n] !in looked[..n];
      assert looked == looked[..n] + [looked[n]];
    }
  }

  // What a closed tick leaves, entry by entry: an order that was not looked up is
  // untouched; one that was is gone exactly if its report ended it, or it was read
  // open more than half an hour after its registration; otherwise it holds the result of
  // its own visit only.
  lemma TickEntryByEntry(t: Table, looked: seq<OrderId>, env: OrderId -> Visit, id: OrderId)
    requires Distinct(looked) && forall k :: k in looked ==> k in t
    ensures var t' := TickAll(t, looked, env);
            && (id in t' <==> id in t && !(id in looked && (ReadEnded(t[id], env(id)) || OverTime(t[id], env(id)))))
            && (id in t' ==> t'[id] == if id in looked then Visited(t[id], env(id)) else t[id])
  {
    TickByVisits(t, looked, env);
    if id in t { VisitMeans(t[id], env(id)); }
  }

  // An order looked up in a closed tick is timed out, and gone, exactly when it was read
  // open over its time; otherwise it is gone exactly when its report ended it.
  lemma TimedOutIff(t: Table, m: B.Monitor, t': Table, m': B.Monitor, looked: seq<OrderId>, timedOut: seq<OrderId>,
                    now: int, env: OrderId -> Visit, id: OrderId)
    requires Ticked(t, m, t', m', looked, timedOut, now, env) && !m.open
    ensures id in timedOut ==> id in looked
    ensures id in looked ==>
              && id in t
              && (id in timedOut <==> OverTime(t[id], env(id)))
              && (id in t' <==> id !in timedOut && !ReadEnded(t[id], env(id)))
  {
    TickEntryByEntry(t, looked, env, id);
    if id in looked { VisitMeans(t[id], env(id)); }
  }

  lemma OneMoreLooked(t: Table, m: B.Monitor, looked: seq<OrderId>, id: OrderId, env: OrderId -> Visit)
    ensures TickAll(t, looked + [id], env) == TickOne(TickAll(t, looked, env), id, env(id))
    ensures MonitorAfter(m, looked + [id], env)
         == B.Lookup(MonitorAfter(m, looked, env), false, !env(id).answer.Failed?, env(id).clock)
  {
    assert (looked + [id])[..|looked|] == looked;
  }

  class OrderFillPoller {
    var entries: Table
    var deferredReported: set<OrderId>   // expired, unreadable, and said so
    const health: B.PollingHealthMonitor

    ghost predicate Valid()
      reads this
    {
      forall id :: id in entries ==> id != 0 && entries[id].order.id == id
    }

    constructor ()
      ensures Valid() && entries == map[] && fresh(health) && health.Abs() == B.FRESH
    {
      entries, deferredReported := map[], {};
      health := new B.PollingHealthMonitor();
    }

    // One entry per id: a tracked order is updated in place, and its watermark never drops.
    method Register(order: Order, seed: int, clock: int)
      requires Valid()
      modifies this`entries
      ensures Valid()
      ensures order.id == 0 ==> entries == old(entries)
      ensures order.id != 0 ==>
                && entries.Keys == old(entries).Keys + {order.id}
                && (forall id :: id in old(entries) && id != order.id ==> entries[id] == old(entries)[id])
                && entries[order.id].order == order
                && (order.id in old(entries) ==>
                      && entries[order.id] == Reseed(old(entries)[order.id], order, seed)
                      && entries[order.id].watermark == Max(old(entries)[order.id].watermark, seed)
                      && entries[order.id].registeredAt == old(entries)[order.id].registeredAt)
                && (order.id !in old(entries) ==> entries[order.id] == Entry(order, seed, false, clock, 0, clock))
    {
      if order.id == 0 { return; }
      if order.id in entries {
        var existing := entries[order.id];
        entries := entries[order.id := existing.(
                             order := order,
                             watermark := if existing.watermark < seed then seed else existing.watermark)];
      } else {
        entries := entries[order.id := Entry(order, seed, false, clock, 0, clock)];
      }
    }

    method Unregister(id: OrderId)
      requires Valid()
      modifies this`entries
      ensures Valid() && entries == old(entries) - {id}
    {
      entries := entries - {id};
    }

    // The reconciler's way in: the same pipeline as a poll. `owned` is false when no
    // live entry exists; `applied` is false when the callback raised and the entry was kept.
    method Resync(id: OrderId, r: Report, callbackOk: bool, clock: int)
      returns (owned: bool, applied: bool, delivered: Option<Delivery>)
      requires Valid()
      modifies this`entries
      ensures Valid()
      ensures owned == (id in old(entries))
      ensures !owned ==> !applied && delivered.None? && entries == old(entries)
      ensures owned ==>
                var a := ApplyReport(old(entries)[id], r, callbackOk, clock);
                && applied == a.settled && delivered == a.delivered
                && entries == if a.dropped then old(entries) - {id} else old(entries)[id := a.entry]
      ensures owned && !applied ==> id in entries && !callbackOk && entries[id].watermark == old(entries)[id].watermark
    {
      if id !in entries { return false, false, None; }
      var a := ApplyReport(entries[id], r, callbackOk, clock);
      entries := if a.dropped then entries - {id} else entries[id := a.entry];
      return true, a.settled, a.delivered;
    }

    // _poll_one: one lookup, the breaker told, the answer applied or the poll postponed.
    method PollOne(id: OrderId, probe: bool, v: Visit) returns (answered: bool)
      requires Valid() && id in entries
      modifies this`entries, health
      ensures Valid()
      ensures answered == !v.answer.Failed?
      ensures health.Abs() == B.Lookup(old(health.Abs()), probe, answered, v.clock)
      ensures entries == VisitOne(old(entries), id, v)
    {
      answered := !v.answer.Failed?;
      if answered {
        var closed, down := health.RecordPollSuccess(v.clock);
      } else if probe {
        health.RecordProbeFailure(v.clock);
      } else {
        var nowOpen := health.RecordPollError(v.clock);
      }
      if v.answer.Answered? {
        var owned, settled, delivered := Resync(id, v.answer.report, v.callbackOk, v.clock);
      } else {
        entries := entries[id := entries[id].Advance(v.clock)];
      }
    }

    // A due entry of a closed tick, as TickOne says.
    method TickEntry(id: OrderId, v: Visit) returns (timedOut: bool)
      requires Valid() && id in entries
      modifies this`entries, this`deferredReported, health
      ensures Valid()
      ensures health.Abs() == B.Lookup(old(health.Abs()), false, !v.answer.Failed?, v.clock)
      ensures timedOut == OverTime(old(entries)[id], v) && (timedOut <==> Expires(old(entries)[id], v))
      ensures entries == TickOne(old(entries), id, v)
      ensures deferredReported == if old(entries)[id].TimedOut(v.started) && v.answer.Failed?
                                  then old(deferredReported) + {id} else old(deferredReported)
    {
      VisitMeans(entries[id], v);
      var expired := entries[id].TimedOut(v.started);
      var answered := PollOne(id, false, v);
      timedOut := false;
      if expired && !answered {
        deferredReported := deferredReported + {id};
      } else if expired && id in entries && !Terminal(entries[id].order.status) {
        Unregister(id);
        timedOut := true;
      }
    }

    // The keys of the table in some order; a map has none of its own.
    method Snapshot() returns (ids: seq<OrderId>)
      ensures forall id :: id in ids <==> id in entries
      ensures Distinct(ids)
    {
      ids := [];
      var left := entries.Keys;
      while left != {}
        invariant left <= entries.Keys
        invariant forall id :: id in ids <==> id in entries && id !in left
        invariant Distinct(ids)
        decreases left
      {
        var id :| id in left;
        ids, left := ids + [id], left - {id};
      }
    }

    method EarliestDue(ids: seq<OrderId>) returns (id: OrderId)
      requires ids != [] && forall i :: i in ids ==> i in entries
      ensures id in ids
      ensures forall i :: i in ids ==> entries[id].nextPollAt <= entries[i].nextPollAt
    {
      id := ids[0];
      for k := 1 to |ids|
        invariant id in ids
        invariant forall j :: 0 <= j < k ==> entries[id].nextPollAt <= entries[ids[j]].nextPollAt
      {
        if entries[ids[k]].nextPollAt < entries[id].nextPollAt { id := ids[k]; }
      }
    }

    // One tick. `looked` are the orders whose lookup was made, oldest first;
    // `timedOut` those cancelled at the broker and reported as timed out.
    method PollDue(now: int, env: OrderId -> Visit) returns (looked: seq<OrderId>, timedOut: seq<OrderId>)
      requires Valid() && B.Healthy(health.Abs())
      requires forall id :: now <= env(id).started <= env(id).clock
      modifies this`entries, this`deferredReported, health
      ensures Valid() && B.Healthy(health.Abs())
      ensures Ticked(old(entries), old(health.Abs()), entries, health.Abs(), looked, timedOut, now, env)
      ensures !old(health.circuitOpen) ==> forall id :: id in looked ==>
                && id in old(entries)
                && (id in timedOut <==> OverTime(old(entries)[id], env(id)))
                && (id in entries <==> id !in timedOut && !ReadEnded(old(entries)[id], env(id)))
    {
      looked, timedOut := [], [];
      var circuit := B.State(health.Abs(), now);
      var ids := Snapshot();
      if circuit == B.Open || ids == [] {
        assert ids == [] ==> forall id :: id !in entries;
        return;
      }
      if circuit == B.Probe {
        var id := EarliestDue(ids);
        B.LookupHealthy(health.Abs(), true, !env(id).answer.Failed?, now, env(id).clock);
        var answered := PollOne(id, true, env(id));
        looked := [id];
        return;
      }
      looked, timedOut := Drain(ids, now, env);
      forall id | id in looked
        ensures id in old(entries)
        ensures id in timedOut <==> OverTime(old(entries)[id], env(id))
        ensures id in entries <==> id !in timedOut && !ReadEnded(old(entries)[id], env(id))
      {
        TimedOutIff(old(entries), old(health.Abs()), entries, health.Abs(), looked, timedOut, now, env, id);
      }
    }

    // The closed tick over its snapshot.
    method Drain(ids: seq<OrderId>, now: int, env: OrderId -> Visit)
      returns (looked: seq<OrderId>, timedOut: seq<OrderId>)
      requires Valid() && B.Healthy(health.Abs()) && !health.circuitOpen
      requires forall id :: now <= env(id).started <= env(id).clock
      requires Distinct(ids) && forall id :: id in ids <==> id in entries
      modifies this`entries, this`deferredReported, health
      ensures Valid() && B.Healthy(health.Abs())
      ensures IsTick(old(entries), looked, timedOut, now, env, health.Abs().open)
      ensures ClosedBeforeEach(old(health.Abs()), looked, env)
      ensures health.Abs() == MonitorAfter(old(health.Abs()), looked, env)
      ensures entries == TickAll(old(entries), looked, env)
    {
      looked, timedOut := [], [];
      ghost var t0 := entries;
      for k := 0 to |ids|
        invariant Valid() && B.Healthy(health.Abs())
        invariant Drained(t0, ids[..k], looked, timedOut, now, env)
        invariant ClosedBeforeEach(old(health.Abs()), looked, env)
        invariant health.Abs() == MonitorAfter(old(health.Abs()), looked, env)
        invariant entries == TickAll(t0, looked, env)
      {
        var id := ids[k];
        TickByVisits(t0, looked, env);
        assert id !in ids[..k];
        assert id in entries && entries[id] == t0[id];
        assert ids[..k + 1] == ids[..k] + [id];
        if entries[id].nextPollAt <= now {
          if health.circuitOpen { return; }   // opened during this tick: stop here
          B.LookupHealthy(health.Abs(), false, !env(id).answer.Failed?, now, env(id).clock);
          ClosedBeforeOneMore(old(health.Abs()), looked, id, env);
          DrainedStep(t0, ids[..k], looked, timedOut, now, env, id);
          var expired := TickEntry(id, env(id));
          OneMoreLooked(t0, old(health.Abs()), looked, id, env);
          looked := looked + [id];
          if expired { timedOut := timedOut + [id]; }
        }
      }
      assert ids[..|ids|] == ids;
    }
  }
}
