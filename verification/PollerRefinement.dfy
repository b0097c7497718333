// The poller's tick, as the class OrderFillPoller runs it, is a run of the interleaved
// protocol in which no other thread gets a turn. What holds over every interleaving
// therefore holds of the class.
module PollerRefinement {
  import opened Basics
  import opened Orders
  import opened PollEntry
  import opened Poller
  import B = Breaker
  import P = PollerProtocol

  // ── Runs, without their events ──────────────────────────────────────────────

  ghost predicate Reaches(s: P.Poller, s': P.Poller) {
    exists evs :: P.CanRun(s, evs) && P.Run(s, evs) == s'
  }

  lemma Stays(s: P.Poller)
    ensures Reaches(s, s)
  {
    assert P.CanRun(s, []) && P.Run(s, []) == s;
  }

  lemma {:induction false} RunConcat(s: P.Poller, a: seq<P.Event>, b: seq<P.Event>)
    requires P.CanRun(s, a) && P.CanRun(P.Run(s, a), b)
    ensures P.CanRun(s, a + b) && P.Run(s, a + b) == P.Run(P.Run(s, a), b)
    decreases |a|
  {
    if a == [] {
      assert a + b == b;
    } else {
      RunConcat(P.Next(s, a[0]), a[1..], b);
      assert (a + b)[0] == a[0] && (a + b)[1..] == a[1..] + b;
    }
  }

  lemma ThenReaches(s: P.Poller, mid: P.Poller, s': P.Poller)
    requires Reaches(s, mid) && Reaches(mid, s')
    ensures Reaches(s, s')
  {
    var a :| P.CanRun(s, a) && P.Run(s, a) == mid;
    var b :| P.CanRun(mid, b) && P.Run(mid, b) == s';
    RunConcat(s, a, b);
  }

  lemma Takes(s: P.Poller, mid: P.Poller, ev: P.Event, s': P.Poller)
    requires Reaches(s, mid) && P.Enabled(mid, ev) && s' == P.Next(mid, ev)
    ensures Reaches(s, s')
  {
    assert [ev][0] == ev && [ev][1..] == [];
    assert P.CanRun(s', []) && P.Run(s', []) == s';
    assert P.CanRun(mid, [ev]) && P.Run(mid, [ev]) == s';
    ThenReaches(s, mid, s');
  }

  // ── The table a protocol state holds ────────────────────────────────────────

  function View(s: P.Poller): Table {
    map id | id in s.entries && s.entries[id] < |s.heap| :: s.heap[s.entries[id]].entry
  }

  // Every registered entry is filed under its own order's id.
  ghost predicate Keyed(s: P.Poller) {
    forall id :: id in s.entries ==> s.entries[id] < |s.heap| && P.Id(s, s.entries[id]) == id
  }

  // The entry registered under `id` is `r`.
  ghost predicate Holds(s: P.Poller, id: OrderId, r: P.Ref) {
    Keyed(s) && id in s.entries && s.entries[id] == r
  }

  lemma Alone(s: P.Poller, id: OrderId, r: P.Ref)
    requires Holds(s, id, r)
    ensures forall other :: other in s.entries && other != id ==> s.entries[other] != r
  {
    forall other | other in s.entries && other != id ensures s.entries[other] != r {
      assert P.Id(s, s.entries[other]) == other;
    }
  }

  lemma ViewUpdate(s: P.Poller, s': P.Poller, id: OrderId, r: P.Ref, t: Tracked)
    requires Holds(s, id, r) && s'.entries == s.entries && s'.heap == s.heap[r := t] && t.entry.order.id == id
    ensures View(s') == View(s)[id := t.entry] && Keyed(s')
  {
    Alone(s, id, r);
  }

  lemma ViewDrop(s: P.Poller, s': P.Poller, id: OrderId, r: P.Ref, t: Tracked)
    requires Holds(s, id, r) && s'.entries == s.entries - {id} && s'.heap == s.heap[r := t]
    ensures View(s') == View(s) - {id} && Keyed(s')
  {
    Alone(s, id, r);
  }

  // ── One visit ───────────────────────────────────────────────────────────────

  // The log records the same timeouts, or also that of one entry.
  ghost predicate SameTimeouts(log: seq<P.Obs>, log': seq<P.Obs>) {
    forall q: P.Ref :: P.HasTimedOut(log', q) <==> P.HasTimedOut(log, q)
  }

  ghost predicate OneTimeout(log: seq<P.Obs>, log': seq<P.Obs>, r: P.Ref) {
    forall q: P.Ref :: P.HasTimedOut(log', q) <==> P.HasTimedOut(log, q) || q == r
  }

  lemma LookedTimeouts(log: seq<P.Obs>, o: P.Obs)
    requires !o.TimedOut?
    ensures SameTimeouts(log, log + [o])
  {
    P.Appended(log, o);
  }

  // The loop has read the entry's status and applied what it read.
  ghost predicate Read(s: P.Poller, s': P.Poller, id: OrderId, r: P.Ref, v: Visit, due: seq<P.Ref>)
    requires id in View(s)
  {
    && Keyed(s') && s'.clock == v.clock && r < |s'.heap| && P.Id(s', r) == id
    && s'.monitor == B.Lookup(s.monitor, false, !v.answer.Failed?, v.clock)
    && View(s') == VisitOne(View(s), id, v) && SameTimeouts(s.log, s'.log)
    && s'.entries == (if Closes(View(s)[id], v) then s.entries - {id} else s.entries)
    && s'.pc == if View(s)[id].TimedOut(v.started) && !v.answer.Failed? then P.Checking(r, due) else P.Draining(due)
  }

  ghost predicate AtTurn(s: P.Poller, id: OrderId, r: P.Ref, v: Visit, due: seq<P.Ref>) {
    Holds(s, id, r) && s.pc == P.Draining([r] + due) && !s.monitor.open && s.clock <= v.started <= v.clock
  }

  lemma Waits(s: P.Poller, clock: int) returns (s': P.Poller)
    requires Keyed(s) && s.clock <= clock
    ensures Reaches(s, s') && s' == s.(clock := clock) && View(s') == View(s) && Keyed(s')
  {
    s' := P.Next(s, P.Wait(clock - s.clock));
    Stays(s);
    Takes(s, s, P.Wait(clock - s.clock), s');
  }

  lemma FirstDue(r: P.Ref, due: seq<P.Ref>)
    ensures [r] + due != [] && ([r] + due)[0] == r && ([r] + due)[1..] == due
  {
  }

  // Its turn comes at `v.started`, its lookup ends at `v.clock`.
  lemma TakesTurn(s: P.Poller, id: OrderId, r: P.Ref, v: Visit, due: seq<P.Ref>) returns (w: P.Poller)
    requires AtTurn(s, id, r, v, due)
    ensures Reaches(s, w) && Keyed(w) && w.entries == s.entries && w.heap == s.heap && w.clock == v.clock
    ensures w.monitor == s.monitor && w.log == s.log && w.pc.Polling? && w.pc.ref == r && w.pc.due == due
    ensures w.pc.expired == View(s)[id].TimedOut(v.started)
  {
    var a := Waits(s, v.started);
    FirstDue(r, due);
    var t := P.Next(a, P.Turn);
    Takes(s, a, P.Turn, t);
    w := Waits(t, v.clock);
    ThenReaches(s, t, w);
  }

  // A lookup that fails, or finds nothing, postpones the poll.
  lemma ReadsNothing(s: P.Poller, id: OrderId, r: P.Ref, v: Visit, due: seq<P.Ref>) returns (s': P.Poller)
    requires AtTurn(s, id, r, v, due) && !v.answer.Answered?
    ensures Reaches(s, s') && Read(s, s', id, r, v, due)
  {
    var w := TakesTurn(s, id, r, v, due);
    var ev := P.Lookup(v.answer);
    s' := P.Next(w, ev);
    Takes(s, w, ev, s');
    LookedTimeouts(s.log, s'.log[|s.log|]);
    ViewUpdate(w, s', id, r, Step(w.heap[r], Postpone(w.clock)));
  }

  lemma FetchesReport(s: P.Poller, id: OrderId, r: P.Ref, v: Visit, due: seq<P.Ref>) returns (f: P.Poller)
    requires AtTurn(s, id, r, v, due) && v.answer.Answered?
    ensures Reaches(s, f) && Keyed(f) && f.entries == s.entries && f.heap == s.heap && f.clock == v.clock
    ensures f.monitor == B.Lookup(s.monitor, false, true, v.clock) && SameTimeouts(s.log, f.log)
    ensures f.pc == P.Fetched(r, v.answer.report, View(s)[id].TimedOut(v.started), false, due)
  {
    var w := TakesTurn(s, id, r, v, due);
    var ev := P.Lookup(v.answer);
    f := P.Next(w, ev);
    Takes(s, w, ev, f);
    LookedTimeouts(s.log, f.log[|s.log|]);
  }

  lemma ReadsReport(s: P.Poller, id: OrderId, r: P.Ref, v: Visit, due: seq<P.Ref>) returns (s': P.Poller)
    requires AtTurn(s, id, r, v, due) && v.answer.Answered?
    ensures Reaches(s, s') && Read(s, s', id, r, v, due)
  {
    var f := FetchesReport(s, id, r, v, due);
    assert View(f) == View(s);
    s' := P.Next(f, P.ApplyFetched(v.callbackOk));
    Takes(s, f, P.ApplyFetched(v.callbackOk), s');
    DrivenView(f, s', id, r, v);
  }

  lemma DrivenView(f: P.Poller, s': P.Poller, id: OrderId, r: P.Ref, v: Visit)
    requires Holds(f, id, r) && v.answer.Answered? && f.clock == v.clock
    requires s'.heap == P.Drive(f, r, v.answer.report, v.callbackOk).heap
    requires s'.entries == P.Drive(f, r, v.answer.report, v.callbackOk).entries
    ensures View(s') == VisitOne(View(f), id, v) && Keyed(s') && r < |s'.heap| && P.Id(s', r) == id
    ensures s'.entries == if Closes(View(f)[id], v) then f.entries - {id} else f.entries
  {
    var t := TrackApply(f.heap[r], v.answer.report, v.callbackOk, f.clock);
    if Closes(View(f)[id], v) { ViewDrop(f, s', id, r, t); } else { ViewUpdate(f, s', id, r, t); }
  }

  lemma PassesCheck(m: P.Poller, id: OrderId, r: P.Ref, due: seq<P.Ref>) returns (c: P.Poller)
    requires Holds(m, id, r) && m.pc == P.Checking(r, due)
    ensures Reaches(m, c) && c == m.(pc := P.Expiring(r, due))
  {
    c := P.Next(m, P.Check);
    Stays(m);
    Takes(m, m, P.Check, c);
  }

  lemma TimesOut(c: P.Poller, id: OrderId, r: P.Ref, due: seq<P.Ref>) returns (s': P.Poller)
    requires Holds(c, id, r) && c.pc == P.Expiring(r, due)
    ensures Reaches(c, s') && Keyed(s') && s'.pc == P.Draining(due) && s'.monitor == c.monitor && s'.clock == c.clock
    ensures var closed := Terminal(c.heap[r].entry.order.status);
            && View(s') == (if closed then View(c) else View(c) - {id})
            && s'.entries == (if closed then c.entries else c.entries - {id})
            && if closed then SameTimeouts(c.log, s'.log) else OneTimeout(c.log, s'.log, r)
  {
    s' := P.Next(c, P.Expire);
    Stays(c);
    Takes(c, c, P.Expire, s');
    P.Appended(c.log, s'.log[|c.log|]);
    if !Terminal(c.heap[r].entry.order.status) {
      assert c.heap[r := c.heap[r]] == c.heap;
      ViewDrop(c, s', id, r, c.heap[r]);
    }
  }

  // After a fresh answer an expired order is timed out if it is still there and open.
  lemma Expired(s: P.Poller, m: P.Poller, id: OrderId, r: P.Ref, v: Visit, due: seq<P.Ref>) returns (s': P.Poller)
    requires Holds(s, id, r) && Reaches(s, m) && Read(s, m, id, r, v, due)
    requires m.pc.Checking? && !Closes(View(s)[id], v)
    ensures Reaches(s, s') && Keyed(s') && s'.pc == P.Draining(due) && s'.monitor == m.monitor && s'.clock == m.clock
    ensures View(s') == if Terminal(Visited(View(s)[id], v).order.status) then View(m) else View(m) - {id}
    ensures s'.entries == m.entries || s'.entries == m.entries - {id}
    ensures if Terminal(Visited(View(s)[id], v).order.status) then SameTimeouts(s.log, s'.log)
            else OneTimeout(s.log, s'.log, r)
  {
    assert View(m)[id] == Visited(View(s)[id], v) == m.heap[r].entry;
    var c := PassesCheck(m, id, r, due);
    assert View(c) == View(m);
    s' := TimesOut(c, id, r, due);
    ThenReaches(s, m, c);
    ThenReaches(s, c, s');
  }

  lemma TickOneCases(t: Table, id: OrderId, v: Visit)
    requires id in t
    ensures !t[id].TimedOut(v.started) || v.answer.Failed? || Closes(t[id], v) ==>
              TickOne(t, id, v) == VisitOne(t, id, v)
    ensures t[id].TimedOut(v.started) && !v.answer.Failed? && !Closes(t[id], v) ==>
              TickOne(t, id, v) == if Terminal(Visited(t[id], v).order.status) then VisitOne(t, id, v)
                                   else VisitOne(t, id, v) - {id}
  {
    assert t[id := Visited(t[id], v)] - {id} == t - {id};
  }

  lemma StillThere(s: P.Poller, m: P.Poller, id: OrderId, r: P.Ref, v: Visit, due: seq<P.Ref>) returns (s': P.Poller)
    requires Holds(s, id, r) && Reaches(s, m) && Read(s, m, id, r, v, due) && m.pc.Checking?
    ensures Reaches(s, s') && Keyed(s') && s'.pc == P.Draining(due) && s'.clock == m.clock && s'.monitor == m.monitor
    ensures View(s') == TickOne(View(s), id, v)
    ensures if Expires(View(s)[id], v) then OneTimeout(s.log, s'.log, r) else SameTimeouts(s.log, s'.log)
    ensures s'.entries == s.entries || s'.entries == s.entries - {id}
  {
    TickOneCases(View(s), id, v);
    if Closes(View(s)[id], v) {
      s' := P.Next(m, P.Check);
      Takes(s, m, P.Check, s');
      LookedTimeouts(m.log, s'.log[|m.log|]);
      assert View(s') == View(m);
    } else {
      s' := Expired(s, m, id, r, v, due);
    }
  }

  lemma OneVisit(s: P.Poller, id: OrderId, r: P.Ref, v: Visit, due: seq<P.Ref>) returns (s': P.Poller)
    requires AtTurn(s, id, r, v, due)
    ensures Reaches(s, s') && Keyed(s') && s'.pc == P.Draining(due) && s'.clock == v.clock
    ensures s'.monitor == B.Lookup(s.monitor, false, !v.answer.Failed?, v.clock)
    ensures View(s') == TickOne(View(s), id, v)
    ensures if Expires(View(s)[id], v) then OneTimeout(s.log, s'.log, r) else SameTimeouts(s.log, s'.log)
    ensures s'.entries == s.entries || s'.entries == s.entries - {id}
  {
    if v.answer.Answered? { s' := ReadsReport(s, id, r, v, due); } else { s' := ReadsNothing(s, id, r, v, due); }
    if s'.pc.Checking? {
      s' := StillThere(s, s', id, r, v, due);
    } else {
      TickOneCases(View(s), id, v);
    }
  }

  // ── The tick ────────────────────────────────────────────────────────────────

  function RefsOf(s: P.Poller, ids: seq<OrderId>): seq<P.Ref>
    requires forall id :: id in ids ==> id in s.entries
  {
    seq(|ids|, i requires 0 <= i < |ids| => s.entries[ids[i]])
  }

  // The visits come one after the other.
  predicate InTurn(clock: int, ids: seq<OrderId>, env: OrderId -> Visit) {
    && (forall i :: 0 <= i < |ids| ==> clock <= env(ids[i]).started <= env(ids[i]).clock)
    && (forall i, j :: 0 <= i < j < |ids| ==> env(ids[i]).clock <= env(ids[j]).started)
  }

  // The log gains the timeouts of those of the first k that expire, and no other.
  ghost predicate TimedOutAmong(s: P.Poller, m: P.Poller, ids: seq<OrderId>, refs: seq<P.Ref>, k: nat,
                                env: OrderId -> Visit)
    requires k <= |ids| == |refs|
  {
    forall q: P.Ref :: P.HasTimedOut(m.log, q) <==>
      P.HasTimedOut(s.log, q)
      || exists i :: 0 <= i < k && refs[i] == q && ids[i] in View(s) && Expires(View(s)[ids[i]], env(ids[i]))
  }

  // The first k due entries have been visited, and the others are as they were.
  ghost predicate UpTo(s: P.Poller, m: P.Poller, ids: seq<OrderId>, refs: seq<P.Ref>, k: nat, env: OrderId -> Visit) {
    && k <= |ids| == |refs|
    && Keyed(m) && m.pc == P.Draining(refs[k..])
    && m.clock == (if k == 0 then s.clock else env(ids[k - 1]).clock)
    && m.monitor == MonitorAfter(s.monitor, ids[..k], env)
    && View(m) == TickAll(View(s), ids[..k], env)
    && forall j :: k <= j < |ids| ==> ids[j] in m.entries && m.entries[ids[j]] == refs[j]
  }

  lemma VisitNext(s: P.Poller, m: P.Poller, ids: seq<OrderId>, refs: seq<P.Ref>, n: nat, env: OrderId -> Visit)
    returns (s': P.Poller)
    requires n < |ids| && UpTo(s, m, ids, refs, n, env) && Distinct(ids) && !m.monitor.open
    requires m.clock <= env(ids[n]).started <= env(ids[n]).clock
    ensures Reaches(m, s') && UpTo(s, s', ids, refs, n + 1, env) && ids[n] in View(m)
    ensures if Expires(View(m)[ids[n]], env(ids[n])) then OneTimeout(m.log, s'.log, refs[n])
            else SameTimeouts(m.log, s'.log)
  {
    assert refs[n..] == [refs[n]] + refs[n + 1..];
    LastVisit(s, ids, n, env);
    s' := OneVisit(m, ids[n], refs[n], env(ids[n]), refs[n + 1..]);
  }

  // An entry not yet visited is as it was when the tick began.
  lemma NotYetVisited(t: Table, ids: seq<OrderId>, n: nat, env: OrderId -> Visit)
    requires n < |ids| && Distinct(ids) && forall id :: id in ids ==> id in t
    ensures ids[n] in TickAll(t, ids[..n], env) && TickAll(t, ids[..n], env)[ids[n]] == t[ids[n]]
  {
    TickByVisits(t, ids[..n], env);
  }

  lemma MoreTimeouts(s: P.Poller, m: P.Poller, s': P.Poller, ids: seq<OrderId>, refs: seq<P.Ref>, n: nat,
                     env: OrderId -> Visit)
    requires n < |ids| == |refs| && TimedOutAmong(s, m, ids, refs, n, env) && ids[n] in View(s)
    requires if Expires(View(s)[ids[n]], env(ids[n])) then OneTimeout(m.log, s'.log, refs[n])
             else SameTimeouts(m.log, s'.log)
    ensures TimedOutAmong(s, s', ids, refs, n + 1, env)
  {
  }

  // While the breaker stays closed, the loop visits entry after entry.
  lemma {:induction false} Visits(s: P.Poller, ids: seq<OrderId>, refs: seq<P.Ref>, k: nat, env: OrderId -> Visit)
    returns (s': P.Poller)
    requires UpTo(s, s, ids, refs, 0, env) && Distinct(ids) && k <= |ids| && InTurn(s.clock, ids[..k], env)
    requires forall id :: id in ids ==> id in View(s)
    requires forall i :: 0 <= i < k ==> !MonitorAfter(s.monitor, ids[..i], env).open
    ensures Reaches(s, s') && UpTo(s, s', ids, refs, k, env) && TimedOutAmong(s, s', ids, refs, k, env)
    decreases k
  {
    if k == 0 {
      Stays(s);
      s' := s;
    } else {
      var n := k - 1;
      assert forall i :: 0 <= i < k ==> ids[..k][i] == ids[i];
      assert forall i :: 0 <= i < n ==> ids[..n][i] == ids[..k][i];
      var m := Visits(s, ids, refs, n, env);
      assert env(ids[..k][n]) == env(ids[n]);
      s' := VisitNext(s, m, ids, refs, n, env);
      ThenReaches(s, m, s');
      NotYetVisited(View(s), ids, n, env);
      MoreTimeouts(s, m, s', ids, refs, n, env);
    }
  }

  lemma LastVisit(s: P.Poller, ids: seq<OrderId>, n: nat, env: OrderId -> Visit)
    requires n < |ids|
    ensures TickAll(View(s), ids[..n + 1], env) == TickOne(TickAll(View(s), ids[..n], env), ids[n], env(ids[n]))
    ensures MonitorAfter(s.monitor, ids[..n + 1], env)
         == B.Lookup(MonitorAfter(s.monitor, ids[..n], env), false, !env(ids[n]).answer.Failed?, env(ids[n]).clock)
  {
    var more := ids[..n + 1];
    assert more[..|more| - 1] == ids[..n] && more[|more| - 1] == ids[n];
  }

  // The breaker was closed when the tick began, `due` are the due entries in some order,
  // and the tick visits them all or stops because a lookup opened the breaker.
  lemma ClosedTickIsARun(s: P.Poller, due: seq<OrderId>, looked: nat, env: OrderId -> Visit) returns (s': P.Poller)
    requires Keyed(s) && s.pc.Idle? && !s.monitor.open && Distinct(due) && looked <= |due|
    requires forall id :: id in due <==> id in View(s) && View(s)[id].nextPollAt <= s.clock
    requires InTurn(s.clock, due[..looked], env) && ClosedBeforeEach(s.monitor, due[..looked], env)
    requires looked < |due| ==> MonitorAfter(s.monitor, due[..looked], env).open
    ensures Reaches(s, s') && s'.pc.Idle?
    ensures View(s') == TickAll(View(s), due[..looked], env)
    ensures s'.monitor == MonitorAfter(s.monitor, due[..looked], env)
    ensures TimedOutAmong(s, s', due, RefsOf(s, due), looked, env)
  {
    var t := BeginsTick(s, due, env);
    if due == [] {
      s' := t;
      assert due[..looked] == [];
    } else {
      var m := VisitsLooked(t, due, RefsOf(s, due), looked, env);
      ThenReaches(s, t, m);
      s' := EndsTick(s, m);
      SinceTheTick(s, t, m, s', due, looked, env);
    }
  }

  lemma VisitsLooked(t: P.Poller, due: seq<OrderId>, refs: seq<P.Ref>, looked: nat, env: OrderId -> Visit)
    returns (m: P.Poller)
    requires UpTo(t, t, due, refs, 0, env) && Distinct(due) && looked <= |due| && InTurn(t.clock, due[..looked], env)
    requires (forall id :: id in due ==> id in View(t)) && ClosedBeforeEach(t.monitor, due[..looked], env)
    ensures Reaches(t, m) && UpTo(t, m, due, refs, looked, env) && TimedOutAmong(t, m, due, refs, looked, env)
  {
    forall i | 0 <= i < looked ensures !MonitorAfter(t.monitor, due[..i], env).open {
      assert due[..looked][..i] == due[..i];
    }
    m := Visits(t, due, refs, looked, env);
  }

  lemma SinceTheTick(s: P.Poller, t: P.Poller, m: P.Poller, s': P.Poller, due: seq<OrderId>, looked: nat,
                     env: OrderId -> Visit)
    requires (forall id :: id in due ==> id in s.entries) && looked <= |due|
    requires View(t) == View(s) && SameTimeouts(s.log, t.log) && SameTimeouts(m.log, s'.log)
    requires TimedOutAmong(t, m, due, RefsOf(s, due), looked, env)
    ensures TimedOutAmong(s, s', due, RefsOf(s, due), looked, env)
  {
  }

  lemma BeginsTick(s: P.Poller, due: seq<OrderId>, env: OrderId -> Visit) returns (t: P.Poller)
    requires Keyed(s) && s.pc.Idle? && !s.monitor.open && Distinct(due)
    requires forall id :: id in due <==> id in View(s) && View(s)[id].nextPollAt <= s.clock
    ensures Reaches(s, t) && View(t) == View(s) && t.monitor == s.monitor && t.clock == s.clock
    ensures if due == [] then t.pc.Idle? else UpTo(t, t, due, RefsOf(s, due), 0, env)
    ensures SameTimeouts(s.log, t.log)
  {
    var refs := RefsOf(s, due);
    PickedDue(s, due);
    t := P.Next(s, P.Tick(refs));
    Stays(s);
    Takes(s, s, P.Tick(refs), t);
    LookedTimeouts(s.log, t.log[|s.log|]);
    assert due[..0] == [] && refs[0..] == refs;
  }

  lemma EndsTick(s: P.Poller, m: P.Poller) returns (s': P.Poller)
    requires Reaches(s, m) && Keyed(m) && m.pc.Draining?
    requires m.pc.due == [] || (m.monitor.open && m.pc.due[0] < |m.heap|)
    ensures Reaches(s, s') && s'.pc.Idle? && View(s') == View(m) && s'.monitor == m.monitor && s'.log == m.log
  {
    var ev := if m.pc.due == [] then P.EndTick else P.Turn;
    s' := P.Next(m, ev);
    Takes(s, m, ev, s');
  }

  lemma PickedDue(s: P.Poller, due: seq<OrderId>)
    requires Keyed(s) && !s.monitor.open && Distinct(due)
    requires forall id :: id in due <==> id in View(s) && View(s)[id].nextPollAt <= s.clock
    ensures P.Picked(s, RefsOf(s, due))
  {
    var refs := RefsOf(s, due);
    forall i, j | 0 <= i < j < |refs| ensures refs[i] != refs[j] {
      assert P.Id(s, refs[i]) == due[i] && P.Id(s, refs[j]) == due[j];
    }
    forall r | r in refs ensures r < |s.heap| && P.Registered(s, r) {
      var i :| 0 <= i < |refs| && refs[i] == r;
      assert due[i] in s.entries && s.entries[due[i]] == r;
    }
    forall id | id in s.entries ensures s.entries[id] in refs <==> s.heap[s.entries[id]].entry.nextPollAt <= s.clock {
      if id in due {
        var i :| 0 <= i < |due| && due[i] == id;
        assert refs[i] == s.entries[id];
      }
      if s.entries[id] in refs {
        var i :| 0 <= i < |refs| && refs[i] == s.entries[id];
        assert P.Id(s, refs[i]) == due[i] && P.Id(s, s.entries[id]) == id;
        assert id in due;
      }
    }
  }

  // With the cool-down over, the tick is one probe of the entry due first.
  lemma ProbeIsARun(s: P.Poller, id: OrderId, v: Visit) returns (s': P.Poller)
    requires Keyed(s) && s.pc.Idle? && B.State(s.monitor, s.clock) == B.Probe && s.clock <= v.clock
    requires id in View(s) && forall other :: other in View(s) ==> View(s)[id].nextPollAt <= View(s)[other].nextPollAt
    ensures Reaches(s, s') && s'.pc.Idle?
    ensures View(s') == VisitOne(View(s), id, v)
    ensures s'.monitor == B.Lookup(s.monitor, true, !v.answer.Failed?, v.clock) && SameTimeouts(s.log, s'.log)
  {
    var r := s.entries[id];
    var w := BeginsProbe(s, id, v.clock);
    var f := P.Next(w, P.Lookup(v.answer));
    Takes(s, w, P.Lookup(v.answer), f);
    LookedTimeouts(w.log, f.log[|w.log|]);
    if v.answer.Answered? {
      s' := P.Next(f, P.ApplyFetched(v.callbackOk));
      Takes(s, f, P.ApplyFetched(v.callbackOk), s');
      assert View(f) == View(s);
      DrivenView(f, s', id, r, v);
    } else {
      s' := f;
      ViewUpdate(w, s', id, r, Step(w.heap[r], Postpone(w.clock)));
    }
  }

  lemma BeginsProbe(s: P.Poller, id: OrderId, clock: int) returns (w: P.Poller)
    requires Keyed(s) && s.pc.Idle? && B.State(s.monitor, s.clock) == B.Probe && s.clock <= clock
    requires id in View(s) && forall other :: other in View(s) ==> View(s)[id].nextPollAt <= View(s)[other].nextPollAt
    ensures Reaches(s, w) && Keyed(w) && w.pc == P.Probing(s.entries[id]) && w.entries == s.entries && w.heap == s.heap
    ensures w.monitor == s.monitor && w.clock == clock && View(w) == View(s) && SameTimeouts(s.log, w.log)
  {
    var picks := [s.entries[id]];
    assert P.Registered(s, s.entries[id]);
    assert forall other :: other in s.entries ==> other in View(s);
    var t := P.Next(s, P.Tick(picks));
    Stays(s);
    Takes(s, s, P.Tick(picks), t);
    LookedTimeouts(s.log, t.log[|s.log|]);
    w := P.Next(t, P.Wait(clock - t.clock));
    Takes(s, t, P.Wait(clock - t.clock), w);
  }

  // ── Whatever PollDue did ────────────────────────────────────────────────────

  // Everything in `xs` that is not in `ys`, in order.
  function Others(xs: seq<OrderId>, ys: seq<OrderId>): (r: seq<OrderId>)
    ensures forall x :: x in r <==> x in xs && x !in ys
    ensures Distinct(xs) ==> Distinct(r)
  {
    if xs == [] then []
    else
      var rest := Others(xs[1..], ys);
      assert xs == [xs[0]] + xs[1..];
      if xs[0] in ys then rest else [xs[0]] + rest
  }

  lemma {:induction false} InSomeOrder(left: set<OrderId>) returns (ids: seq<OrderId>)
    ensures Distinct(ids) && forall id :: id in ids <==> id in left
    decreases left
  {
    if left == {} {
      ids := [];
    } else {
      var id :| id in left;
      var rest := InSomeOrder(left - {id});
      ids := [id] + rest;
    }
  }

  // The due entries, those looked up first.
  lemma DueInOrder(t: Table, looked: seq<OrderId>, now: int) returns (due: seq<OrderId>)
    requires Distinct(looked) && forall id :: id in looked ==> id in t && t[id].nextPollAt <= now
    ensures Distinct(due) && looked <= due && forall id :: id in due <==> id in t && t[id].nextPollAt <= now
  {
    var all := InSomeOrder(set id | id in t && t[id].nextPollAt <= now);
    var rest := Others(all, looked);
    due := looked + rest;
    forall i, j | 0 <= i < j < |due| ensures due[i] != due[j] {
      if j >= |looked| { assert due[j] == rest[j - |looked|] && rest[j - |looked|] in rest; }
      if i >= |looked| { assert due[i] == rest[i - |looked|]; } else { assert due[i] == looked[i]; }
    }
  }

  // The orders timed out are those the run logs as timed out.
  ghost predicate LogsTimeouts(s: P.Poller, s': P.Poller, timedOut: seq<OrderId>) {
    forall q: P.Ref :: P.HasTimedOut(s'.log, q) <==>
      P.HasTimedOut(s.log, q) || exists id :: id in timedOut && id in s.entries && s.entries[id] == q
  }

  lemma ClosedPollIsARun(s: P.Poller, t': Table, m': B.Monitor, looked: seq<OrderId>, timedOut: seq<OrderId>,
                         env: OrderId -> Visit) returns (s': P.Poller)
    requires Keyed(s) && s.pc.Idle? && B.State(s.monitor, s.clock) == B.Closed && InTurn(s.clock, looked, env)
    requires Ticked(View(s), s.monitor, t', m', looked, timedOut, s.clock, env)
    ensures Reaches(s, s') && s'.pc.Idle? && View(s') == t' && s'.monitor == m' && LogsTimeouts(s, s', timedOut)
  {
    var due := DueInOrder(View(s), looked, s.clock);
    assert due[..|looked|] == looked;
    if |looked| < |due| {
      assert due[|looked|] in due && due[|looked|] !in looked;
    }
    s' := ClosedTickIsARun(s, due, |looked|, env);
    forall q: P.Ref
      ensures P.HasTimedOut(s'.log, q) <==>
                P.HasTimedOut(s.log, q) || exists id :: id in timedOut && id in s.entries && s.entries[id] == q
    {
      TimedOutByRef(s, due, looked, timedOut, env, q);
    }
  }

  lemma TimedOutByRef(s: P.Poller, due: seq<OrderId>, looked: seq<OrderId>, timedOut: seq<OrderId>,
                      env: OrderId -> Visit, q: P.Ref)
    requires Keyed(s) && looked <= due && forall id :: id in due ==> id in s.entries
    requires forall id :: id in timedOut <==> id in looked && id in View(s) && Expires(View(s)[id], env(id))
    ensures (exists i :: 0 <= i < |looked| && RefsOf(s, due)[i] == q && due[i] in View(s)
                         && Expires(View(s)[due[i]], env(due[i])))
            <==> exists id :: id in timedOut && id in s.entries && s.entries[id] == q
  {
    if i :| 0 <= i < |looked| && RefsOf(s, due)[i] == q && due[i] in View(s) && Expires(View(s)[due[i]], env(due[i])) {
      assert due[i] == looked[i] && looked[i] in timedOut && s.entries[looked[i]] == q;
    }
    if id :| id in timedOut && id in s.entries && s.entries[id] == q {
      var i :| 0 <= i < |looked| && looked[i] == id;
      assert due[i] == id && RefsOf(s, due)[i] == q;
    }
  }

  // Any tick the class can take - its contract says no more than `Ticked` - is a run of
  // the interleaved protocol in which nobody else gets a turn: the same table, the same
  // breaker, the same timeouts. What holds over every interleaving holds of it.
  lemma PollDueIsARun(s: P.Poller, t': Table, m': B.Monitor, looked: seq<OrderId>, timedOut: seq<OrderId>,
                      env: OrderId -> Visit) returns (s': P.Poller)
    requires Keyed(s) && s.pc.Idle? && InTurn(s.clock, looked, env)
    requires Ticked(View(s), s.monitor, t', m', looked, timedOut, s.clock, env)
    ensures Reaches(s, s') && s'.pc.Idle? && View(s') == t' && s'.monitor == m' && LogsTimeouts(s, s', timedOut)
  {
    match B.State(s.monitor, s.clock)
    case Closed => s' := ClosedPollIsARun(s, t', m', looked, timedOut, env);
    case Open => s' := NothingPicked(s);
    case Probe =>
      if looked == [] { s' := NothingPicked(s); } else { s' := ProbeIsARun(s, looked[0], env(looked[0])); }
  }

  lemma NothingPicked(s: P.Poller) returns (s': P.Poller)
    requires Keyed(s) && s.pc.Idle?
    requires B.State(s.monitor, s.clock) == B.Open || (B.State(s.monitor, s.clock) == B.Probe && View(s) == map[])
    ensures Reaches(s, s') && s'.pc.Idle? && View(s') == View(s) && s'.monitor == s.monitor
    ensures SameTimeouts(s.log, s'.log)
  {
    if s.entries != map[] {
      var id :| id in s.entries;
      assert id in View(s);
    }
    s' := P.Next(s, P.Tick([]));
    Stays(s);
    Takes(s, s, P.Tick([]), s');
    LookedTimeouts(s.log, s'.log[|s.log|]);
  }

  // ── What other threads do ───────────────────────────────────────────────────

  // The class's other calls are single steps of the protocol: each does to the table what
  // the method's contract says.
  lemma RegisterIsAStep(s: P.Poller, order: Order, seed: int)
    requires Keyed(s) && order.id != 0
    ensures var s' := if order.id in s.entries then P.Next(s, P.Reseed(s.entries[order.id], order, seed))
                      else P.Next(s, P.Register(order, seed));
            Keyed(s') && View(s') == View(s)[order.id :=
              if order.id in View(s) then Reseed(View(s)[order.id], order, seed)
              else Entry(order, seed, false, s.clock, 0, s.clock)]
  {
    if order.id in s.entries {
      var r := s.entries[order.id];
      var t := TrackReseed(s.heap[r], order, seed);
      ViewUpdate(s, P.Next(s, P.Reseed(r, order, seed)), order.id, r, t);
    }
  }

  lemma UnregisterIsAStep(s: P.Poller, id: OrderId)
    requires Keyed(s)
    ensures Keyed(P.Next(s, P.Unregister(id))) && View(P.Next(s, P.Unregister(id))) == View(s) - {id}
  {
  }

  lemma ResyncIsAStep(s: P.Poller, id: OrderId, r: Report, callbackOk: bool)
    requires Keyed(s) && id in s.entries
    ensures var s' := P.Next(s, P.Resync(s.entries[id], r, callbackOk));
            var a := ApplyReport(View(s)[id], r, callbackOk, s.clock);
            Keyed(s') && View(s') == if a.dropped then View(s) - {id} else View(s)[id := a.entry]
  {
    var ref := s.entries[id];
    var v := Visit(P.Answered(r), callbackOk, s.clock, s.clock);
    DrivenView(s, P.Next(s, P.Resync(ref, r, callbackOk)), id, ref, v);
  }
}
