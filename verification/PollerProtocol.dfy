// The poll loop among other threads (backend/execution/order_poller.py,
// _poll_due and its callers). One loop thread runs ticks; registrations,
// re-registrations, resyncs and unregistrations interleave between any two of
// its steps. A step is what the source does under one lock.
//
// Entries are objects: a Ref is the identity of one, and a dropped entry can
// still be held (and driven) by a thread that fetched it earlier.
module PollerProtocol {
  import opened Basics
  import opened Orders
  import E = PollEntry
  import B = Breaker

  type Ref = nat

  datatype Answer = Failed | Absent | Answered(report: Report)

  // Where the loop thread is inside a tick.
  datatype Pc =
    | Idle
    | Draining(due: seq<Ref>)
    | Probing(ref: Ref)
    | Polling(ref: Ref, age: int, expired: bool, due: seq<Ref>)   // its turn came: about to be looked up
    | Fetched(ref: Ref, report: Report, expired: bool, probe: bool, due: seq<Ref>)
    | Checking(ref: Ref, due: seq<Ref>)   // expired, lookup succeeded: is it still registered?
    | Expiring(ref: Ref, due: seq<Ref>)   // it was: about to take its lock and time it out

  // What the loop thread did, oldest first. The age of a lookup is the entry's when its turn
  // came; broke: it opened the breaker.
  datatype Obs =
    | TickBegan(at: int, circuit: B.Circuit)
    | Looked(ref: Ref, probe: bool, answered: bool, broke: bool, at: int, age: int)
    | TimedOut(ref: Ref, status: Status, age: int)   // cancelled at the broker, timeout callback called
    | Kept(ref: Ref, registered: bool, status: Status)   // was due for a timeout, and was spared it

  datatype Poller = Poller(
    entries: map<OrderId, Ref>, heap: seq<E.Tracked>, monitor: B.Monitor,
    clock: int, tickAt: int, pc: Pc, log: seq<Obs>)

  const START := Poller(map[], [], B.FRESH, 0, 0, Idle, [])

  datatype Event =
    | Register(order: Order, seed: int)
    | Reseed(ref: Ref, order: Order, seed: int)
    | Resync(ref: Ref, report: Report, callbackOk: bool)
    | Unregister(id: OrderId)
    | Wait(seconds: nat)
    | Tick(picks: seq<Ref>)
    | Turn
    | Lookup(answer: Answer)
    | ApplyFetched(callbackOk: bool)
    | Check
    | Expire
    | EndTick

  ghost predicate Registered(s: Poller, ref: Ref) {
    exists id :: id in s.entries && s.entries[id] == ref
  }

  // The entries a tick takes: every due one, or the earliest-due one for a probe.
  ghost predicate Picked(s: Poller, picks: seq<Ref>) {
    && Distinct(picks)
    && (forall r :: r in picks ==> r < |s.heap| && Registered(s, r))
    && match B.State(s.monitor, s.clock)
       case Open => picks == []
       case Closed =>
         forall id :: id in s.entries && s.entries[id] < |s.heap| ==>
           (s.entries[id] in picks <==> s.heap[s.entries[id]].entry.nextPollAt <= s.clock)
       case Probe =>
         if s.entries == map[] then picks == []
         else |picks| == 1 && picks[0] < |s.heap|
              && forall id :: id in s.entries && s.entries[id] < |s.heap| ==>
                   s.heap[picks[0]].entry.nextPollAt <= s.heap[s.entries[id]].entry.nextPollAt
  }

  ghost predicate Enabled(s: Poller, ev: Event) {
    match ev
    case Register(_, _) | Unregister(_) | Wait(_) => true
    case Reseed(r, order, _) => r < |s.heap| && order.id == s.heap[r].entry.order.id
    case Resync(r, _, _) => r < |s.heap|
    case Tick(picks) => s.pc.Idle? && Picked(s, picks)
    case Turn => s.pc.Draining? && s.pc.due != [] && s.pc.due[0] < |s.heap|
    case Lookup(_) => (s.pc.Probing? || s.pc.Polling?) && s.pc.ref < |s.heap|
    case ApplyFetched(_) => s.pc.Fetched? && s.pc.ref < |s.heap|
    case Check => s.pc.Checking? && s.pc.ref < |s.heap|
    case Expire => s.pc.Expiring? && s.pc.ref < |s.heap|
    case EndTick => s.pc == Draining([])
  }

  function Id(s: Poller, r: Ref): OrderId
    requires r < |s.heap|
  {
    s.heap[r].entry.order.id
  }

  // Seconds since the entry was registered; re-registration does not restart it.
  function Age(s: Poller, r: Ref): int
    requires r < |s.heap|
  {
    s.clock - s.heap[r].entry.registeredAt
  }

  // The entry is the one filed under its order's id.
  predicate Filed(s: Poller, r: Ref)
    requires r < |s.heap|
  {
    Id(s, r) in s.entries && s.entries[Id(s, r)] == r
  }

  // Gone or closed meanwhile: on to the next entry.
  function Spare(s: Poller): Poller
    requires (s.pc.Checking? || s.pc.Expiring?) && s.pc.ref < |s.heap|
  {
    var order := s.heap[s.pc.ref].entry.order;
    var registered := order.id in s.entries && s.entries[order.id] == s.pc.ref;
    s.(pc := Draining(s.pc.due), log := s.log + [Kept(s.pc.ref, s.pc.Expiring? || registered, order.status)])
  }

  function Drive(s: Poller, r: Ref, report: Report, callbackOk: bool): Poller
    requires r < |s.heap|
  {
    var a := E.ApplyReport(s.heap[r].entry, report, callbackOk, s.clock);
    s.(heap := s.heap[r := E.TrackApply(s.heap[r], report, callbackOk, s.clock)],
       entries := if a.dropped then s.entries - {Id(s, r)} else s.entries)
  }

  function Postponed(s: Poller, r: Ref): Poller
    requires r < |s.heap|
  {
    s.(heap := s.heap[r := E.Step(s.heap[r], E.Postpone(s.clock))])
  }

  function LookupOne(s: Poller, r: Ref, probe: bool, age: int, expired: bool, due: seq<Ref>, answer: Answer): Poller
    requires r < |s.heap|
  {
    var m := B.Lookup(s.monitor, probe, !answer.Failed?, s.clock);
    var s1 := s.(monitor := m,
                 log := s.log + [Looked(r, probe, !answer.Failed?, m.open && !s.monitor.open, s.clock, age)]);
    match answer
    case Failed => Postponed(s1, r).(pc := if probe then Idle else Draining(due))
    case Absent => Postponed(s1, r).(pc := if probe then Idle
                                           else if expired then Checking(r, due) else Draining(due))
    case Answered(report) => s1.(pc := Fetched(r, report, expired, probe, due))
  }

  ghost function Next(s: Poller, ev: Event): Poller
    requires Enabled(s, ev)
  {
    match ev
    case Register(order, seed) =>
      if order.id == 0 || order.id in s.entries then s
      else s.(heap := s.heap + [E.Track(E.Entry(order, seed, false, s.clock, 0, s.clock))],
              entries := s.entries[order.id := |s.heap|])
    case Reseed(r, order, seed) => s.(heap := s.heap[r := E.TrackReseed(s.heap[r], order, seed)])
    case Resync(r, report, ok) => Drive(s, r, report, ok)
    case Unregister(id) => s.(entries := s.entries - {id})
    case Wait(seconds) => s.(clock := s.clock + seconds)
    case Tick(picks) =>
      var circuit := B.State(s.monitor, s.clock);
      s.(tickAt := s.clock, log := s.log + [TickBegan(s.clock, circuit)],
         pc := if picks == [] then Idle
               else if circuit == B.Probe then Probing(picks[0]) else Draining(picks))
    case Turn =>
      var r := s.pc.due[0];
      if s.monitor.open then s.(pc := Idle)            // opened during this tick: stop here
      else s.(pc := Polling(r, Age(s, r), s.heap[r].entry.TimedOut(s.clock), s.pc.due[1..]))
    case Lookup(answer) =>
      if s.pc.Probing? then LookupOne(s, s.pc.ref, true, Age(s, s.pc.ref), false, [], answer)
      else LookupOne(s, s.pc.ref, false, s.pc.age, s.pc.expired, s.pc.due, answer)
    case ApplyFetched(ok) =>
      Drive(s, s.pc.ref, s.pc.report, ok).(
        pc := if s.pc.probe then Idle
              else if s.pc.expired then Checking(s.pc.ref, s.pc.due) else Draining(s.pc.due))
    case Check =>
      if Filed(s, s.pc.ref) then s.(pc := Expiring(s.pc.ref, s.pc.due)) else Spare(s)
    case Expire =>
      var order := s.heap[s.pc.ref].entry.order;
      if Terminal(order.status) then Spare(s)
      else s.(entries := s.entries - {order.id}, pc := Draining(s.pc.due),
              log := s.log + [TimedOut(s.pc.ref, order.status, Age(s, s.pc.ref))])
    case EndTick => s.(pc := Idle)
  }

  ghost predicate CanRun(s: Poller, evs: seq<Event>)
    decreases |evs|
  {
    evs == [] || (Enabled(s, evs[0]) && CanRun(Next(s, evs[0]), evs[1..]))
  }

  ghost function Run(s: Poller, evs: seq<Event>): Poller
    requires CanRun(s, evs)
    decreases |evs|
  {
    if evs == [] then s else Run(Next(s, evs[0]), evs[1..])
  }

  // ── What the log must say ───────────────────────────────────────────────────

  function Last(log: seq<Obs>): Obs
    requires log != []
  {
    log[|log| - 1]
  }

  function Before(log: seq<Obs>): seq<Obs>
    requires log != []
  {
    log[..|log| - 1]
  }

  // Failed lookups since the last answered one.
  function ErrorsInARow(log: seq<Obs>): nat {
    if log == [] then 0
    else match Last(log)
      case Looked(_, _, answered, _, _, _) => if answered then 0 else 1 + ErrorsInARow(Before(log))
      case _ => ErrorsInARow(Before(log))
  }

  // When the breaker last opened.
  function BrokeAt(log: seq<Obs>): int {
    if log == [] then 0
    else if Last(log).Looked? && Last(log).broke then Last(log).at
    else BrokeAt(Before(log))
  }

  // The current tick began with the breaker closed and has not opened it.
  predicate ClosedTick(log: seq<Obs>) {
    log != [] &&
    match Last(log)
    case TickBegan(_, circuit) => circuit == B.Closed
    case Looked(_, _, _, broke, _, _) => !broke && ClosedTick(Before(log))
    case TimedOut(_, _, _) | Kept(_, _, _) => ClosedTick(Before(log))
  }

  // The last lookup found an order over its time: what happens to it comes next.
  predicate Owes(log: seq<Obs>) {
    log != [] && Last(log).Looked? && !Last(log).probe && Last(log).answered && Last(log).age > E.TIMEOUT_SECONDS
  }

  predicate HasTimedOut(log: seq<Obs>, r: Ref) {
    log != [] && ((Last(log).TimedOut? && Last(log).ref == r) || HasTimedOut(Before(log), r))
  }

  // May `o` happen after `log`?
  predicate Lawful(log: seq<Obs>, o: Obs) {
    match o
    case TickBegan(at, circuit) => !Owes(log) && (circuit == B.Closed <==> ErrorsInARow(log) < B.THRESHOLD)
    case Looked(r, probe, answered, broke, _, _) =>
      && !Owes(log)
      && (broke <==> !answered && ErrorsInARow(log) + 1 == B.THRESHOLD)
      && (if probe then
            && log != [] && Last(log).TickBegan? && Last(log).circuit == B.Probe
            && ErrorsInARow(log) >= B.THRESHOLD
            && Last(log).at >= BrokeAt(log) + B.ProbeDelay(ErrorsInARow(log) - B.THRESHOLD + 1)
          else ClosedTick(log))
    case TimedOut(r, status, age) =>
      && Owes(log) && Last(log).ref == r
      && ClosedTick(log)
      && !Terminal(status) && age > E.TIMEOUT_SECONDS
      && !HasTimedOut(log, r)
    case Kept(r, registered, status) => Owes(log) && Last(log).ref == r && (!registered || Terminal(status))
  }

  predicate LawfulLog(log: seq<Obs>) {
    log == [] || (LawfulLog(Before(log)) && Lawful(Before(log), Last(log)))
  }

  // ── The invariant of every interleaving ─────────────────────────────────────

  ghost predicate HeapInv(s: Poller) {
    && (forall id :: id in s.entries ==> s.entries[id] < |s.heap| && Id(s, s.entries[id]) == id)
    && (forall r :: 0 <= r < |s.heap| ==> E.Accounted(s.heap[r]))
    && (forall id :: id in s.entries ==> !HasTimedOut(s.log, s.entries[id]))
    && (forall r: Ref :: HasTimedOut(s.log, r) ==> r < |s.heap|)
  }

  ghost predicate LoopInv(s: Poller) {
    match s.pc
    case Idle => !Owes(s.log)
    case Draining(due) =>
      && (forall r :: r in due ==> r < |s.heap|)
      && (ClosedTick(s.log) || s.monitor.open) && !Owes(s.log)
    case Probing(r) =>
      && r < |s.heap| && s.log != [] && B.State(s.monitor, s.tickAt) == B.Probe
      && Last(s.log) == TickBegan(s.tickAt, B.Probe)
    case Polling(r, age, expired, due) =>
      && r < |s.heap| && (forall q :: q in due ==> q < |s.heap|)
      && ClosedTick(s.log) && !s.monitor.open && !Owes(s.log)
      && age <= Age(s, r) && (expired <==> age > E.TIMEOUT_SECONDS)
    case Fetched(r, _, expired, probe, due) =>
      && r < |s.heap| && (forall q :: q in due ==> q < |s.heap|)
      && (expired ==> Age(s, r) > E.TIMEOUT_SECONDS) && (Owes(s.log) <==> expired)
      && !s.monitor.open && (if probe then !expired else JustAnswered(s, r))
    case Checking(r, due) =>
      && r < |s.heap| && (forall q :: q in due ==> q < |s.heap|)
      && JustAnswered(s, r) && Age(s, r) > E.TIMEOUT_SECONDS && Owes(s.log)
    case Expiring(r, due) =>
      && r < |s.heap| && (forall q :: q in due ==> q < |s.heap|)
      && JustAnswered(s, r) && Age(s, r) > E.TIMEOUT_SECONDS && Owes(s.log)
      && !HasTimedOut(s.log, r)
  }

  ghost predicate JustAnswered(s: Poller, r: Ref) {
    && s.log != [] && Last(s.log).Looked? && Last(s.log).ref == r
    && !Last(s.log).probe && Last(s.log).answered
    && ClosedTick(s.log) && !s.monitor.open
  }

  ghost predicate Inv(s: Poller) {
    && B.Healthy(s.monitor) && s.tickAt <= s.clock
    && s.monitor.consecutive == ErrorsInARow(s.log)
    && (s.monitor.open ==> BrokeAt(s.log) == s.monitor.openedAt)
    && HeapInv(s) && LoopInv(s) && LawfulLog(s.log)
  }

  lemma Appended(log: seq<Obs>, o: Obs)
    ensures Last(log + [o]) == o && Before(log + [o]) == log && log + [o] != []
    ensures LawfulLog(log) && Lawful(log, o) ==> LawfulLog(log + [o])
    ensures forall r: Ref :: HasTimedOut(log + [o], r) <==> HasTimedOut(log, r) || (o.TimedOut? && o.ref == r)
  {
  }

  lemma DriveInv(s: Poller, r: Ref, report: Report, ok: bool)
    requires Inv(s) && r < |s.heap|
    ensures var s' := Drive(s, r, report, ok);
            && HeapInv(s') && |s'.heap| == |s.heap| && s'.log == s.log
            && s'.monitor == s.monitor && s'.clock == s.clock && s'.tickAt == s.tickAt && s'.pc == s.pc
  {
    E.StepAccounted(s.heap[r], E.Apply(report, ok, s.clock));
  }

  // One more lookup, as the breaker and the log see it.
  lemma LookedLog(log: seq<Obs>, m: B.Monitor, r: Ref, probe: bool, answered: bool, tickAt: int, clock: int, age: int)
    requires LawfulLog(log) && B.Healthy(m) && tickAt <= clock && !Owes(log)
    requires m.consecutive == ErrorsInARow(log) && (m.open ==> BrokeAt(log) == m.openedAt)
    requires if probe then B.State(m, tickAt) == B.Probe && log != [] && Last(log) == TickBegan(tickAt, B.Probe)
             else !m.open && ClosedTick(log)
    ensures var m' := B.Lookup(m, probe, answered, clock);
            var log' := log + [Looked(r, probe, answered, m'.open && !m.open, clock, age)];
            && B.Healthy(m') && LawfulLog(log')
            && m'.consecutive == ErrorsInARow(log') && (m'.open ==> BrokeAt(log') == m'.openedAt)
            && (!probe ==> ClosedTick(log') || m'.open)
            && (answered ==> !m'.open && (!probe ==> ClosedTick(log')))
            && (Owes(log') <==> !probe && answered && age > E.TIMEOUT_SECONDS)
  {
    var m' := B.Lookup(m, probe, answered, clock);
    B.LookupHealthy(m, probe, answered, tickAt, clock);
    var o := Looked(r, probe, answered, m'.open && !m.open, clock, age);
    if probe { B.ProbeNotEarly(m, tickAt); }
    assert Lawful(log, o);
    Appended(log, o);
  }

  // A lookup whose turn came: a probe, or one of a tick that is closed so far.
  ghost predicate TurnCame(s: Poller, r: Ref, probe: bool, age: int, expired: bool, due: seq<Ref>) {
    && r < |s.heap| && (forall q :: q in due ==> q < |s.heap|)
    && if probe then s.pc == Probing(r) && !expired else s.pc == Polling(r, age, expired, due)
  }

  lemma LookupLog(s: Poller, r: Ref, probe: bool, age: int, expired: bool, due: seq<Ref>, answer: Answer)
    requires Inv(s) && TurnCame(s, r, probe, age, expired, due)
    ensures var s' := LookupOne(s, r, probe, age, expired, due, answer);
            && B.Healthy(s'.monitor) && s'.tickAt <= s'.clock
            && s'.monitor.consecutive == ErrorsInARow(s'.log)
            && (s'.monitor.open ==> BrokeAt(s'.log) == s'.monitor.openedAt)
            && LawfulLog(s'.log)
            && (!probe ==> ClosedTick(s'.log) || s'.monitor.open)
            && (!probe && !answer.Failed? ==> JustAnswered(s', r))
            && (!answer.Failed? ==> !s'.monitor.open)
            && (Owes(s'.log) <==> expired && !answer.Failed?)
  {
    LookedLog(s.log, s.monitor, r, probe, !answer.Failed?, s.tickAt, s.clock, age);
    var m := B.Lookup(s.monitor, probe, !answer.Failed?, s.clock);
    Appended(s.log, Looked(r, probe, !answer.Failed?, m.open && !s.monitor.open, s.clock, age));
  }

  lemma LookupHeap(s: Poller, r: Ref, probe: bool, age: int, expired: bool, due: seq<Ref>, answer: Answer)
    requires HeapInv(s) && r < |s.heap|
    ensures var s' := LookupOne(s, r, probe, age, expired, due, answer);
            && HeapInv(s') && |s'.heap| == |s.heap|
            && s'.heap[r].entry.registeredAt == s.heap[r].entry.registeredAt
  {
    var s' := LookupOne(s, r, probe, age, expired, due, answer);
    E.StepAccounted(s.heap[r], E.Postpone(s.clock));
    Appended(s.log, Looked(r, probe, !answer.Failed?, s'.monitor.open && !s.monitor.open, s.clock, age));
  }

  lemma LookupOneInv(s: Poller, r: Ref, probe: bool, age: int, expired: bool, due: seq<Ref>, answer: Answer)
    requires Inv(s) && TurnCame(s, r, probe, age, expired, due)
    ensures Inv(LookupOne(s, r, probe, age, expired, due, answer))
  {
    LookupLog(s, r, probe, age, expired, due, answer);
    LookupHeap(s, r, probe, age, expired, due, answer);
  }

  lemma LookupInv(s: Poller, answer: Answer)
    requires Inv(s) && Enabled(s, Lookup(answer))
    ensures Inv(Next(s, Lookup(answer)))
  {
    if s.pc.Probing? {
      LookupOneInv(s, s.pc.ref, true, Age(s, s.pc.ref), false, [], answer);
    } else {
      LookupOneInv(s, s.pc.ref, false, s.pc.age, s.pc.expired, s.pc.due, answer);
    }
  }

  lemma TurnInv(s: Poller)
    requires Inv(s) && Enabled(s, Turn)
    ensures Inv(Next(s, Turn))
  {
    assert forall q :: q in s.pc.due[1..] ==> q in s.pc.due;
  }

  lemma TickInv(s: Poller, picks: seq<Ref>)
    requires Inv(s) && Enabled(s, Tick(picks))
    ensures Inv(Next(s, Tick(picks)))
  {
    Appended(s.log, TickBegan(s.clock, B.State(s.monitor, s.clock)));
  }

  lemma ExpireLog(log: seq<Obs>, r: Ref, status: Status, age: int)
    requires LawfulLog(log) && Lawful(log, TimedOut(r, status, age)) && ClosedTick(log)
    ensures var log' := log + [TimedOut(r, status, age)];
            && LawfulLog(log') && ClosedTick(log') && !Owes(log')
            && ErrorsInARow(log') == ErrorsInARow(log) && BrokeAt(log') == BrokeAt(log)
            && (forall q: Ref :: HasTimedOut(log', q) <==> HasTimedOut(log, q) || q == r)
  {
    Appended(log, TimedOut(r, status, age));
  }

  lemma SpareInv(s: Poller)
    requires Inv(s) && (s.pc.Checking? || s.pc.Expiring?) && s.pc.ref < |s.heap|
    requires if s.pc.Checking? then !Filed(s, s.pc.ref) else Terminal(s.heap[s.pc.ref].entry.order.status)
    ensures Inv(Spare(s))
  {
    var o := Last(Spare(s).log);
    assert Lawful(s.log, o);
    Appended(s.log, o);
  }

  lemma CheckInv(s: Poller)
    requires Inv(s) && Enabled(s, Check)
    ensures Inv(Next(s, Check))
  {
    if !Filed(s, s.pc.ref) { SpareInv(s); }
  }

  lemma ExpireHeap(s: Poller, r: Ref, log: seq<Obs>)
    requires HeapInv(s) && r < |s.heap|
    requires forall q: Ref :: HasTimedOut(log, q) <==> HasTimedOut(s.log, q) || q == r
    ensures HeapInv(s.(entries := s.entries - {Id(s, r)}, log := log))
  {
  }

  lemma ExpireInv(s: Poller)
    requires Inv(s) && Enabled(s, Expire)
    ensures Inv(Next(s, Expire))
  {
    var r, order := s.pc.ref, s.heap[s.pc.ref].entry.order;
    if !Terminal(order.status) {
      ExpireLog(s.log, r, order.status, Age(s, r));
      ExpireHeap(s, r, s.log + [TimedOut(r, order.status, Age(s, r))]);
    } else {
      SpareInv(s);
    }
  }

  lemma RegisterHeap(s: Poller, order: Order, seed: int)
    requires HeapInv(s)
    ensures var s' := Next(s, Register(order, seed));
            && HeapInv(s') && s.heap <= s'.heap && s'.log == s.log && s'.pc == s.pc && s'.clock == s.clock
            && s'.monitor == s.monitor && s'.tickAt == s.tickAt
  {
    var s' := Next(s, Register(order, seed));
    assert forall r :: 0 <= r < |s.heap| ==> s'.heap[r] == s.heap[r];
  }

  // More entries, and the loop where it was.
  lemma LoopKept(s: Poller, s': Poller)
    requires LoopInv(s) && s.heap <= s'.heap && s'.log == s.log && s'.pc == s.pc && s'.clock == s.clock
    requires s'.monitor == s.monitor && s'.tickAt == s.tickAt
    ensures LoopInv(s')
  {
    assert forall r :: 0 <= r < |s.heap| ==> s'.heap[r] == s.heap[r];
  }

  lemma RegisterInv(s: Poller, order: Order, seed: int)
    requires Inv(s)
    ensures Inv(Next(s, Register(order, seed)))
  {
    RegisterHeap(s, order, seed);
    LoopKept(s, Next(s, Register(order, seed)));
  }

  lemma ReseedInv(s: Poller, ev: Event)
    requires Inv(s) && Enabled(s, ev) && ev.Reseed?
    ensures Inv(Next(s, ev))
  {
    E.StepAccounted(s.heap[ev.ref], E.Reregister(ev.order, ev.seed));
  }

  lemma ResyncInv(s: Poller, r: Ref, report: Report, ok: bool)
    requires Inv(s) && Enabled(s, Resync(r, report, ok))
    ensures Inv(Next(s, Resync(r, report, ok)))
  {
    DriveInv(s, r, report, ok);
  }

  lemma ApplyFetchedInv(s: Poller, ok: bool)
    requires Inv(s) && Enabled(s, ApplyFetched(ok))
    ensures Inv(Next(s, ApplyFetched(ok)))
  {
    DriveInv(s, s.pc.ref, s.pc.report, ok);
  }

  lemma QuietInv(s: Poller, ev: Event)
    requires Inv(s) && Enabled(s, ev)
    requires ev.Unregister? || ev.Wait? || ev.EndTick?
    ensures Inv(Next(s, ev))
  {
  }

  lemma NextInv(s: Poller, ev: Event)
    requires Inv(s) && Enabled(s, ev)
    ensures Inv(Next(s, ev))
  {
    match ev
    case Register(order, seed) => RegisterInv(s, order, seed);
    case Reseed(_, _, _) => ReseedInv(s, ev);
    case Resync(r, report, ok) => ResyncInv(s, r, report, ok);
    case Tick(picks) => TickInv(s, picks);
    case Turn => TurnInv(s);
    case Lookup(answer) => LookupInv(s, answer);
    case ApplyFetched(ok) => ApplyFetchedInv(s, ok);
    case Check => CheckInv(s);
    case Expire => ExpireInv(s);
    case Unregister(_) | Wait(_) | EndTick => QuietInv(s, ev);
  }

  lemma {:induction false} RunInv(s: Poller, evs: seq<Event>)
    requires Inv(s) && CanRun(s, evs)
    ensures Inv(Run(s, evs))
    decreases |evs|
  {
    if evs != [] {
      NextInv(s, evs[0]);
      RunInv(Next(s, evs[0]), evs[1..]);
    }
  }

  // ── The theorems, read off the log ──────────────────────────────────────────

  lemma {:induction false} LawfulAt(log: seq<Obs>, i: nat)
    requires LawfulLog(log) && i < |log|
    ensures Lawful(log[..i], log[i])
  {
    if i < |log| - 1 {
      LawfulAt(Before(log), i);
      assert Before(log)[..i] == log[..i];
    }
  }

  lemma {:induction false} TimedOutIn(log: seq<Obs>, i: nat)
    requires i < |log| && log[i].TimedOut?
    ensures HasTimedOut(log, log[i].ref)
  {
    if i < |log| - 1 { TimedOutIn(Before(log), i); }
  }

  // Timeout safety, in every interleaving: an order is timed out only right after its own
  // lookup answered in this tick, not terminal, and over half an hour old when its turn
  // came; never in a tick that began with the breaker open or after the tick opened it; and
  // at most once per entry.
  lemma TimeoutSafety(evs: seq<Event>, i: nat)
    requires CanRun(START, evs)
    requires i < |Run(START, evs).log| && Run(START, evs).log[i].TimedOut?
    ensures var log := Run(START, evs).log;
            && log[i].status !in {Filled, Canceled, Rejected, Expired} && log[i].age > 1800
            && i > 0 && log[i - 1].Looked? && log[i - 1].ref == log[i].ref
            && log[i - 1].answered && !log[i - 1].probe && log[i - 1].age > 1800
            && ClosedTick(log[..i])
            && (forall j :: 0 <= j < |log| && j != i && log[j].TimedOut? ==> log[j].ref != log[i].ref)
  {
    RunInv(START, evs);
    var log := Run(START, evs).log;
    LawfulAt(log, i);
    forall j | 0 <= j < |log| && j != i && log[j].TimedOut? ensures log[j].ref != log[i].ref {
      LawfulAt(log, j);
      if j < i { TimedOutIn(log[..i], j); } else { TimedOutIn(log[..j], i); }
    }
  }

  // And none is forgotten: when a plain lookup answers for an order that was over half an
  // hour old at its turn, the next thing the loop does, unless it is still at it, is to time
  // the order out - or to find that it has left the table or ended meanwhile.
  lemma ExpiredAreTimedOut(evs: seq<Event>, i: nat)
    requires CanRun(START, evs) && i < |Run(START, evs).log|
    requires var o := Run(START, evs).log[i]; o.Looked? && !o.probe && o.answered && o.age > 1800
    ensures var s := Run(START, evs);
            if i + 1 == |s.log|
            then (s.pc.Fetched? || s.pc.Checking? || s.pc.Expiring?) && s.pc.ref == s.log[i].ref
            else
              var next := s.log[i + 1];
              && (next.TimedOut? || next.Kept?) && next.ref == s.log[i].ref
              && (next.Kept? ==> !next.registered || next.status in {Filled, Canceled, Rejected, Expired})
  {
    RunInv(START, evs);
    var log := Run(START, evs).log;
    assert Owes(log[..i + 1]);
    if i + 1 < |log| { LawfulAt(log, i + 1); } else { assert log[..i + 1] == log; }
  }

  // Breaker safety, in every interleaving: it is open exactly while at least five
  // lookups in a row have failed; nothing is looked up while it cools down; and the
  // n-th probe of an outage comes no sooner than the sum of the n waits before it.
  lemma BreakerSafety(evs: seq<Event>, i: nat)
    requires CanRun(START, evs)
    requires i < |Run(START, evs).log| && Run(START, evs).log[i].Looked?
    ensures var log := Run(START, evs).log;
            && (Run(START, evs).monitor.open <==> ErrorsInARow(log) >= 5)
            && (log[i].probe <==> ErrorsInARow(log[..i]) >= 5)
            && (log[i].probe ==>
                  && i > 0 && log[i - 1].TickBegan?
                  && log[i - 1].at >= BrokeAt(log[..i])
                                      + B.ProbeDelay(ErrorsInARow(log[..i]) - 4))
            && (!log[i].probe ==> ClosedTick(log[..i]))
  {
    RunInv(START, evs);
    var log := Run(START, evs).log;
    LawfulAt(log, i);
    if !log[i].probe {
      LawfulPrefix(log, i);
      ClosedTickFewErrors(log[..i]);
    }
  }

  lemma {:induction false} LawfulPrefix(log: seq<Obs>, i: nat)
    requires LawfulLog(log) && i <= |log|
    ensures LawfulLog(log[..i])
  {
    if i == |log| {
      assert log[..i] == log;
    } else {
      LawfulPrefix(Before(log), i);
      assert Before(log)[..i] == log[..i];
    }
  }

  lemma {:induction false} ClosedTickFewErrors(log: seq<Obs>)
    requires LawfulLog(log) && ClosedTick(log)
    ensures ErrorsInARow(log) < B.THRESHOLD
  {
    match Last(log)
    case TickBegan(_, _) =>
    case Looked(_, _, _, _, _, _) => ClosedTickFewErrors(Before(log));
    case TimedOut(_, _, _) | Kept(_, _, _) => ClosedTickFewErrors(Before(log));
  }

  // Exactly-once fills hold per entry whatever the threads do, including threads
  // that still drive an entry after it was dropped or timed out.
  lemma ExactlyOncePerEntry(evs: seq<Event>, r: Ref)
    requires CanRun(START, evs) && r < |Run(START, evs).heap|
    ensures var t := Run(START, evs).heap[r];
            && E.Chained(t.spans, t.start, t.entry.watermark)
            && E.Total(t.spans, true) + E.Total(t.spans, false) == t.entry.watermark - t.start
            && t.terminalCalls <= 1
  {
    RunInv(START, evs);
    var t := Run(START, evs).heap[r];
    E.ChainTotals(t.spans, t.start, t.entry.watermark);
  }
}
