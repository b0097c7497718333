// Converging the runtime to a terminal broker event
// (backend/execution/order_events.py, apply_terminal_event).
module TerminalEvents {
  import opened Orders
  import M = OrderMachine
  import T = PositionTracker

  datatype Runtime = Runtime(orders: M.Book, locks: T.Locks)

  // The status the event asks for; a partly filled order is cancelled, not rejected.
  function Target(m: M.Book, id: OrderId, status: Status): Status {
    if status == Rejected && id in m && m[id].status == PartialFilled then Canceled else status
  }

  function Apply(s: Runtime, id: OrderId, symbol: Symbol, status: Status, persisted: bool): (Runtime, bool) {
    if !TerminalNegative(status) then (s, false)
    else if id !in s.orders then (s.(locks := s.locks - {symbol}), false)
    else if Terminal(s.orders[id].status) then (s, false)
    else
      var (orders, outcome) := M.TransitionSpec(s.orders, id, Target(s.orders, id, status), persisted);
      (Runtime(orders, s.locks - {symbol}), outcome == M.Applied)
  }

  datatype Event =
    | TerminalEvent(id: OrderId, symbol: Symbol, status: Status, persisted: bool)
    | Machine(ev: M.Event)
    | Lock(lock: T.LockEvent)

  function Next(s: Runtime, ev: Event): Runtime {
    match ev
    case TerminalEvent(id, symbol, status, persisted) => Apply(s, id, symbol, status, persisted).0
    case Machine(e) => s.(orders := M.Next(s.orders, e).0)
    case Lock(e) => s.(locks := T.LockNext(s.locks, e).0)
  }

  function Run(s: Runtime, evs: seq<Event>): Runtime
    decreases |evs|
  {
    if evs == [] then s else Run(Next(s, evs[0]), evs[1..])
  }

  // The event leaves the order registered under this id.
  predicate Keeps(id: OrderId, ev: Event) {
    ev.Machine? ==> !M.Displaces(id, ev.ev) && M.KeyAfter(id, ev.ev) == id
  }

  function WithoutDuplicates(id: OrderId, evs: seq<Event>): seq<Event> {
    if evs == [] then []
    else if evs[0].TerminalEvent? && evs[0].id == id then WithoutDuplicates(id, evs[1..])
    else [evs[0]] + WithoutDuplicates(id, evs[1..])
  }

  // Once an order is terminal, every further terminal event for it - however many,
  // wherever they fall among the orders and locks that came after it - is as if it
  // had not been delivered: no second transition, and no newer order's lock released.
  lemma {:induction false} DuplicatesVanish(s: Runtime, id: OrderId, evs: seq<Event>)
    requires id in s.orders && Terminal(s.orders[id].status)
    requires forall i :: 0 <= i < |evs| ==> Keeps(id, evs[i])
    ensures Run(s, evs) == Run(s, WithoutDuplicates(id, evs))
    ensures id in Run(s, evs).orders && Run(s, evs).orders[id].status == s.orders[id].status
    decreases |evs|
  {
    if evs != [] {
      var s1 := Next(s, evs[0]);
      assert id in s1.orders && s1.orders[id].status == s.orders[id].status;
      DuplicatesVanish(s1, id, evs[1..]);
      if !(evs[0].TerminalEvent? && evs[0].id == id) {
        var rest := WithoutDuplicates(id, evs[1..]);
        assert ([evs[0]] + rest)[0] == evs[0] && ([evs[0]] + rest)[1..] == rest;
      }
    }
  }

  // An event that reports a transition made the order terminal, so its duplicates vanish.
  lemma AppliedMakesTerminal(s: Runtime, id: OrderId, symbol: Symbol, status: Status, persisted: bool)
    ensures var (s', transitioned) := Apply(s, id, symbol, status, persisted);
            && (transitioned ==> id in s.orders && !Terminal(s.orders[id].status)
                                 && id in s'.orders && TerminalNegative(s'.orders[id].status)
                                 && M.Allowed(s.orders[id].status, s'.orders[id].status))
            && (!transitioned ==> s'.orders == s.orders)
  {
  }

  // When exactly one event moves a known order: it is open, the change is persisted,
  // and the table has the edge - which only PENDING -> EXPIRED lacks.
  lemma WhenApplied(s: Runtime, id: OrderId, symbol: Symbol, status: Status, persisted: bool)
    requires id in s.orders
    ensures Apply(s, id, symbol, status, persisted).1 <==>
              && TerminalNegative(status) && !Terminal(s.orders[id].status) && persisted
              && !(s.orders[id].status == Pending && status == Expired)
    ensures Apply(s, id, symbol, status, persisted).1 ==>
              Apply(s, id, symbol, status, persisted).0.orders ==
                s.orders[id := s.orders[id].(
                  status := if status == Rejected && s.orders[id].status == PartialFilled then Canceled else status)]
  {
  }

  // When exactly a call releases the symbol's lock: not for an order already terminal.
  lemma WhenReleased(s: Runtime, id: OrderId, symbol: Symbol, status: Status, persisted: bool)
    ensures Apply(s, id, symbol, status, persisted).0.locks ==
              if TerminalNegative(status) && !(id in s.orders && Terminal(s.orders[id].status))
              then s.locks - {symbol} else s.locks
  {
  }

  // The guarantee needs the first event to have been applied: if its transition could
  // not be persisted, the lock is released all the same, a newer order takes it, and
  // the duplicate that then succeeds releases the newer order's lock.
  lemma UnpersistedEventExposesNewerLock(o: Order, symbol: Symbol, now: int)
    requires o.status == Submitted
    ensures var s := Runtime(map[o.id := o], map[symbol := now]);
            var first := TerminalEvent(o.id, symbol, Canceled, false);
            var newer := Lock(T.TryMark(symbol, now + 1, false));
            var again := TerminalEvent(o.id, symbol, Canceled, true);
            && symbol in Run(s, [first, newer]).locks
            && symbol !in Run(s, [first, newer, again]).locks
  {
    var s := Runtime(map[o.id := o], map[symbol := now]);
    var first := TerminalEvent(o.id, symbol, Canceled, false);
    var newer := Lock(T.TryMark(symbol, now + 1, false));
    var again := TerminalEvent(o.id, symbol, Canceled, true);
    var s1 := Next(s, first);
    var s2 := Next(s1, newer);
    assert symbol !in s1.locks && s1.orders == s.orders && symbol in s2.locks;
    assert [first, newer][1..] == [newer] && [newer][1..] == [];
    assert [first, newer, again][1..] == [newer, again] && [newer, again][1..] == [again];
    assert Run(s, [first, newer]) == Run(s1, [newer]) == Run(s2, []);
    assert Run(s2, [again]) == Run(Next(s2, again), [again][1..]);
    assert [again][1..] == [];
  }

  // The call as the runtime makes it, on the live machine and tracker.
  method ApplyTerminalEvent(machine: M.OrderStateMachine, tracker: T.PositionTracker,
                            id: OrderId, symbol: Symbol, status: Status, persisted: bool)
    returns (transitioned: bool)
    modifies machine, tracker`pending
    ensures (Runtime(machine.orders, tracker.pending), transitioned)
         == Apply(Runtime(old(machine.orders), old(tracker.pending)), id, symbol, status, persisted)
  {
    transitioned := false;
    if !TerminalNegative(status) { return; }
    var target := status;
    var alreadyTerminal := id in machine.orders && Terminal(machine.orders[id].status);
    if id in machine.orders && !alreadyTerminal {
      if status == Rejected && machine.orders[id].status == PartialFilled { target := Canceled; }
      var outcome := machine.Transition(id, target, persisted);
      transitioned := outcome == M.Applied;
    }
    if !alreadyTerminal { tracker.UnmarkPending(symbol); }
  }
}
