// One observation on the live objects (backend/testing/paper_harness.py wires them like
// the worker does): the broker is asked, the poller's entry decides, the callbacks drive
// the machine and the tracker. It is the step of the conservation theorem.
module LivePipeline {
  import opened Orders
  import E = PollEntry
  import M = OrderMachine
  import T = PositionTracker
  import B = PaperBroker
  import X = TerminalEvents
  import F = FillPipeline

  // The converging of the pipeline's step is the terminal event's.
  lemma ConvergedMeans(m: M.Book, locks: T.Locks, id: OrderId, symbol: Symbol, status: Status)
    requires id in m && TerminalNegative(status)
    ensures X.Apply(X.Runtime(m, locks), id, symbol, status, true).0.orders == m[id := F.Converged(m[id], status)]
  {
    assert m[id := m[id]] == m;
  }

  class Runtime {
    const broker: B.ScriptedPaperBroker
    const entry: E.PollEntry
    const machine: M.OrderStateMachine
    const tracker: T.PositionTracker

    constructor (broker: B.ScriptedPaperBroker, entry: E.PollEntry, machine: M.OrderStateMachine,
                 tracker: T.PositionTracker)
      ensures this.broker == broker && this.entry == entry && this.machine == machine && this.tracker == tracker
    {
      this.broker, this.entry, this.machine, this.tracker := broker, entry, machine, tracker;
    }

    // The order is known everywhere, and everything known about it is in step.
    ghost predicate Tracks(id: OrderId, unsettled: bool)
      reads broker, entry, machine, tracker
    {
      && B.Sound(broker.Abs()) && T.Long(tracker.positions)
      && id in broker.orders && id in machine.orders && F.LineInv(Line(id, unsettled))
    }

    ghost function Line(id: OrderId, unsettled: bool): F.Line
      requires id in broker.orders && id in machine.orders
      reads broker, entry, machine
    {
      F.Line(broker.orders[id], Some(entry.State()), Some(machine.orders[id]), unsettled)
    }

    method Ask(id: OrderId) returns (seen: Order)
      requires B.Sound(broker.Abs()) && id in broker.orders && !broker.failNextStatus
      modifies broker
      ensures var so := old(broker.orders)[id];
              && broker.orders == old(broker.orders)[id := B.Inquired(so)] && seen == B.Inquired(so).order
              && broker.positions ==
                   if B.Increment(so) > 0
                   then B.BookPosition(old(broker.positions), so.order, B.Increment(so), B.StepPrice(so))
                   else old(broker.positions)
    {
      var raised, found := broker.GetOrderStatus(id);
      seen := found.value;
    }

    // The fill callback, which hands the increment to the machine and then to the
    // tracker, and the terminal callback.
    method CallBack(id: OrderId, symbol: Symbol, side: Side, r: Report, delivered: Option<E.Delivery>, terminal: bool)
      requires T.Long(tracker.positions) && id in machine.orders
      requires delivered.Some? ==> delivered.value.increment > 0
      modifies machine, tracker
      ensures var was := old(machine.orders)[id];
              var filled := if delivered.Some? then M.FillOrder(was, delivered.value.increment, r.avg).0 else was;
              machine.orders == old(machine.orders)[id := if terminal && TerminalNegative(r.status)
                                                          then F.Converged(filled, r.status) else filled]
      ensures tracker.positions ==
                if delivered.Some?
                then T.Book(old(tracker.positions), T.Fill(symbol, side, delivered.value.increment, r.avg))
                else old(tracker.positions)
      ensures var was := old(machine.orders)[id];
              var filled := if delivered.Some? then M.FillOrder(was, delivered.value.increment, r.avg).0 else was;
              tracker.pending ==
                if delivered.Some? || (terminal && TerminalNegative(r.status) && !Terminal(filled.status))
                then old(tracker.pending) - {symbol} else old(tracker.pending)
    {
      assert machine.orders == machine.orders[id := machine.orders[id]];
      if delivered.Some? {
        var outcome := machine.ProcessFill(id, delivered.value.increment, r.avg, true);
        var raised := tracker.OnFill(T.Fill(symbol, side, delivered.value.increment, r.avg));
      }
      if terminal {
        var transitioned := X.ApplyTerminalEvent(machine, tracker, id, symbol, r.status, true);
      }
    }

    // A lookup that answers: the broker's order, its book, the machine's order and the
    // tracker's positions all move as the modelled step says, and nothing else does.
    method Observe(id: OrderId, ghost unsettled: bool, callbackOk: bool, clock: int) returns (dropped: bool)
      requires Tracks(id, unsettled) && !broker.failNextStatus
      modifies broker, entry, machine, tracker
      ensures var l := old(Line(id, unsettled)); var o := F.ObserveLine(l, callbackOk, clock);
              && dropped == o.line.entry.None?
              && (!dropped ==> o.line.entry == Some(entry.State()))
              && broker.orders == old(broker.orders)[id := o.line.sim]
              && broker.positions == F.BookRevealed(old(broker.positions), l.sim.order, o)
              && o.line.machine.Some? && machine.orders == old(machine.orders)[id := o.line.machine.value]
              && tracker.positions == F.TrackTaken(old(tracker.positions), l.sim.order, o)
              && (o.taken > 0 ==> l.sim.order.symbol !in tracker.pending)
              && tracker.pending in {old(tracker.pending), old(tracker.pending) - {l.sim.order.symbol}}
    {
      ghost var l := Line(id, unsettled);
      F.ObserveLineInv(l, callbackOk, clock);
      var symbol, side := broker.orders[id].order.symbol, broker.orders[id].order.side;
      var seen := Ask(id);
      var r := B.ReportOf(seen);
      var settled, delivered, gone, terminal := entry.ApplyUpdate(r, callbackOk, clock);
      CallBack(id, symbol, side, r, delivered, terminal);
      dropped := gone;
    }
  }
}
