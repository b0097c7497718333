// The whole fill path: scripted broker -> poller entry -> order state machine ->
// position tracker (backend/testing/paper_harness.py wires the same classes as
// the worker). Lookups and callbacks may fail at any step; a failing callback has
// no effect at all.
module FillPipeline {
  import opened Orders
  import E = PollEntry
  import M = OrderMachine
  import T = PositionTracker
  import B = PaperBroker

  // One order wherever it lives: at the broker, in the poller (until it is dropped),
  // in the machine (unless the broker rejected it outright). `unsettled`: its last
  // fill report made the callback raise.
  datatype Line = Line(sim: B.SimOrder, entry: Option<E.Entry>, machine: Option<Order>, unsettled: bool)

  // Shares of a symbol sold but not held, which the book or the tracker dropped.
  type Lost = map<Symbol, int>

  datatype System = System(
    lines: seq<Line>, book: B.Positions, tracker: T.Positions, bookLost: Lost, trackerLost: Lost)

  datatype Event =
    | Place(symbol: Symbol, side: Side, qty: nat, price: real, script: Option<B.Scripted>, clock: int)
    | Observe(k: nat, answered: bool, callbackOk: bool, clock: int)   // a poll or a resync of order k
    | Timeout(k: nat, cancelOk: bool)

  predicate FillStatus(s: Status) { s == Filled || s == PartialFilled }

  function Before(plan: seq<B.FillStep>, i: nat): int
    requires i <= |plan|
  {
    if i == 0 then 0 else plan[i - 1].cumulative
  }

  // A plan the broker could have for an order of `qty` shares: cumulative
  // quantities never fall, stay within the order, rise only on fill statuses,
  // and FILLED means all of it.
  predicate WellFormed(plan: seq<B.FillStep>, qty: int) {
    plan != [] && forall i :: 0 <= i < |plan| ==> StepOk(plan, qty, i)
  }

  predicate StepOk(plan: seq<B.FillStep>, qty: int, i: nat)
    requires i < |plan|
  {
    && 0 <= plan[i].cumulative <= qty
    && (plan[i].status == Filled ==> plan[i].cumulative == qty)
    && Before(plan, i) <= plan[i].cumulative
    && (Before(plan, i) < plan[i].cumulative ==> FillStatus(plan[i].status))
  }

  // ── One order ───────────────────────────────────────────────────────────────

  function NewLine(id: OrderId, ev: Event): Line
    requires ev.Place?
  {
    var sim := B.Placed(id, ev.symbol, ev.side, ev.qty, ev.price, ev.script);
    if sim.order.status == Rejected then Line(sim, None, None, false)
    else Line(sim, Some(E.Entry(sim.order, 0, false, ev.clock, 0, ev.clock)), Some(sim.order), false)
  }

  predicate Observable(l: Line) { l.sim.plan != [] && l.entry.Some? && l.machine.Some? }

  // Polled, answered, and the report driven through the callback.
  datatype Observed = Observed(line: Line, revealed: int, price: real, taken: int)

  function ObserveLine(l: Line, callbackOk: bool, clock: int): Observed
    requires Observable(l)
  {
    var sim := B.Inquired(l.sim);
    var r := B.ReportOf(sim.order);
    var a := E.ApplyReport(l.entry.value, r, callbackOk, clock);
    var taken := if a.delivered.Some? then a.delivered.value.increment else 0;
    // a successful fill callback: the machine takes the increment
    var m := if a.delivered.Some? then M.FillOrder(l.machine.value, taken, r.avg).0 else l.machine.value;
    // the terminal callback: the machine converges
    var m1 := if a.terminal then Converged(m, r.status) else m;
    Observed(
      Line(sim, if a.dropped then None else Some(a.entry), Some(m1),
           if FillStatus(r.status) then !a.settled else l.unsettled),
      B.Increment(l.sim), B.StepPrice(l.sim), taken)
  }

  // What apply_terminal_event does to a known order, persisted.
  function Converged(o: Order, status: Status): Order {
    var target := if status == Rejected && o.status == PartialFilled then Canceled else status;
    if !Terminal(o.status) && M.Allowed(o.status, target) then o.(status := target) else o
  }

  function TimeoutLine(l: Line, cancelOk: bool): Line
    requires l.machine.Some?
  {
    var o := l.sim.order;
    Line(if cancelOk && !Terminal(o.status) then l.sim.(order := o.(status := Canceled)) else l.sim, None,
         Some(if M.Allowed(l.machine.value.status, Canceled) then l.machine.value.(status := Canceled)
              else l.machine.value),
         l.unsettled)
  }

  // Shares of the order that reached the machine.
  function Taken(l: Line): int {
    if l.machine.Some? then l.machine.value.filled else 0
  }

  function LiveStatus(o: Order): Status {
    if o.filled == 0 then Submitted else if o.filled < o.qty then PartialFilled else Filled
  }

  ghost predicate LineInv(l: Line) {
    && WellFormed(l.sim.plan, l.sim.order.qty) && l.sim.cursor <= |l.sim.plan|
    && l.sim.order.filled == l.sim.revealed == Before(l.sim.plan, l.sim.cursor)
    && 0 <= Taken(l) <= l.sim.revealed <= l.sim.order.qty
    && (l.unsettled <==> Taken(l) < l.sim.revealed)
    && (l.entry.Some? ==>
          && l.machine.Some? && l.machine.value.qty == l.sim.order.qty
          && l.machine.value.status == LiveStatus(l.machine.value)
          && !l.entry.value.terminalFired && l.entry.value.watermark == l.machine.value.filled)
  }

  // The broker: what it reports is what it has revealed, and more only on a fill status.
  lemma InquiredInv(l: Line)
    requires LineInv(l)
    ensures var sim, sim' := l.sim, B.Inquired(l.sim);
            && sim'.revealed == sim.revealed + B.Increment(sim)
            && sim'.order.filled == sim'.revealed == Before(sim'.plan, sim'.cursor)
            && sim'.cursor <= |sim'.plan| && sim'.plan == sim.plan && sim'.order.qty == sim.order.qty
            && sim'.order.symbol == sim.order.symbol && sim'.order.side == sim.order.side
            && sim'.revealed <= sim.order.qty
            && (sim'.order.status == Filled ==> sim'.revealed == sim.order.qty)
            && (B.Increment(sim) > 0 ==> FillStatus(sim'.order.status))
            && B.Increment(sim) >= 0
  {
    if !B.Frozen(l.sim) { ShownStep(l.sim.plan, l.sim.order.qty, l.sim.cursor); }
  }

  // What an inquiry at a cursor shows of a well-formed plan.
  lemma ShownStep(plan: seq<B.FillStep>, qty: int, cursor: nat)
    requires WellFormed(plan, qty) && cursor <= |plan|
    ensures var i := if cursor < |plan| then cursor else |plan| - 1;
            var next := if cursor < |plan| then cursor + 1 else cursor;
            && Before(plan, cursor) <= plan[i].cumulative == Before(plan, next) <= qty && plan[i].cumulative >= 0
            && (plan[i].status == Filled ==> plan[i].cumulative == qty)
            && (Before(plan, cursor) < plan[i].cumulative ==> FillStatus(plan[i].status))
  {
    assert StepOk(plan, qty, if cursor < |plan| then cursor else |plan| - 1);
  }

  // The rest of the path keeps the order in step: a settled fill report brings the
  // machine level with the broker, one whose callback raised leaves it where it
  // was; and the machine never refuses what the callback hands it.
  lemma ObserveLineInv(l: Line, callbackOk: bool, clock: int)
    requires LineInv(l) && l.entry.Some?
    ensures var o := ObserveLine(l, callbackOk, clock);
            && LineInv(o.line) && o.line.machine.Some?
            && o.line.sim.revealed == l.sim.revealed + o.revealed && o.revealed >= 0
            && Taken(o.line) == Taken(l) + o.taken && o.taken >= 0
            && o.line.sim.order.symbol == l.sim.order.symbol && o.line.sim.order.side == l.sim.order.side
            && (o.taken > 0 ==> M.FillOrder(l.machine.value, o.taken, o.line.sim.order.avg).1 == M.Applied)
  {
    InquiredInv(l);
  }

  lemma TimeoutLineInv(l: Line, cancelOk: bool)
    requires LineInv(l) && l.entry.Some?
    ensures LineInv(TimeoutLine(l, cancelOk))
    ensures var t := TimeoutLine(l, cancelOk);
            && t.sim.order.symbol == l.sim.order.symbol && t.sim.order.side == l.sim.order.side
            && t.sim.revealed == l.sim.revealed && Taken(t) == Taken(l)
  {
  }

  // A new order is the broker's own, polled from its first share on; one the broker rejected
  // at once is neither polled nor registered.
  lemma NewLineMeans(b: B.Broker, ev: Event)
    requires ev.Place?
    requires B.NextScript(b, ev.symbol, ev.side).0 == ev.script
    ensures var l := NewLine(b.last + 1, ev);
            && l.sim == B.Place(b, ev.symbol, ev.side, ev.qty, ev.price).orders[b.last + 1] && !l.unsettled
            && (l.entry.Some? <==> ev.script != Some(B.Reject)) && (l.machine.Some? <==> l.entry.Some?)
            && (l.entry.Some? ==>
                  && l.machine.value == l.entry.value.order == l.sim.order
                  && l.entry.value.watermark == 0 && l.entry.value.registeredAt == ev.clock
                  && l.entry.value.nextPollAt == ev.clock)
  {
  }

  // A timeout is a cancel at the broker, which may fail, a transition of the machine to
  // CANCELED, if its order still can, and the end of polling.
  lemma TimeoutMeans(l: Line, cancelOk: bool, b: B.Broker, m: M.Book, id: OrderId)
    requires l.machine.Some? && id in b.orders && b.orders[id] == l.sim && id in m && m[id] == l.machine.value
    ensures var t := TimeoutLine(l, cancelOk);
            && t.entry.None? && t.unsettled == l.unsettled
            && t.sim == (if cancelOk then B.Cancel(b, id).orders[id] else l.sim)
            && t.machine == Some(M.Next(m, M.Transition(id, Canceled, true)).0[id])
  {
  }

  // ── The system ──────────────────────────────────────────────────────────────

  predicate Enabled(s: System, ev: Event) {
    match ev
    case Place(_, _, qty, _, _, _) => WellFormed(NewLine(|s.lines| + 1, ev).sim.plan, qty)
    case Observe(k, _, _, _) => k < |s.lines| && Observable(s.lines[k])
    case Timeout(k, _) => k < |s.lines| && s.lines[k].entry.Some? && s.lines[k].machine.Some?
  }

  function Signed(side: Side, qty: int): int { if side == Buy then qty else -qty }

  // What a sell of `qty` shares takes from a holding that does not have them.
  function Shortfall(side: Side, qty: int, held: int): int {
    if side == Sell && qty > held then qty - held else 0
  }

  function LostOf(lost: Lost, symbol: Symbol): int { if symbol in lost then lost[symbol] else 0 }

  function AddLost(lost: Lost, symbol: Symbol, n: int): Lost { lost[symbol := LostOf(lost, symbol) + n] }

  function BookRevealed(ps: B.Positions, order: Order, o: Observed): (r: B.Positions)
    requires B.Long(ps)
    ensures B.Long(r) && forall s :: s != order.symbol ==> B.Qty(r, s) == B.Qty(ps, s)
    ensures o.revealed >= 0 ==>
              B.Qty(r, order.symbol) == B.Qty(ps, order.symbol) + Signed(order.side, o.revealed)
                                        + Shortfall(order.side, o.revealed, B.Qty(ps, order.symbol))
  {
    if o.revealed > 0 then B.BookPosition(ps, order, o.revealed, o.price) else ps
  }

  function TrackTaken(ps: T.Positions, order: Order, o: Observed): (r: T.Positions)
    requires T.Long(ps)
    ensures T.Long(r) && forall s :: s != order.symbol ==> T.Held(r, s) == T.Held(ps, s)
    ensures o.taken >= 0 ==>
              T.Held(r, order.symbol) == T.Held(ps, order.symbol) + Signed(order.side, o.taken)
                                         + Shortfall(order.side, o.taken, T.Held(ps, order.symbol))
  {
    if o.taken > 0 then T.Book(ps, T.Fill(order.symbol, order.side, o.taken, o.line.sim.order.avg)) else ps
  }

  // An observed report in the books: shares no one held are counted as lost.
  function Booked(s: System, k: nat, order: Order, o: Observed): System
    requires B.Long(s.book) && T.Long(s.tracker) && k < |s.lines|
  {
    System(s.lines[k := o.line], BookRevealed(s.book, order, o), TrackTaken(s.tracker, order, o),
           AddLost(s.bookLost, order.symbol, Shortfall(order.side, o.revealed, B.Qty(s.book, order.symbol))),
           AddLost(s.trackerLost, order.symbol, Shortfall(order.side, o.taken, T.Held(s.tracker, order.symbol))))
  }

  function Next(s: System, ev: Event): System
    requires B.Long(s.book) && T.Long(s.tracker) && Enabled(s, ev)
  {
    match ev
    case Place(_, _, _, _, _, _) => s.(lines := s.lines + [NewLine(|s.lines| + 1, ev)])
    case Observe(k, answered, callbackOk, clock) =>
      var l := s.lines[k];
      if !answered then s.(lines := s.lines[k := l.(entry := Some(l.entry.value.Advance(clock)))])
      else Booked(s, k, l.sim.order, ObserveLine(l, callbackOk, clock))
    case Timeout(k, cancelOk) => s.(lines := s.lines[k := TimeoutLine(s.lines[k], cancelOk)])
  }

  // Signed shares of the symbol revealed by the broker and not yet taken.
  function OwedBy(l: Line, symbol: Symbol): int {
    if l.sim.order.symbol != symbol then 0
    else Signed(l.sim.order.side, l.sim.revealed - Taken(l))
  }

  function Owed(lines: seq<Line>, symbol: Symbol): int {
    if lines == [] then 0 else OwedBy(lines[0], symbol) + Owed(lines[1..], symbol)
  }

  // The book ahead of the tracker, had nothing been lost.
  function Ahead(s: System, symbol: Symbol): int {
    (B.Qty(s.book, symbol) - LostOf(s.bookLost, symbol)) - (T.Held(s.tracker, symbol) - LostOf(s.trackerLost, symbol))
  }

  ghost predicate Inv(s: System) {
    && B.Long(s.book) && T.Long(s.tracker)
    && (forall k :: 0 <= k < |s.lines| ==> LineInv(s.lines[k]))
    && (forall symbol :: Ahead(s, symbol) == Owed(s.lines, symbol))
  }

  lemma {:induction false} OwedUpdate(lines: seq<Line>, k: nat, l: Line, symbol: Symbol)
    requires k < |lines|
    ensures Owed(lines[k := l], symbol) == Owed(lines, symbol) + OwedBy(l, symbol) - OwedBy(lines[k], symbol)
  {
    if k > 0 {
      OwedUpdate(lines[1..], k - 1, l, symbol);
      assert lines[k := l][1..] == lines[1..][k - 1 := l];
    } else {
      assert lines[k := l][1..] == lines[1..];
    }
  }

  lemma {:induction false} OwedAppend(lines: seq<Line>, l: Line, symbol: Symbol)
    ensures Owed(lines + [l], symbol) == Owed(lines, symbol) + OwedBy(l, symbol)
  {
    if lines == [] {
      assert lines + [l] == [l];
    } else {
      OwedAppend(lines[1..], l, symbol);
      assert (lines + [l])[1..] == lines[1..] + [l];
    }
  }

  lemma PlaceInv(s: System, ev: Event)
    requires Inv(s) && ev.Place? && Enabled(s, ev)
    ensures Inv(Next(s, ev))
  {
    var l := NewLine(|s.lines| + 1, ev);
    var s' := Next(s, ev);
    forall symbol ensures Ahead(s', symbol) == Owed(s'.lines, symbol) {
      OwedAppend(s.lines, l, symbol);
      assert Ahead(s', symbol) == Ahead(s, symbol);
    }
  }

  // Replacing one line by one that owes the same leaves what is owed.
  lemma LineSwap(s: System, k: nat, l: Line)
    requires Inv(s) && k < |s.lines| && LineInv(l)
    requires l.sim.order.symbol == s.lines[k].sim.order.symbol && l.sim.order.side == s.lines[k].sim.order.side
    requires l.sim.revealed == s.lines[k].sim.revealed && Taken(l) == Taken(s.lines[k])
    ensures Inv(s.(lines := s.lines[k := l]))
  {
    var s' := s.(lines := s.lines[k := l]);
    forall symbol ensures Ahead(s', symbol) == Owed(s'.lines, symbol) {
      OwedUpdate(s.lines, k, l, symbol);
      assert Ahead(s', symbol) == Ahead(s, symbol);
    }
  }

  lemma TimeoutInv(s: System, k: nat, cancelOk: bool)
    requires Inv(s) && Enabled(s, Timeout(k, cancelOk))
    ensures Inv(Next(s, Timeout(k, cancelOk)))
  {
    TimeoutLineInv(s.lines[k], cancelOk);
    LineSwap(s, k, TimeoutLine(s.lines[k], cancelOk));
  }

  lemma ObserveInv(s: System, ev: Event)
    requires Inv(s) && ev.Observe? && Enabled(s, ev)
    ensures Inv(Next(s, ev))
  {
    var k := ev.k;
    if ev.answered {
      ObserveLineInv(s.lines[k], ev.callbackOk, ev.clock);
      AnsweredInv(s, k, ObserveLine(s.lines[k], ev.callbackOk, ev.clock));
    } else {
      LineSwap(s, k, s.lines[k].(entry := Some(s.lines[k].entry.value.Advance(ev.clock))));
    }
  }

  // What the book takes and what the tracker takes of a report, lost shares included.
  lemma BookedAhead(s: System, k: nat, order: Order, o: Observed, symbol: Symbol)
    requires B.Long(s.book) && T.Long(s.tracker) && k < |s.lines| && o.revealed >= 0 && o.taken >= 0
    ensures Ahead(Booked(s, k, order, o), symbol) ==
              Ahead(s, symbol) + if symbol == order.symbol then Signed(order.side, o.revealed - o.taken) else 0
  {
  }

  lemma AnsweredInv(s: System, k: nat, o: Observed)
    requires Inv(s) && k < |s.lines| && o.revealed >= 0 && o.taken >= 0 && LineInv(o.line)
    requires o.line.sim.revealed == s.lines[k].sim.revealed + o.revealed
    requires Taken(o.line) == Taken(s.lines[k]) + o.taken
    requires o.line.sim.order.symbol == s.lines[k].sim.order.symbol
    requires o.line.sim.order.side == s.lines[k].sim.order.side
    ensures Inv(Booked(s, k, s.lines[k].sim.order, o))
  {
    var order := s.lines[k].sim.order;
    forall symbol ensures Ahead(Booked(s, k, order, o), symbol) == Owed(s.lines[k := o.line], symbol) {
      BookedAhead(s, k, order, o, symbol);
      OwedUpdate(s.lines, k, o.line, symbol);
    }
  }

  lemma NextInv(s: System, ev: Event)
    requires Inv(s) && Enabled(s, ev)
    ensures Inv(Next(s, ev))
  {
    match ev
    case Place(_, _, _, _, _, _) => PlaceInv(s, ev);
    case Timeout(k, cancelOk) => TimeoutInv(s, k, cancelOk);
    case Observe(_, _, _, _) => ObserveInv(s, ev);
  }

  ghost predicate CanRun(s: System, evs: seq<Event>)
    requires B.Long(s.book) && T.Long(s.tracker)
    decreases |evs|
  {
    evs == [] || (Enabled(s, evs[0]) && CanRun(Next(s, evs[0]), evs[1..]))
  }

  ghost function Run(s: System, evs: seq<Event>): System
    requires B.Long(s.book) && T.Long(s.tracker) && CanRun(s, evs)
    decreases |evs|
  {
    if evs == [] then s else Run(Next(s, evs[0]), evs[1..])
  }

  lemma {:induction false} RunInv(s: System, evs: seq<Event>)
    requires Inv(s) && CanRun(s, evs)
    ensures Inv(Run(s, evs))
    decreases |evs|
  {
    if evs != [] {
      NextInv(s, evs[0]);
      RunInv(Next(s, evs[0]), evs[1..]);
    }
  }

  // ── The theorem ─────────────────────────────────────────────────────────────

  // No orders yet, nothing lost, and the tracker starts from the broker's positions.
  ghost predicate Starts(s: System) {
    && s.lines == [] && s.bookLost == map[] && s.trackerLost == map[] && B.Long(s.book) && T.Long(s.tracker)
    && (forall symbol :: B.Qty(s.book, symbol) == T.Held(s.tracker, symbol))
  }

  // The last fill report of every order of the symbol went through its callback.
  ghost predicate Settled(s: System, symbol: Symbol) {
    forall k :: 0 <= k < |s.lines| && s.lines[k].sim.order.symbol == symbol ==> !s.lines[k].unsettled
  }

  lemma {:induction false} NothingOwed(lines: seq<Line>, symbol: Symbol)
    requires forall k :: 0 <= k < |lines| ==> LineInv(lines[k])
    requires forall k :: 0 <= k < |lines| && lines[k].sim.order.symbol == symbol ==> !lines[k].unsettled
    ensures Owed(lines, symbol) == 0
  {
    if lines != [] { NothingOwed(lines[1..], symbol); }
  }

  // End-to-end conservation, after any run: an order's filled shares agree at the
  // broker and in the machine exactly when its last fill report settled (else the
  // machine is behind), the poller's watermark always agrees with the machine, and the
  // broker's book and the tracker differ on a settled symbol by the shares one of them
  // dropped and the other did not - so they agree exactly when both dropped the same.
  lemma Conservation(s0: System, evs: seq<Event>)
    requires Starts(s0) && CanRun(s0, evs)
    ensures var s := Run(s0, evs);
            && (forall k :: 0 <= k < |s.lines| ==>
                  var l := s.lines[k];
                  && 0 <= Taken(l) <= l.sim.revealed <= l.sim.order.qty
                  && (Taken(l) == l.sim.revealed <==> !l.unsettled)
                  && (l.entry.Some? ==> l.machine.Some? && l.entry.value.watermark == l.machine.value.filled))
            && (forall symbol :: Settled(s, symbol) ==>
                  B.Qty(s.book, symbol) - T.Held(s.tracker, symbol)
                  == LostOf(s.bookLost, symbol) - LostOf(s.trackerLost, symbol))
  {
    forall symbol ensures Ahead(s0, symbol) == Owed(s0.lines, symbol) {}
    RunInv(s0, evs);
    var s := Run(s0, evs);
    forall symbol | Settled(s, symbol)
      ensures B.Qty(s.book, symbol) - T.Held(s.tracker, symbol)
           == LostOf(s.bookLost, symbol) - LostOf(s.trackerLost, symbol)
    {
      NothingOwed(s.lines, symbol);
      assert Ahead(s, symbol) == Owed(s.lines, symbol);
    }
  }

  // ── When nothing is lost ────────────────────────────────────────────────────

  // The step reports a fill of the symbol: what it reveals, and what it delivers.
  function ReportedBy(s: System, ev: Event, symbol: Symbol): Option<Observed>
    requires Enabled(s, ev)
  {
    if ev.Observe? && ev.answered && s.lines[ev.k].sim.order.symbol == symbol
    then Some(ObserveLine(s.lines[ev.k], ev.callbackOk, ev.clock)) else None
  }

  // Before the step: the broker's book has the shares it is about to sell ...
  predicate BookHasThem(s: System, ev: Event, symbol: Symbol)
    requires Enabled(s, ev)
  {
    var o := ReportedBy(s, ev, symbol);
    o.Some? && s.lines[ev.k].sim.order.side == Sell ==> o.value.revealed <= B.Qty(s.book, symbol)
  }

  // ... and the tracker has those it is about to be handed.
  predicate TrackerHasThem(s: System, ev: Event, symbol: Symbol)
    requires Enabled(s, ev)
  {
    var o := ReportedBy(s, ev, symbol);
    o.Some? && s.lines[ev.k].sim.order.side == Sell ==> o.value.taken <= T.Held(s.tracker, symbol)
  }

  ghost predicate BookNeverShort(s: System, evs: seq<Event>, symbol: Symbol)
    requires B.Long(s.book) && T.Long(s.tracker) && CanRun(s, evs)
    decreases |evs|
  {
    evs == [] || (BookHasThem(s, evs[0], symbol) && BookNeverShort(Next(s, evs[0]), evs[1..], symbol))
  }

  ghost predicate TrackerNeverShort(s: System, evs: seq<Event>, symbol: Symbol)
    requires B.Long(s.book) && T.Long(s.tracker) && CanRun(s, evs)
    decreases |evs|
  {
    evs == [] || (TrackerHasThem(s, evs[0], symbol) && TrackerNeverShort(Next(s, evs[0]), evs[1..], symbol))
  }

  lemma BookedLoses(s: System, k: nat, order: Order, o: Observed, symbol: Symbol)
    requires B.Long(s.book) && T.Long(s.tracker) && k < |s.lines|
    ensures LostOf(Booked(s, k, order, o).bookLost, symbol) == LostOf(s.bookLost, symbol)
              + if order.symbol == symbol then Shortfall(order.side, o.revealed, B.Qty(s.book, symbol)) else 0
    ensures LostOf(Booked(s, k, order, o).trackerLost, symbol) == LostOf(s.trackerLost, symbol)
              + if order.symbol == symbol then Shortfall(order.side, o.taken, T.Held(s.tracker, symbol)) else 0
  {
  }

  lemma StepLoses(s: System, ev: Event, symbol: Symbol)
    requires B.Long(s.book) && T.Long(s.tracker) && Enabled(s, ev)
    ensures var s' := Next(s, ev);
            && LostOf(s'.bookLost, symbol) >= LostOf(s.bookLost, symbol)
            && LostOf(s'.trackerLost, symbol) >= LostOf(s.trackerLost, symbol)
            && (LostOf(s'.bookLost, symbol) == LostOf(s.bookLost, symbol) <==> BookHasThem(s, ev, symbol))
            && (LostOf(s'.trackerLost, symbol) == LostOf(s.trackerLost, symbol) <==> TrackerHasThem(s, ev, symbol))
  {
    if ev.Observe? && ev.answered {
      var l := s.lines[ev.k];
      BookedLoses(s, ev.k, l.sim.order, ObserveLine(l, ev.callbackOk, ev.clock), symbol);
    }
  }

  lemma {:induction false} NothingLostIff(s: System, evs: seq<Event>, symbol: Symbol)
    requires B.Long(s.book) && T.Long(s.tracker) && CanRun(s, evs)
    ensures var s' := Run(s, evs);
            && LostOf(s'.bookLost, symbol) >= LostOf(s.bookLost, symbol)
            && LostOf(s'.trackerLost, symbol) >= LostOf(s.trackerLost, symbol)
            && (LostOf(s'.bookLost, symbol) == LostOf(s.bookLost, symbol) <==> BookNeverShort(s, evs, symbol))
            && (LostOf(s'.trackerLost, symbol) == LostOf(s.trackerLost, symbol) <==> TrackerNeverShort(s, evs, symbol))
    decreases |evs|
  {
    if evs != [] {
      StepLoses(s, evs[0], symbol);
      NothingLostIff(Next(s, evs[0]), evs[1..], symbol);
    }
  }

  // So, while the broker sells only what it holds, book and tracker agree on a settled
  // symbol exactly when the tracker held every sell it was handed at that moment.
  lemma AgreesIff(s0: System, evs: seq<Event>, symbol: Symbol)
    requires Starts(s0) && CanRun(s0, evs) && Settled(Run(s0, evs), symbol) && BookNeverShort(s0, evs, symbol)
    ensures var s := Run(s0, evs);
            B.Qty(s.book, symbol) == T.Held(s.tracker, symbol) <==> TrackerNeverShort(s0, evs, symbol)
  {
    Conservation(s0, evs);
    NothingLostIff(s0, evs, symbol);
  }

  // ── The average price, end to end ───────────────────────────────────────────

  // Book and tracker hold the same shares of the symbol at the same average.
  predicate SamePosition(s: System, symbol: Symbol) {
    && (symbol in s.book <==> symbol in s.tracker)
    && (symbol in s.book ==> s.book[symbol].qty == s.tracker[symbol].qty && s.book[symbol].avg == s.tracker[symbol].avg)
  }

  // Every report of the symbol went through its callback at once.
  ghost predicate AlwaysDelivered(s: System, evs: seq<Event>, symbol: Symbol)
    requires B.Long(s.book) && T.Long(s.tracker) && CanRun(s, evs)
    decreases |evs|
  {
    evs == [] ||
    (&& (var o := ReportedBy(s, evs[0], symbol); o.Some? ==> o.value.taken == o.value.revealed)
     && AlwaysDelivered(Next(s, evs[0]), evs[1..], symbol))
  }

  // What is newly revealed is booked and delivered at the same price.
  lemma OnePrice(l: Line, callbackOk: bool, clock: int)
    requires LineInv(l) && Observable(l)
    ensures var o := ObserveLine(l, callbackOk, clock);
            o.revealed > 0 ==> o.price == o.line.sim.order.avg
  {
    InquiredInv(l);
  }

  lemma BookedSame(s: System, k: nat, order: Order, o: Observed, symbol: Symbol)
    requires B.Long(s.book) && T.Long(s.tracker) && k < |s.lines| && SamePosition(s, symbol)
    requires order.symbol == symbol ==> o.taken == o.revealed && (o.revealed > 0 ==> o.price == o.line.sim.order.avg)
    ensures SamePosition(Booked(s, k, order, o), symbol)
  {
  }

  lemma StepSame(s: System, ev: Event, symbol: Symbol)
    requires Inv(s) && Enabled(s, ev) && SamePosition(s, symbol)
    requires var o := ReportedBy(s, ev, symbol); o.Some? ==> o.value.taken == o.value.revealed
    ensures SamePosition(Next(s, ev), symbol)
  {
    if ev.Observe? && ev.answered {
      var l := s.lines[ev.k];
      OnePrice(l, ev.callbackOk, ev.clock);
      BookedSame(s, ev.k, l.sim.order, ObserveLine(l, ev.callbackOk, ev.clock), symbol);
    }
  }

  // While no callback raises, the tracker's position is the broker's, average included.
  lemma {:induction false} AveragesAgree(s: System, evs: seq<Event>, symbol: Symbol)
    requires Inv(s) && CanRun(s, evs) && SamePosition(s, symbol) && AlwaysDelivered(s, evs, symbol)
    ensures SamePosition(Run(s, evs), symbol)
    decreases |evs|
  {
    if evs != [] {
      StepSame(s, evs[0], symbol);
      NextInv(s, evs[0]);
      AveragesAgree(Next(s, evs[0]), evs[1..], symbol);
    }
  }

  // A raised callback merges two increments of a buy into one at the later price: the
  // quantities agree again, the averages exactly if the two prices were the same.
  lemma MergedAverageIff(avg: real, n: nat, p1: real, q1: nat, p2: real, q2: nat)
    requires q1 > 0 && q2 > 0
    ensures WeightedAverage(WeightedAverage(avg, n, p1, q1), n + q1, p2, q2) == WeightedAverage(avg, n, p2, q1 + q2)
            <==> p1 == p2
  {
    var booked := WeightedAverage(WeightedAverage(avg, n, p1, q1), n + q1, p2, q2);
    var merged := WeightedAverage(avg, n, p2, q1 + q2);
    var total := (n + q1 + q2) as real;
    TwiceAveraged(avg, n, p1, q1, p2, q2);
    OnceAveraged(avg, n, p2, q1, q2);
    if booked == merged { assert (p1 - p2) * q1 as real == 0.0; }
    if p1 == p2 {
      assert (booked - merged) * total == 0.0;
    }
  }

  lemma TwiceAveraged(avg: real, n: nat, p1: real, q1: nat, p2: real, q2: nat)
    requires q1 > 0 && q2 > 0
    ensures WeightedAverage(WeightedAverage(avg, n, p1, q1), n + q1, p2, q2) * (n + q1 + q2) as real
         == avg * n as real + p1 * q1 as real + p2 * q2 as real
  {
    var a := WeightedAverage(avg, n, p1, q1);
    assert a * (n + q1) as real == avg * n as real + p1 * q1 as real;
  }

  lemma OnceAveraged(avg: real, n: nat, p2: real, q1: nat, q2: nat)
    requires q1 > 0 && q2 > 0
    ensures WeightedAverage(avg, n, p2, q1 + q2) * (n + q1 + q2) as real
         == avg * n as real + p2 * q1 as real + p2 * q2 as real
  {
    assert p2 * (q1 + q2) as real == p2 * q1 as real + p2 * q2 as real;
  }
}
