// What callbacks that raise do to the fill path although every report settles in the end:
// a run in which the broker sells only what it holds and yet its book and the tracker part
// (backend/execution/position_tracker.py, on_fill: a sell that finds no position is
// dropped), and when the averages differ after a retry.
module FillDivergence {
  import opened Orders
  import opened FillPipeline
  import T = PositionTracker
  import B = PaperBroker

  const FLAT := System([], map[], map[], map[], map[])

  // An unscripted order: its one report fills it whole, and every later one repeats it.
  function Whole(id: OrderId, symbol: Symbol, side: Side, n: nat, price: real): Line {
    NewLine(id, Place(symbol, side, n, price, None, 0))
  }

  lemma WholeReports(id: OrderId, symbol: Symbol, side: Side, n: nat, price: real)
    requires n > 0
    ensures var l := Whole(id, symbol, side, n, price);
            && WellFormed(l.sim.plan, n) && Observable(l)
            && var taken, raised := ObserveLine(l, true, 2), ObserveLine(l, false, 1);
               && taken.revealed == taken.taken == raised.revealed == n && raised.taken == 0
               && !taken.line.unsettled && raised.line.sim.order.symbol == taken.line.sim.order.symbol == symbol
               && raised.line.sim.order.side == side && Observable(raised.line)
               && var again := ObserveLine(raised.line, true, 3);
                  again.revealed == 0 && again.taken == n && !again.line.unsettled
                  && again.line.sim.order.symbol == symbol
  {
    assert StepOk(Whole(id, symbol, side, n, price).sim.plan, n, 0);
  }

  // A report observed of one line, as far as one symbol's books go.
  lemma Reported(s: System, k: nat, ok: bool, clock: int, o: Observed, symbol: Symbol)
    requires B.Long(s.book) && T.Long(s.tracker) && k < |s.lines| && o.revealed >= 0 && o.taken >= 0
    requires Observable(s.lines[k])
    requires o == ObserveLine(s.lines[k], ok, clock) && s.lines[k].sim.order.symbol == symbol
    ensures var ev, side := Observe(k, true, ok, clock), s.lines[k].sim.order.side;
            && Enabled(s, ev) && Next(s, ev).lines == s.lines[k := o.line]
            && (BookHasThem(s, ev, symbol) <==> (side == Sell ==> o.revealed <= B.Qty(s.book, symbol)))
            && B.Qty(Next(s, ev).book, symbol) ==
                 B.Qty(s.book, symbol) + Signed(side, o.revealed) + Shortfall(side, o.revealed, B.Qty(s.book, symbol))
            && T.Held(Next(s, ev).tracker, symbol) ==
                 T.Held(s.tracker, symbol) + Signed(side, o.taken) + Shortfall(side, o.taken, T.Held(s.tracker, symbol))
  {
  }

  lemma FlatStarts()
    ensures Starts(FLAT)
  {
  }

  // The run is possible, the broker is never short of the symbol, and it ends with every
  // order of the symbol settled and so many shares in the books.
  ghost predicate EndsWith(s: System, evs: seq<Event>, symbol: Symbol, inBook: int, inTracker: int)
    decreases |evs|
  {
    && B.Long(s.book) && T.Long(s.tracker)
    && if evs == [] then
         Settled(s, symbol) && B.Qty(s.book, symbol) == inBook && T.Held(s.tracker, symbol) == inTracker
       else
         && Enabled(s, evs[0]) && BookHasThem(s, evs[0], symbol)
         && EndsWith(Next(s, evs[0]), evs[1..], symbol, inBook, inTracker)
  }

  lemma {:induction false} EndsWithMeans(s: System, evs: seq<Event>, symbol: Symbol, inBook: int, inTracker: int)
    requires EndsWith(s, evs, symbol, inBook, inTracker)
    ensures B.Long(s.book) && T.Long(s.tracker) && CanRun(s, evs) && BookNeverShort(s, evs, symbol)
    ensures Settled(Run(s, evs), symbol)
    ensures B.Qty(Run(s, evs).book, symbol) == inBook && T.Held(Run(s, evs).tracker, symbol) == inTracker
    decreases |evs|
  {
    if evs != [] { EndsWithMeans(Next(s, evs[0]), evs[1..], symbol, inBook, inTracker); }
  }

  lemma EndsAfter(s: System, ev: Event, evs: seq<Event>, symbol: Symbol, inBook: int, inTracker: int)
    requires B.Long(s.book) && T.Long(s.tracker) && Enabled(s, ev) && BookHasThem(s, ev, symbol)
    requires EndsWith(Next(s, ev), evs, symbol, inBook, inTracker)
    ensures EndsWith(s, [ev] + evs, symbol, inBook, inTracker)
  {
    assert ([ev] + evs)[0] == ev && ([ev] + evs)[1..] == evs;
  }

  lemma EndsNow(s: System, symbol: Symbol)
    requires B.Long(s.book) && T.Long(s.tracker) && Settled(s, symbol)
    ensures EndsWith(s, [], symbol, B.Qty(s.book, symbol), T.Held(s.tracker, symbol))
  {
  }

  // The buy's callback raises; the sell goes through; the buy is retried.
  const RAISE := Observe(0, true, false, 1)
  const SELL := Observe(1, true, true, 2)
  const RETRY := Observe(0, true, true, 3)
  const RAISE_SELL_RETRY: seq<Event> := [RAISE] + ([SELL] + ([RETRY] + []))

  // Both orders of the symbol can still be observed.
  ghost predicate Two(s: System, symbol: Symbol, buy: Line, sell: Line) {
    && B.Long(s.book) && T.Long(s.tracker) && s.lines == [buy, sell]
    && Observable(buy)
    && buy.sim.order.symbol == sell.sim.order.symbol == symbol && buy.sim.order.side == Buy
  }

  lemma Retried(s: System, symbol: Symbol, buy: Line, sell: Line, again: Observed)
    requires Two(s, symbol, buy, sell) && !sell.unsettled && again == ObserveLine(buy, true, 3)
    requires again.revealed == 0 && again.taken >= 0 && !again.line.unsettled
    ensures EndsWith(s, [RETRY] + [], symbol,
                     B.Qty(s.book, symbol), T.Held(s.tracker, symbol) + again.taken)
  {
    Reported(s, 0, true, 3, again, symbol);
    var s' := Next(s, RETRY);
    assert s'.lines == [again.line, sell];
    EndsNow(s', symbol);
    EndsAfter(s, RETRY, [], symbol, B.Qty(s'.book, symbol), T.Held(s'.tracker, symbol));
  }

  lemma Sold(s: System, symbol: Symbol, n: int, buy: Line, sell: Line, sold: Observed, again: Observed)
    requires Two(s, symbol, buy, sell) && Observable(sell) && sell.sim.order.side == Sell
    requires sold == ObserveLine(sell, true, 2) && again == ObserveLine(buy, true, 3)
    requires n > 0 && B.Qty(s.book, symbol) == n && T.Held(s.tracker, symbol) == 0
    requires sold.revealed == sold.taken == n && !sold.line.unsettled && sold.line.sim.order.symbol == symbol
    requires again.revealed == 0 && again.taken == n && !again.line.unsettled
    ensures EndsWith(s, [SELL] + ([RETRY] + []), symbol, 0, n)
  {
    Reported(s, 1, true, 2, sold, symbol);
    var s' := Next(s, SELL);
    assert s'.lines == [buy, sold.line];
    Retried(s', symbol, buy, sold.line, again);
    EndsAfter(s, SELL, [RETRY] + [], symbol, 0, n);
  }

  lemma Raised(s: System, symbol: Symbol, n: int, buy: Line, sell: Line, raised: Observed, sold: Observed,
               again: Observed)
    requires Two(s, symbol, buy, sell) && Observable(sell) && sell.sim.order.side == Sell
    requires raised == ObserveLine(buy, false, 1) && sold == ObserveLine(sell, true, 2)
    requires Observable(raised.line)
    requires raised.line.sim.order.symbol == symbol && raised.line.sim.order.side == Buy
    requires again == ObserveLine(raised.line, true, 3)
    requires n > 0 && B.Qty(s.book, symbol) == 0 && T.Held(s.tracker, symbol) == 0
    requires raised.revealed == n && raised.taken == 0
    requires sold.revealed == sold.taken == n && !sold.line.unsettled && sold.line.sim.order.symbol == symbol
    requires again.revealed == 0 && again.taken == n && !again.line.unsettled
    ensures EndsWith(s, RAISE_SELL_RETRY, symbol, 0, n)
  {
    BuyRaises(s, symbol, buy, sell, raised);
    Sold(Next(s, RAISE), symbol, n, raised.line, sell, sold, again);
    EndsAfter(s, RAISE, [SELL] + ([RETRY] + []), symbol, 0, n);
  }

  lemma BuyRaises(s: System, symbol: Symbol, buy: Line, sell: Line, raised: Observed)
    requires Two(s, symbol, buy, sell) && raised == ObserveLine(buy, false, 1)
    requires Observable(raised.line) && raised.line.sim.order.symbol == symbol && raised.line.sim.order.side == Buy
    requires raised.revealed >= 0 && raised.taken == 0
    ensures var ev := RAISE;
            && Enabled(s, ev) && BookHasThem(s, ev, symbol) && Two(Next(s, ev), symbol, raised.line, sell)
            && B.Qty(Next(s, ev).book, symbol) == B.Qty(s.book, symbol) + raised.revealed
            && T.Held(Next(s, ev).tracker, symbol) == T.Held(s.tracker, symbol)
  {
    Reported(s, 0, false, 1, raised, symbol);
  }

  function Bought(symbol: Symbol, n: nat, price: real): System {
    FLAT.(lines := FLAT.lines + [Whole(|FLAT.lines| + 1, symbol, Buy, n, price)])
  }

  function Placed(symbol: Symbol, n: nat, price: real): System {
    FLAT.(lines := [Whole(1, symbol, Buy, n, price), Whole(2, symbol, Sell, n, price)])
  }

  lemma PartAfterPlacing(symbol: Symbol, n: nat, price: real)
    requires n > 0
    ensures EndsWith(Placed(symbol, n, price), RAISE_SELL_RETRY, symbol, 0, n)
  {
    var buy, sell := Whole(1, symbol, Buy, n, price), Whole(2, symbol, Sell, n, price);
    WholeReports(1, symbol, Buy, n, price);
    WholeReports(2, symbol, Sell, n, price);
    var raised := ObserveLine(buy, false, 1);
    Raised(Placed(symbol, n, price), symbol, n, buy, sell, raised, ObserveLine(sell, true, 2),
           ObserveLine(raised.line, true, 3));
  }

  lemma PlacesFirst(s: System, s': System, symbol: Symbol, side: Side, n: nat, price: real, evs: seq<Event>,
                    inBook: int, inTracker: int)
    requires n > 0 && B.Long(s.book) && T.Long(s.tracker)
    requires s' == s.(lines := s.lines + [Whole(|s.lines| + 1, symbol, side, n, price)])
    requires EndsWith(s', evs, symbol, inBook, inTracker)
    ensures EndsWith(s, [Place(symbol, side, n, price, None, 0)] + evs, symbol, inBook, inTracker)
  {
    var ev := Place(symbol, side, n, price, None, 0);
    WholeReports(|s.lines| + 1, symbol, side, n, price);
    assert Next(s, ev) == s';
    EndsAfter(s, ev, evs, symbol, inBook, inTracker);
  }

  lemma PartAfterBuying(symbol: Symbol, n: nat, price: real)
    requires n > 0
    ensures EndsWith(Bought(symbol, n, price), [Place(symbol, Sell, n, price, None, 0)] + RAISE_SELL_RETRY,
                     symbol, 0, n)
  {
    PartAfterPlacing(symbol, n, price);
    BothPlaced(symbol, n, price);
    PlacesFirst(Bought(symbol, n, price), Placed(symbol, n, price), symbol, Sell, n, price, RAISE_SELL_RETRY, 0, n);
  }

  lemma BothPlaced(symbol: Symbol, n: nat, price: real)
    ensures var s := Bought(symbol, n, price);
            Placed(symbol, n, price) == s.(lines := s.lines + [Whole(|s.lines| + 1, symbol, Sell, n, price)])
  {
  }

  // A buy whose callback raises leaves the tracker short; a sell of those shares is
  // delivered before the retry and finds no position; the retried buy then leaves the
  // tracker with shares the broker, which sold only what it held, no longer has.
  lemma OversoldTrackerDiverges(symbol: Symbol, n: nat, price: real)
    requires n > 0
    ensures var evs := [Place(symbol, Buy, n, price, None, 0)]
                       + ([Place(symbol, Sell, n, price, None, 0)] + RAISE_SELL_RETRY);
            && Starts(FLAT) && CanRun(FLAT, evs) && BookNeverShort(FLAT, evs, symbol)
            && Settled(Run(FLAT, evs), symbol)
            && B.Qty(Run(FLAT, evs).book, symbol) == 0 && T.Held(Run(FLAT, evs).tracker, symbol) == n
  {
    FlatStarts();
    PartFromFlat(FLAT, symbol, n, price);
    EndsWithMeans(FLAT, [Place(symbol, Buy, n, price, None, 0)]
                        + ([Place(symbol, Sell, n, price, None, 0)] + RAISE_SELL_RETRY), symbol, 0, n);
  }

  lemma PartFromFlat(s: System, symbol: Symbol, n: nat, price: real)
    requires n > 0 && B.Long(s.book) && T.Long(s.tracker)
    requires Bought(symbol, n, price) == s.(lines := s.lines + [Whole(|s.lines| + 1, symbol, Buy, n, price)])
    ensures EndsWith(s, [Place(symbol, Buy, n, price, None, 0)]
                        + ([Place(symbol, Sell, n, price, None, 0)] + RAISE_SELL_RETRY), symbol, 0, n)
  {
    PartAfterBuying(symbol, n, price);
    PlacesFirst(s, Bought(symbol, n, price), symbol, Buy, n, price,
                [Place(symbol, Sell, n, price, None, 0)] + RAISE_SELL_RETRY, 0, n);
  }

  // ── What a retried increment does to the average ────────────────────────────

  lemma RaisedLine(l: Line, clock: int)
    requires LineInv(l) && Observable(l) && !l.unsettled && ObserveLine(l, false, clock).revealed > 0
    ensures var o := ObserveLine(l, false, clock);
            && o.taken == 0 && Observable(o.line) && LineInv(o.line)
            && o.line.sim.revealed - Taken(o.line) == o.revealed
            && o.line.sim.order.symbol == l.sim.order.symbol && o.line.sim.order.side == l.sim.order.side
  {
    InquiredInv(l);
    ObserveLineInv(l, false, clock);
  }

  lemma RetriedLine(l: Line, clock: int)
    requires LineInv(l) && Observable(l) && ObserveLine(l, true, clock).revealed > 0
    ensures var o := ObserveLine(l, true, clock);
            o.taken == l.sim.revealed - Taken(l) + o.revealed && o.price == o.line.sim.order.avg
  {
    InquiredInv(l);
    ObserveLineInv(l, true, clock);
  }

  // The broker's book after two increments of a buy, and the tracker after both at once.
  lemma MergedPositionIff(book: B.Positions, tracker: T.Positions, order: Order, p1: real, q1: nat, p2: real, q2: nat)
    requires B.Long(book) && T.Long(tracker) && order.side == Buy && q1 > 0 && q2 > 0
    requires order.symbol in book <==> order.symbol in tracker
    requires order.symbol in book ==>
               && book[order.symbol].qty == tracker[order.symbol].qty
               && book[order.symbol].avg == tracker[order.symbol].avg
    ensures var booked := B.BookPosition(B.BookPosition(book, order, q1, p1), order, q2, p2);
            var tracked := T.Book(tracker, T.Fill(order.symbol, Buy, q1 + q2, p2));
            && order.symbol in booked && order.symbol in tracked
            && booked[order.symbol].qty == tracked[order.symbol].qty
            && (booked[order.symbol].avg == tracked[order.symbol].avg <==> p1 == p2)
  {
    if order.symbol in book {
      MergedAverageIff(book[order.symbol].avg, book[order.symbol].qty, p1, q1, p2, q2);
    } else {
      MergedAverageIff(0.0, 0, p1, q1, p2, q2);
      T.FirstFillIsItsPrice(0.0, p1, q1);
      T.FirstFillIsItsPrice(0.0, p2, q1 + q2);
    }
  }

  // From any state in step: a report of a buy makes the callback raise, and the next one,
  // which reveals more, goes through with both increments at the later price. Quantities
  // agree again; the averages exactly when the broker's two prices were the same.
  lemma RetryKeepsAverageIff(s: System, k: nat, c1: int, c2: int)
    requires Inv(s) && k < |s.lines| && Observable(s.lines[k]) && !s.lines[k].unsettled
    requires s.lines[k].sim.order.side == Buy && SamePosition(s, s.lines[k].sim.order.symbol)
    requires var o1 := ObserveLine(s.lines[k], false, c1);
             o1.revealed > 0 && Observable(o1.line) && ObserveLine(o1.line, true, c2).revealed > 0
    ensures var o1 := ObserveLine(s.lines[k], false, c1);
            var o2 := ObserveLine(o1.line, true, c2);
            var symbol := s.lines[k].sim.order.symbol;
            var s1 := Next(s, Observe(k, true, false, c1));
            && B.Long(s1.book) && T.Long(s1.tracker) && Enabled(s1, Observe(k, true, true, c2))
            && var s2 := Next(s1, Observe(k, true, true, c2));
               && B.Qty(s2.book, symbol) == T.Held(s2.tracker, symbol)
               && (SamePosition(s2, symbol) <==> o1.price == o2.price)
  {
    var l := s.lines[k];
    var o1 := ObserveLine(l, false, c1);
    RaisedLine(l, c1);
    RetriedLine(o1.line, c2);
    var o2 := ObserveLine(o1.line, true, c2);
    MergedPositionIff(s.book, s.tracker, l.sim.order, o1.price, o1.revealed, o2.price, o2.revealed);
    RetryBooks(s, k, o1, o2);
  }

  lemma RetryBooks(s: System, k: nat, o1: Observed, o2: Observed)
    requires B.Long(s.book) && T.Long(s.tracker) && k < |s.lines| && s.lines[k].sim.order.side == Buy
    requires o1.line.sim.order.symbol == s.lines[k].sim.order.symbol && o1.line.sim.order.side == Buy
    requires o1.revealed > 0 && o1.taken == 0 && o2.revealed > 0 && o2.taken == o1.revealed + o2.revealed
    requires o2.price == o2.line.sim.order.avg
    ensures var order := s.lines[k].sim.order;
            var s1 := Booked(s, k, order, o1);
            var s2 := Booked(s1, k, o1.line.sim.order, o2);
            && s1.lines[k] == o1.line
            && s2.book == B.BookPosition(B.BookPosition(s.book, order, o1.revealed, o1.price),
                                         order, o2.revealed, o2.price)
            && s2.tracker == T.Book(s.tracker, T.Fill(order.symbol, Buy, o1.revealed + o2.revealed, o2.price))
  {
  }
}
