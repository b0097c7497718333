// In-memory positions and the one-order-at-a-time lock per symbol
// (backend/execution/position_tracker.py).
module PositionTracker {
  import opened Orders
  import opened Reals
  import M = OrderMachine

  const PENDING_LOCK_TTL: int := 1800

  datatype Position = Position(qty: int, avg: real, current: real)

  type Positions = map<Symbol, Position>

  datatype Fill = Fill(symbol: Symbol, side: Side, qty: int, price: real)

  function Held(ps: Positions, symbol: Symbol): int {
    if symbol in ps then ps[symbol].qty else 0
  }

  predicate Long(ps: Positions) {
    forall s :: s in ps ==> ps[s].qty > 0
  }

  // The average has no value when a buy leaves no shares, which takes a quantity that is
  // not positive.
  predicate Bookable(ps: Positions, f: Fill) {
    f.side == Buy && f.symbol in ps ==> ps[f.symbol].qty + f.qty != 0
  }

  // A buy averages in; a sell keeps the average and removes a position sold out or oversold.
  function Book(ps: Positions, f: Fill): (r: Positions)
    requires Bookable(ps, f)
    ensures Long(ps) && f.qty > 0 ==> Long(r)
    ensures forall s :: s != f.symbol ==> (s in r <==> s in ps) && (s in ps ==> r[s] == ps[s])
    ensures Held(r, f.symbol) == if f.side == Buy then Held(ps, f.symbol) + f.qty
                                 else if f.symbol in ps && f.qty < Held(ps, f.symbol) then Held(ps, f.symbol) - f.qty
                                 else 0
    ensures f.symbol in r ==> r[f.symbol].current == f.price
  {
    match f.side
    case Buy =>
      if f.symbol !in ps then ps[f.symbol := Position(f.qty, f.price, f.price)]
      else
        var p := ps[f.symbol];
        ps[f.symbol := Position(p.qty + f.qty, WeightedAverage(p.avg, p.qty, f.price, f.qty), f.price)]
    case Sell =>
      if f.symbol !in ps then ps
      else
        var p := ps[f.symbol];
        if p.qty - f.qty <= 0 then ps - {f.symbol}
        else ps[f.symbol := p.(qty := p.qty - f.qty, current := f.price)]
  }

  function BookAll(ps: Positions, fills: seq<Fill>): Positions
    requires Long(ps) && forall i :: 0 <= i < |fills| ==> fills[i].qty > 0
    decreases |fills|
  {
    if fills == [] then ps else BookAll(Book(ps, fills[0]), fills[1..])
  }

  // ── The average price of a position ─────────────────────────────────────────

  lemma AverageBetween(avg: real, n: int, price: real, q: int, lo: real, hi: real)
    requires n > 0 && q > 0 && lo <= avg <= hi && lo <= price <= hi
    ensures lo <= WeightedAverage(avg, n, price, q) <= hi
  {
    var a, b := n as real, q as real;
    MulMono(lo, avg, a);
    MulMono(lo, price, b);
    MulMono(avg, hi, a);
    MulMono(price, hi, b);
    var num := avg * a + price * b;
    assert lo * (a + b) == lo * a + lo * b;
    assert hi * (a + b) == hi * a + hi * b;
    QuotientBetween(lo, num, hi, a + b);
  }

  predicate Within(ps: Positions, symbol: Symbol, lo: real, hi: real) {
    symbol in ps ==> lo <= ps[symbol].avg <= hi
  }

  lemma BookWithin(ps: Positions, f: Fill, symbol: Symbol, lo: real, hi: real)
    requires Long(ps) && f.qty > 0 && Within(ps, symbol, lo, hi)
    requires f.symbol == symbol && f.side == Buy ==> lo <= f.price <= hi
    ensures Within(Book(ps, f), symbol, lo, hi)
  {
    if f.symbol == symbol && f.side == Buy && symbol in ps {
      AverageBetween(ps[symbol].avg, ps[symbol].qty, f.price, f.qty, lo, hi);
    }
  }

  // From any moment the symbol is flat (and from the last one in particular), the
  // average stays between the lowest and the highest price bought at since.
  lemma {:induction false} AverageWithinBuys(ps: Positions, fills: seq<Fill>, symbol: Symbol, lo: real, hi: real)
    requires Long(ps) && Within(ps, symbol, lo, hi)
    requires forall i :: 0 <= i < |fills| ==> fills[i].qty > 0
    requires forall i :: 0 <= i < |fills| && fills[i].symbol == symbol && fills[i].side == Buy ==>
               lo <= fills[i].price <= hi
    ensures Within(BookAll(ps, fills), symbol, lo, hi)
    decreases |fills|
  {
    if fills != [] {
      var f := fills[0];
      BookWithin(ps, f, symbol, lo, hi);
      AverageWithinBuys(Book(ps, f), fills[1..], symbol, lo, hi);
    }
  }

  // A sell that leaves shares leaves their average alone.
  lemma SellKeepsAverage(ps: Positions, f: Fill)
    requires Long(ps) && f.qty > 0 && f.side == Sell && f.symbol in Book(ps, f)
    ensures f.symbol in ps && Book(ps, f)[f.symbol].avg == ps[f.symbol].avg
  {
  }

  function Buys(symbol: Symbol, fills: seq<M.Fill>): seq<Fill> {
    seq(|fills|, i requires 0 <= i < |fills| => Fill(symbol, Buy, fills[i].qty, fills[i].price))
  }

  lemma FirstFillIsItsPrice(avg: real, price: real, q: int)
    requires q > 0
    ensures WeightedAverage(avg, 0, price, q) == price
  {
    var n := q as real;
    assert price * n / n == price;
  }

  // The order and the position fed by the same fills agree on quantity and average.
  lemma {:induction false} PositionMatchesOrder(ps: Positions, o: Order, fills: seq<M.Fill>)
    requires Long(ps) && M.Accepted(o, fills)
    requires if o.filled == 0 then o.symbol !in ps
             else o.symbol in ps && ps[o.symbol].qty == o.filled && ps[o.symbol].avg == o.avg
    ensures forall i :: 0 <= i < |fills| ==> fills[i].qty > 0
    ensures var ps' := BookAll(ps, Buys(o.symbol, fills)); var o' := M.FillAll(o, fills);
            && Held(ps', o.symbol) == o'.filled
            && (o'.filled != 0 ==> o.symbol in ps' && ps'[o.symbol].avg == o'.avg)
    decreases |fills|
  {
    if fills != [] {
      var f := fills[0];
      var b := Buys(o.symbol, fills);
      assert b[1..] == Buys(o.symbol, fills[1..]);
      var o1 := M.FillOrder(o, f.qty, f.price).0;
      if o.filled == 0 { FirstFillIsItsPrice(o.avg, f.price, f.qty); }
      var ps1 := Book(ps, b[0]);
      assert ps1[o.symbol].qty == o1.filled && ps1[o.symbol].avg == o1.avg;
      PositionMatchesOrder(ps1, o1, fills[1..]);
    }
  }

  // ── The pending lock ────────────────────────────────────────────────────────

  type Locks = map<Symbol, int>

  predicate Locked(locks: Locks, symbol: Symbol, now: int) {
    symbol in locks && now - locks[symbol] <= PENDING_LOCK_TTL
  }

  // `blocked`: a corporate action gates the symbol, or the gate could not be checked.
  datatype LockEvent =
    | TryMark(symbol: Symbol, now: int, blocked: bool)
    | CanPlace(symbol: Symbol, now: int, blocked: bool)
    | Mark(symbol: Symbol, now: int)
    | Unmark(symbol: Symbol)          // a release, or a fill of the symbol

  function LockNext(locks: Locks, ev: LockEvent): (Locks, bool) {
    match ev
    case TryMark(s, now, blocked) =>
      if blocked || Locked(locks, s, now) then (locks, false) else (locks[s := now], true)
    case CanPlace(s, now, blocked) =>
      if blocked then (locks, false)
      else if s !in locks then (locks, true)
      else if now - locks[s] > PENDING_LOCK_TTL then (locks - {s}, true) else (locks, false)
    case Mark(s, now) => (locks[s := now], true)
    case Unmark(s) => (locks - {s}, true)
  }

  function LockRun(locks: Locks, evs: seq<LockEvent>): Locks
    decreases |evs|
  {
    if evs == [] then locks else LockRun(LockNext(locks, evs[0]).0, evs[1..])
  }

  // When a symbol may be ordered: no gate, and no lock of the last half hour. Asking takes
  // the lock or drops an old one; marking takes it in any case; nothing touches another's.
  lemma LockMeans(locks: Locks, ev: LockEvent)
    ensures var (locks', ok) := LockNext(locks, ev); var s := ev.symbol;
            && (ev.TryMark? || ev.CanPlace? ==>
                  (ok <==> !ev.blocked && (s !in locks || ev.now - locks[s] > 1800)))
            && (ev.TryMark? ==> locks' == if ok then locks[s := ev.now] else locks)
            && (ev.CanPlace? ==> locks' == if ok then locks - {s} else locks)
            && (ev.Mark? ==> locks' == locks[s := ev.now])
            && (ev.Unmark? ==> locks' == locks - {s})
  {
  }

  // Until it is released or half an hour old, a lock stays with its taker: nobody
  // else can take it or be told the symbol is free, whatever happens meanwhile.
  lemma {:induction false} LockExcludes(locks: Locks, symbol: Symbol, evs: seq<LockEvent>, k: nat)
    requires symbol in locks && k < |evs|
    requires forall i :: 0 <= i < |evs| && evs[i].symbol == symbol ==>
               (evs[i].TryMark? || evs[i].CanPlace?) && evs[i].now <= locks[symbol] + PENDING_LOCK_TTL
    ensures symbol in LockRun(locks, evs) && LockRun(locks, evs)[symbol] == locks[symbol]
    ensures evs[k].symbol == symbol ==> !LockNext(LockRun(locks, evs[..k]), evs[k]).1
    decreases |evs|
  {
    var next := LockNext(locks, evs[0]).0;
    if k == 0 {
      if |evs| > 1 { LockExcludes(next, symbol, evs[1..], 0); }
    } else {
      LockExcludes(next, symbol, evs[1..], k - 1);
      assert evs[..k][1..] == evs[1..][..k - 1];
    }
  }

  // ── The mutable tracker ─────────────────────────────────────────────────────

  // The broker's row for an exit under a gate: held, orderable (None: not stated), average.
  datatype BrokerRow = BrokerRow(held: int, orderable: Option<int>, avg: real)
  datatype BrokerAnswer = LookupFailed | NoPosition | Holding(row: BrokerRow)

  class PositionTracker {
    var positions: Positions
    var pending: Locks

    constructor ()
      ensures positions == map[] && pending == map[]
    {
      positions, pending := map[], map[];
    }

    // `raised`: the division by no shares failed, after the lock was released.
    method OnFill(f: Fill) returns (raised: bool)
      modifies this
      ensures raised <==> !Bookable(old(positions), f)
      ensures positions == if raised then old(positions) else Book(old(positions), f)
      ensures pending == LockNext(old(pending), Unmark(f.symbol)).0
    {
      pending := pending - {f.symbol};
      raised := false;
      if f.side == Buy {
        if f.symbol !in positions {
          positions := positions[f.symbol := Position(f.qty, f.price, f.price)];
        } else {
          var pos := positions[f.symbol];
          if pos.qty + f.qty == 0 { return true; }
          pos := pos.(avg := WeightedAverage(pos.avg, pos.qty, f.price, f.qty));
          pos := pos.(qty := pos.qty + f.qty, current := f.price);
          positions := positions[f.symbol := pos];
        }
      } else {
        if f.symbol !in positions { return; }
        var pos := positions[f.symbol];
        pos := pos.(qty := pos.qty - f.qty, current := f.price);
        if pos.qty <= 0 {
          positions := positions - {f.symbol};
        } else {
          positions := positions[f.symbol := pos];
        }
      }
    }

    method TryMarkPending(symbol: Symbol, now: int, blocked: bool) returns (ok: bool)
      modifies this`pending
      ensures (pending, ok) == LockNext(old(pending), TryMark(symbol, now, blocked))
    {
      if blocked { return false; }
      if symbol in pending && now - pending[symbol] <= PENDING_LOCK_TTL { return false; }
      pending := pending[symbol := now];
      ok := true;
    }

    method CanPlaceOrder(symbol: Symbol, now: int, blocked: bool) returns (ok: bool)
      modifies this`pending
      ensures (pending, ok) == LockNext(old(pending), CanPlace(symbol, now, blocked))
    {
      if blocked { return false; }
      if symbol !in pending { return true; }
      if now - pending[symbol] > PENDING_LOCK_TTL {
        pending := pending - {symbol};
        return true;
      }
      ok := false;
    }

    method UnmarkPending(symbol: Symbol)
      modifies this`pending
      ensures pending == LockNext(old(pending), Unmark(symbol)).0
    {
      pending := pending - {symbol};
    }

    // The only way past a corporate-action gate: an exit sized by the broker, which
    // takes the lock and adopts the broker's position, or does neither.
    method ClaimCaExit(symbol: Symbol, now: int, answer: BrokerAnswer) returns (qty: Option<int>)
      modifies this
      ensures qty.Some? <==>
                && answer.Holding? && !Locked(old(pending), symbol, now) && answer.row.avg > 0.0
                && answer.row.held >= 0 && answer.row.orderable.Some?
                && answer.row.held > 0 && answer.row.orderable.value > 0
      ensures qty.Some? ==>
                && 0 < qty.value <= answer.row.held && qty.value <= answer.row.orderable.value
                && (qty.value == answer.row.held || qty.value == answer.row.orderable.value)
                && pending == old(pending)[symbol := now]
                && symbol in positions && positions == old(positions)[symbol := positions[symbol]]
                && positions[symbol].qty == answer.row.held && positions[symbol].avg == answer.row.avg
      ensures qty.None? ==> pending == old(pending) && positions == old(positions)
    {
      match answer
      case LookupFailed | NoPosition => return None;
      case Holding(row) =>
        if row.held < 0 || row.orderable.None? || row.orderable.value < 0 { return None; }
        var sellable := if row.orderable.value < row.held then row.orderable.value else row.held;
        if sellable <= 0 || row.avg <= 0.0 { return None; }
        if Locked(pending, symbol, now) { return None; }
        pending := pending[symbol := now];
        var current := if symbol in positions then positions[symbol].current else 0.0;
        positions := positions[symbol := Position(row.held, row.avg, current)];
        qty := Some(sellable);
    }
  }
}
