// The scripted paper broker (backend/brokers/paper_broker.py): each status
// inquiry reveals the next step of an order's fill plan and books what is new.
module PaperBroker {
  import opened Basics
  import opened Orders

  datatype Market = KR | US

  datatype FillStep = FillStep(cumulative: int, status: Status, avgPrice: Option<real>)

  datatype SimOrder = SimOrder(order: Order, plan: seq<FillStep>, cursor: nat, revealed: int)

  datatype Scripted = Plan(steps: seq<FillStep>) | Reject

  datatype Holding = Holding(qty: int, avg: real)

  datatype Broker = Broker(
    orders: map<OrderId, SimOrder>, positions: Positions,
    krw: real, usd: real, scripts: map<(Symbol, Side), seq<Scripted>>, last: nat)

  // Six digits are a Korean code.
  predicate IsKrCode(s: Symbol) {
    |s| == 6 && forall i :: 0 <= i < 6 ==> '0' <= s[i] <= '9'
  }

  function MarketOf(s: Symbol): Market { if IsKrCode(s) then KR else US }

  function Qty(positions: Positions, s: Symbol): int {
    if s in positions then positions[s].qty else 0
  }

  // ── One inquiry about one order ─────────────────────────────────────────────

  // The step an inquiry shows: the next one, or the last for ever.
  function Shown(so: SimOrder): FillStep
    requires so.plan != []
  {
    so.plan[if so.cursor < |so.plan| then so.cursor else |so.plan| - 1]
  }

  predicate Frozen(so: SimOrder) { TerminalNegative(so.order.status) }

  function StepPrice(so: SimOrder): real
    requires so.plan != []
  {
    if Shown(so).avgPrice.Some? then Shown(so).avgPrice.value else so.order.price
  }

  // Shares an inquiry newly reveals.
  function Increment(so: SimOrder): int
    requires so.plan != []
  {
    if Frozen(so) || Shown(so).cumulative <= so.revealed then 0
    else Shown(so).cumulative - so.revealed
  }

  function Inquired(so: SimOrder): SimOrder
    requires so.plan != []
  {
    if Frozen(so) then so
    else
      var step := Shown(so);
      so.(order := so.order.(status := step.status, filled := step.cumulative,
                             avg := if step.cumulative > 0 then StepPrice(so) else 0.0),
          cursor := if so.cursor < |so.plan| then so.cursor + 1 else so.cursor,
          revealed := so.revealed + Increment(so))
  }

  function ReportOf(o: Order): Report { Report(o.status, o.filled, o.avg) }

  // ── The book ────────────────────────────────────────────────────────────────

  type Positions = map<Symbol, Holding>

  predicate Long(ps: Positions) {
    forall s :: s in ps ==> ps[s].qty > 0
  }

  function BookPosition(ps: Positions, o: Order, inc: int, price: real): (r: Positions)
    requires inc > 0 && Long(ps)
    ensures Long(r)
    ensures forall s :: s != o.symbol ==> Qty(r, s) == Qty(ps, s)
    ensures Qty(r, o.symbol) == if o.side == Buy then Qty(ps, o.symbol) + inc
                                else if inc <= Qty(ps, o.symbol) then Qty(ps, o.symbol) - inc
                                else 0
  {
    var s := o.symbol;
    if o.side == Buy then
      if s !in ps then ps[s := Holding(inc, price)]
      else ps[s := Holding(ps[s].qty + inc, WeightedAverage(ps[s].avg, ps[s].qty, price, inc))]
    else if s !in ps then ps
    else if ps[s].qty - inc <= 0 then ps - {s}
    else ps[s := ps[s].(qty := ps[s].qty - inc)]
  }

  // Shares against cash: what the position gains, the cash of its market pays.
  function Booked(b: Broker, o: Order, inc: int, price: real): Broker
    requires inc > 0 && Long(b.positions)
  {
    var cash := if o.side == Buy then -(inc as real * price) else inc as real * price;
    var b1 := if MarketOf(o.symbol) == US then b.(usd := b.usd + cash) else b.(krw := b.krw + cash);
    b1.(positions := BookPosition(b.positions, o, inc, price))
  }

  predicate Sound(b: Broker) {
    && (forall id :: id in b.orders ==>
          id != 0 && id <= b.last && b.orders[id].plan != [] && b.orders[id].order.id == id)
    && Long(b.positions)
  }

  function Inquire(b: Broker, id: OrderId): Broker
    requires Sound(b)
  {
    if id !in b.orders then b
    else
      var so := b.orders[id];
      var b1 := b.(orders := b.orders[id := Inquired(so)]);
      if Increment(so) > 0 then Booked(b1, so.order, Increment(so), StepPrice(so)) else b1
  }

  // Cancelling works on any order not yet finished, known or not to have filled in part.
  function Cancel(b: Broker, id: OrderId): Broker {
    if id in b.orders && !Terminal(b.orders[id].order.status)
    then b.(orders := b.orders[id := b.orders[id].(order := b.orders[id].order.(status := Canceled))])
    else b
  }

  // What the next order of this symbol and side will do, and the queue without it.
  function NextScript(b: Broker, symbol: Symbol, side: Side): (Option<Scripted>, Broker) {
    var key := (symbol, side);
    if key in b.scripts && b.scripts[key] != []
    then (Some(b.scripts[key][0]), b.(scripts := b.scripts[key := b.scripts[key][1..]]))
    else (None, b)
  }

  // Unscripted orders, and an empty script, fill in full at the first inquiry.
  function Placed(id: OrderId, symbol: Symbol, side: Side, qty: int, price: real, script: Option<Scripted>): SimOrder {
    match script
    case Some(Reject) =>
      SimOrder(Order(id, symbol, side, qty, price, Rejected, 0, 0.0), [FillStep(0, Rejected, None)], 0, 0)
    case Some(Plan(steps)) =>
      SimOrder(Order(id, symbol, side, qty, price, Submitted, 0, 0.0),
               if steps == [] then [FillStep(qty, Filled, None)] else steps, 0, 0)
    case None =>
      SimOrder(Order(id, symbol, side, qty, price, Submitted, 0, 0.0), [FillStep(qty, Filled, None)], 0, 0)
  }

  function Place(b: Broker, symbol: Symbol, side: Side, qty: int, price: real): Broker {
    var (script, b1) := NextScript(b, symbol, side);
    var id := b.last + 1;
    b1.(last := id, orders := b.orders[id := Placed(id, symbol, side, qty, price, script)])
  }

  // ── In the fields themselves ────────────────────────────────────────────────

  // Korean is six characters, each a digit; everything else is traded in dollars.
  lemma MarketMeans(s: Symbol)
    ensures MarketOf(s) == KR <==> |s| == 6 && forall c :: c in s ==> c in "0123456789"
  {
    assert forall i :: 0 <= i < |s| ==> s[i] in s;
  }

  // An order the broker ended shows nothing more. Any other shows its next step, the last for
  // ever: status, total and average are the step's, what it adds to the shares revealed so far
  // is the increment, at the step's price or else the order's.
  lemma InquiryMeans(so: SimOrder)
    requires so.plan != [] && so.cursor <= |so.plan|
    ensures so.order.status in {Canceled, Rejected, Expired} ==> Inquired(so) == so && Increment(so) == 0
    ensures so.order.status !in {Canceled, Rejected, Expired} ==>
              var so' := Inquired(so);
              var step := if so.cursor == |so.plan| then so.plan[so.cursor - 1] else so.plan[so.cursor];
              var price := if step.avgPrice.Some? then step.avgPrice.value else so.order.price;
              && so'.order == so.order.(status := step.status, filled := step.cumulative, avg := so'.order.avg)
              && so'.order.avg == (if step.cumulative <= 0 then 0.0 else price)
              && StepPrice(so) == price && so'.plan == so.plan && so'.cursor == Min(so.cursor + 1, |so.plan|)
              && so'.revealed == Max(so.revealed, step.cumulative) && Increment(so) == so'.revealed - so.revealed
  {
  }

  // Shares come for cash of their own market, at the price of the increment.
  lemma BookingMeans(b: Broker, o: Order, inc: int, price: real)
    requires inc > 0 && Long(b.positions)
    ensures var b' := Booked(b, o, inc, price); var value := inc as real * price;
            && b'.positions == BookPosition(b.positions, o, inc, price)
            && (b'.orders, b'.scripts, b'.last) == (b.orders, b.scripts, b.last)
            && b'.krw - b.krw == (if MarketOf(o.symbol) == US then 0.0 else if o.side == Sell then value else -value)
            && b'.usd - b.usd == (if MarketOf(o.symbol) == KR then 0.0 else if o.side == Sell then value else -value)
  {
  }

  // Asking about one order moves no other, and the book only by what is newly revealed.
  lemma AskingMeans(b: Broker, id: OrderId)
    requires Sound(b)
    ensures var b' := Inquire(b, id);
            if id !in b.orders then b' == b
            else
              var so := b.orders[id];
              && b'.orders == b.orders[id := Inquired(so)]
              && b'.(orders := b.orders) ==
                   if Increment(so) <= 0 then b else Booked(b, so.order, Increment(so), StepPrice(so))
  {
  }

  // A cancel ends an order that is not ended, and changes its status only.
  lemma CancelMeans(b: Broker, id: OrderId)
    ensures var b' := Cancel(b, id);
            if id in b.orders && b.orders[id].order.status !in {Filled, Canceled, Rejected, Expired}
            then && b'.(orders := b.orders) == b && b'.orders.Keys == b.orders.Keys
                 && b'.orders[id].order == b.orders[id].order.(status := Canceled)
                 && b'.orders[id].(order := b.orders[id].order) == b.orders[id]
                 && forall k :: k in b.orders && k != id ==> b'.orders[k] == b.orders[k]
            else b' == b
  {
  }

  // A new order takes the next number and the first script waiting for its symbol and side:
  // it is rejected and never fills, follows the steps given, or fills whole at once.
  lemma PlacingMeans(b: Broker, symbol: Symbol, side: Side, qty: int, price: real)
    ensures var b' := Place(b, symbol, side, qty, price); var id := b.last + 1;
            var waiting := if (symbol, side) in b.scripts then b.scripts[(symbol, side)] else [];
            && b'.last == id && b'.orders.Keys == b.orders.Keys + {id}
            && (forall k :: k in b.orders && k != id ==> b'.orders[k] == b.orders[k])
            && b'.scripts == (if waiting == [] then b.scripts else b.scripts[(symbol, side) := waiting[1..]])
            && (b'.positions, b'.krw, b'.usd) == (b.positions, b.krw, b.usd)
            && var so := b'.orders[id];
               var rejected := waiting != [] && waiting[0] == Reject;
               && so.order == Order(id, symbol, side, qty, price, if rejected then Rejected else Submitted, 0, 0.0)
               && so.cursor == 0 && so.revealed == 0
               && (rejected ==> so.plan == [FillStep(0, Rejected, None)])
               && (!rejected ==>
                     so.plan == if waiting != [] && waiting[0].steps != [] then waiting[0].steps
                                else [FillStep(qty, Filled, None)])
  {
  }

  // ── The mutable broker ──────────────────────────────────────────────────────

  class ScriptedPaperBroker {
    var orders: map<OrderId, SimOrder>
    var positions: Positions
    var cashKrw: real
    var cashUsd: real
    var scripts: map<(Symbol, Side), seq<Scripted>>
    var last: nat
    var failNextStatus: bool
    var failNextOrder: bool

    constructor (krw: real, usd: real)
      ensures Abs() == Broker(map[], map[], krw, usd, map[], 0) && !failNextStatus && !failNextOrder
    {
      orders, positions, scripts, last := map[], map[], map[], 0;
      cashKrw, cashUsd, failNextStatus, failNextOrder := krw, usd, false, false;
    }

    function Abs(): Broker
      reads this
    {
      Broker(orders, positions, cashKrw, cashUsd, scripts, last)
    }

    // None: the call raised.
    method PlaceOrder(symbol: Symbol, side: Side, qty: int, price: real) returns (order: Option<Order>)
      requires Sound(Abs())
      modifies this
      ensures Sound(Abs()) && !failNextOrder && failNextStatus == old(failNextStatus)
      ensures old(failNextOrder) ==> order.None? && Abs() == old(Abs())
      ensures !old(failNextOrder) ==>
                && Abs() == Place(old(Abs()), symbol, side, qty, price)
                && last !in old(orders) && order == Some(orders[last].order)
    {
      if failNextOrder {
        failNextOrder := false;
        return None;
      }
      last := last + 1;
      var key := (symbol, side);
      var script: Option<Scripted> := None;
      if key in scripts && scripts[key] != [] {
        script := Some(scripts[key][0]);
        scripts := scripts[key := scripts[key][1..]];
      }
      orders := orders[last := Placed(last, symbol, side, qty, price, script)];
      order := Some(orders[last].order);
    }

    method CancelOrder(id: OrderId) returns (ok: bool)
      requires Sound(Abs())
      modifies this`orders
      ensures Sound(Abs()) && Abs() == Cancel(old(Abs()), id)
      ensures ok == (id in old(orders) && !Terminal(old(orders)[id].order.status))
    {
      if id !in orders || Terminal(orders[id].order.status) { return false; }
      orders := orders[id := orders[id].(order := orders[id].order.(status := Canceled))];
      ok := true;
    }

    method ApplyToBook(o: Order, inc: int, price: real)
      requires inc > 0 && Sound(Abs())
      modifies this`positions, this`cashKrw, this`cashUsd
      ensures Abs() == Booked(old(Abs()), o, inc, price) && Sound(Abs())
    {
      var delta := inc as real * price;
      var cash := if o.side == Buy then -delta else delta;
      if MarketOf(o.symbol) == US { cashUsd := cashUsd + cash; } else { cashKrw := cashKrw + cash; }
      if o.side == Buy {
        if o.symbol !in positions {
          positions := positions[o.symbol := Holding(inc, price)];
        } else {
          var pos := positions[o.symbol];
          var avg := WeightedAverage(pos.avg, pos.qty, price, inc);
          positions := positions[o.symbol := Holding(pos.qty + inc, avg)];
        }
      } else if o.symbol in positions {
        var pos := positions[o.symbol];
        pos := pos.(qty := pos.qty - inc);
        positions := if pos.qty <= 0 then positions - {o.symbol} else positions[o.symbol := pos];
      }
    }

    // Shows the next step of an order: how many shares it newly reveals, and at what price.
    method Reveal(id: OrderId) returns (inc: int, price: real)
      requires Sound(Abs()) && id in orders && !Frozen(orders[id])
      modifies this`orders
      ensures orders == old(orders)[id := Inquired(old(orders)[id])]
      ensures price == StepPrice(old(orders)[id])
      ensures Increment(old(orders)[id]) == if inc > 0 then inc else 0
    {
      var so := orders[id];
      var step := so.plan[if so.cursor < |so.plan| then so.cursor else |so.plan| - 1];
      price := if step.avgPrice.Some? then step.avgPrice.value else so.order.price;
      inc := step.cumulative - so.revealed;
      var shown := so.(
        order := so.order.(filled := step.cumulative, avg := if step.cumulative > 0 then price else 0.0,
                           status := step.status),
        cursor := if so.cursor < |so.plan| then so.cursor + 1 else so.cursor,
        revealed := if inc > 0 then step.cumulative else so.revealed);
      orders := orders[id := shown];
    }

    // `raised` when the call failed; otherwise the order as the broker now sees it.
    method GetOrderStatus(id: OrderId) returns (raised: bool, order: Option<Order>)
      requires Sound(Abs())
      modifies this
      ensures Sound(Abs()) && !failNextStatus && failNextOrder == old(failNextOrder)
      ensures raised == old(failNextStatus)
      ensures raised ==> Abs() == old(Abs()) && order.None?
      ensures !raised ==>
                && Abs() == Inquire(old(Abs()), id)
                && order == if id in old(orders) then Some(orders[id].order) else None
    {
      raised, order := failNextStatus, None;
      failNextStatus := false;
      if raised || id !in orders { return; }
      var so := orders[id];
      if TerminalNegative(so.order.status) {
        assert orders == orders[id := Inquired(so)];
        return false, Some(so.order);
      }
      var inc, price := Reveal(id);
      if inc > 0 { ApplyToBook(so.order, inc, price); }
      order := Some(orders[id].order);
    }
  }
}
