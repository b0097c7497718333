// What the paper broker's cash says (backend/brokers/paper_broker.py): over any run,
// the money of a market that is gone is the cost of the shares its orders revealed,
// and a canceled order reveals none after its cancel.
module PaperCash {
  import opened Basics
  import opened Orders
  import opened PaperBroker

  // ── What a plan reveals, step by step ───────────────────────────────────────

  // A step below what earlier ones showed takes nothing back.
  function RevealedBy(plan: seq<FillStep>, n: nat): int
    requires n <= |plan|
  {
    if n == 0 then 0 else Max(RevealedBy(plan, n - 1), plan[n - 1].cumulative)
  }

  function PriceOf(step: FillStep, limit: real): real {
    if step.avgPrice.Some? then step.avgPrice.value else limit
  }

  function Cost(shares: int, price: real): real { shares as real * price }

  // Each newly revealed share costs the price of the step that first shows it.
  function CostBy(plan: seq<FillStep>, n: nat, limit: real): real
    requires n <= |plan|
  {
    if n == 0 then 0.0
    else CostBy(plan, n - 1, limit)
         + Cost(RevealedBy(plan, n) - RevealedBy(plan, n - 1), PriceOf(plan[n - 1], limit))
  }

  // An order has shown its first `cursor` steps, and revealed what they reveal.
  predicate InStep(so: SimOrder) {
    so.cursor <= |so.plan| && so.revealed == RevealedBy(so.plan, so.cursor)
  }

  function Paid(so: SimOrder): real
    requires InStep(so)
  {
    CostBy(so.plan, so.cursor, so.order.price)
  }

  // Buys spend, sells bring in.
  function SignedPaid(so: SimOrder): real
    requires InStep(so)
  {
    if so.order.side == Buy then Paid(so) else -Paid(so)
  }

  ghost predicate Kept(b: Broker) {
    Sound(b) && forall id :: id in b.orders ==> InStep(b.orders[id])
  }

  // One inquiry pays for exactly what it reveals, at the price it shows.
  lemma InquiryPays(so: SimOrder)
    requires so.plan != [] && InStep(so)
    ensures InStep(Inquired(so)) && Inquired(so).order.side == so.order.side
    ensures Paid(Inquired(so)) == Paid(so) + Cost(Increment(so), StepPrice(so))
  {
    if !Frozen(so) {
      if so.cursor < |so.plan| {
        assert RevealedBy(so.plan, so.cursor + 1) == so.revealed + Increment(so);
      } else {
        RevealedGrows(so.plan, |so.plan|, |so.plan| - 1);
        assert Increment(so) == 0;
      }
    }
  }

  lemma {:induction false} RevealedGrows(plan: seq<FillStep>, n: nat, i: nat)
    requires i < n <= |plan|
    ensures RevealedBy(plan, n) >= plan[i].cumulative && RevealedBy(plan, n) >= 0
  {
    if i < n - 1 { RevealedGrows(plan, n - 1, i); } else if n > 1 { RevealedGrows(plan, n - 1, 0); }
  }

  // ── The cash of a market ────────────────────────────────────────────────────

  function CashIn(b: Broker, market: Market): real { if market == US then b.usd else b.krw }

  function SpentOn(so: SimOrder, market: Market): real {
    if MarketOf(so.order.symbol) == market && InStep(so) then SignedPaid(so) else 0.0
  }

  // Over the ids up to n.
  function Spent(orders: map<OrderId, SimOrder>, market: Market, n: nat): real {
    if n == 0 then 0.0
    else Spent(orders, market, n - 1) + if n in orders then SpentOn(orders[n], market) else 0.0
  }

  lemma {:induction false} SpentUpdate(orders: map<OrderId, SimOrder>, market: Market, n: nat, id: OrderId,
                                       so: SimOrder)
    requires id > 0
    ensures Spent(orders[id := so], market, n)
         == Spent(orders, market, n)
            + if id <= n then SpentOn(so, market) - if id in orders then SpentOn(orders[id], market) else 0.0
              else 0.0
  {
    if n > 0 { SpentUpdate(orders, market, n - 1, id, so); }
  }

  datatype Op =
    | PlaceOp(symbol: Symbol, side: Side, qty: int, price: real)
    | CancelOp(id: OrderId)
    | InquireOp(id: OrderId)
    | ScriptOp(symbol: Symbol, side: Side, script: Scripted)

  function Do(b: Broker, op: Op): Broker
    requires Sound(b)
  {
    match op
    case PlaceOp(symbol, side, qty, price) => Place(b, symbol, side, qty, price)
    case CancelOp(id) => Cancel(b, id)
    case InquireOp(id) => Inquire(b, id)
    case ScriptOp(symbol, side, script) =>
      var queue := if (symbol, side) in b.scripts then b.scripts[(symbol, side)] else [];
      b.(scripts := b.scripts[(symbol, side) := queue + [script]])
  }

  // Cash and what was spent of it.
  function Wealth(b: Broker, market: Market): real { CashIn(b, market) + Spent(b.orders, market, b.last) }

  // What shares revealed at a price take out of a market's cash.
  function Bill(o: Order, shares: int, price: real, market: Market): real {
    if MarketOf(o.symbol) != market then 0.0
    else if o.side == Buy then Cost(shares, price) else -Cost(shares, price)
  }

  lemma InquirySpends(so: SimOrder, market: Market)
    requires so.plan != [] && InStep(so)
    ensures InStep(Inquired(so))
    ensures SpentOn(Inquired(so), market) == SpentOn(so, market) + Bill(so.order, Increment(so), StepPrice(so), market)
  {
    InquiryPays(so);
  }

  lemma BookingPays(b: Broker, o: Order, shares: int, price: real, market: Market)
    requires shares > 0 && Long(b.positions)
    ensures CashIn(Booked(b, o, shares, price), market) == CashIn(b, market) - Bill(o, shares, price, market)
    ensures Booked(b, o, shares, price).orders == b.orders && Booked(b, o, shares, price).last == b.last
    ensures Long(Booked(b, o, shares, price).positions)
  {
  }

  lemma NothingToBill(o: Order, price: real, market: Market)
    ensures Bill(o, 0, price, market) == 0.0
  {
  }

  lemma InquireKeepsWealth(b: Broker, id: OrderId, market: Market)
    requires Kept(b)
    ensures Kept(Inquire(b, id)) && Wealth(Inquire(b, id), market) == Wealth(b, market)
  {
    if id in b.orders {
      var so := b.orders[id];
      var b1 := b.(orders := b.orders[id := Inquired(so)]);
      InquirySpends(so, market);
      SpentUpdate(b.orders, market, b.last, id, Inquired(so));
      if Increment(so) > 0 { BookingPays(b1, so.order, Increment(so), StepPrice(so), market); }
      else { NothingToBill(so.order, StepPrice(so), market); }
    }
  }

  lemma PlaceKeepsWealth(b: Broker, symbol: Symbol, side: Side, qty: int, price: real, market: Market)
    requires Kept(b)
    ensures var after := Place(b, symbol, side, qty, price);
            Kept(after) && Wealth(after, market) == Wealth(b, market)
  {
    var after := Place(b, symbol, side, qty, price);
    var id := b.last + 1;
    assert id !in b.orders && SpentOn(after.orders[id], market) == 0.0;
    SpentUpdate(b.orders, market, id, id, after.orders[id]);
  }

  lemma OpKeepsWealth(b: Broker, op: Op, market: Market)
    requires Kept(b)
    ensures Kept(Do(b, op)) && Wealth(Do(b, op), market) == Wealth(b, market)
  {
    match op
    case InquireOp(id) => InquireKeepsWealth(b, id, market);
    case CancelOp(id) =>
      if id in b.orders { SpentUpdate(b.orders, market, b.last, id, Cancel(b, id).orders[id]); }
    case PlaceOp(symbol, side, qty, price) => PlaceKeepsWealth(b, symbol, side, qty, price, market);
    case ScriptOp(_, _, _) =>
  }

  function DoAll(b: Broker, ops: seq<Op>): Broker
    requires Kept(b)
    decreases |ops|
  {
    if ops == [] then b
    else
      OpKeepsWealth(b, ops[0], KR);
      DoAll(Do(b, ops[0]), ops[1..])
  }

  // No money is made or lost: over any placements, cancels and inquiries, each market's
  // cash plus the signed cost of everything its orders revealed stays what it was.
  lemma {:induction false} CashConserved(b: Broker, ops: seq<Op>, market: Market)
    requires Kept(b)
    ensures Wealth(DoAll(b, ops), market) == Wealth(b, market) && Kept(DoAll(b, ops))
    decreases |ops|
  {
    if ops != [] {
      OpKeepsWealth(b, ops[0], market);
      OpKeepsWealth(b, ops[0], KR);
      CashConserved(Do(b, ops[0]), ops[1..], market);
    }
  }

  // From an account without orders: what is missing from its cash is what they cost.
  lemma CashIsWhatWasSpent(krw: real, usd: real, ops: seq<Op>, market: Market)
    ensures var b := DoAll(Broker(map[], map[], krw, usd, map[], 0), ops);
            CashIn(b, market) == (if market == US then usd else krw) - Spent(b.orders, market, b.last)
  {
    CashConserved(Broker(map[], map[], krw, usd, map[], 0), ops, market);
  }

  // ── After a cancel ──────────────────────────────────────────────────────────

  lemma {:induction false} FrozenStays(b: Broker, ops: seq<Op>, id: OrderId)
    requires Kept(b) && id in b.orders && Frozen(b.orders[id])
    ensures id in DoAll(b, ops).orders && DoAll(b, ops).orders[id] == b.orders[id]
    decreases |ops|
  {
    if ops != [] {
      OpKeepsWealth(b, ops[0], KR);
      assert Do(b, ops[0]).orders[id] == b.orders[id];
      FrozenStays(Do(b, ops[0]), ops[1..], id);
    }
  }

  // A cancel that succeeds is final: whatever the plan still held, no later call reveals
  // another share of the order or moves its cost. One that fails leaves the broker as it was.
  lemma CancelIsFinal(b: Broker, ops: seq<Op>, id: OrderId)
    requires Kept(b) && id in b.orders
    ensures Kept(Cancel(b, id))
    ensures !Terminal(b.orders[id].order.status) ==>
              var after := DoAll(Cancel(b, id), ops);
              && id in after.orders && after.orders[id].order.status == Canceled
              && after.orders[id].revealed == b.orders[id].revealed
              && InStep(after.orders[id]) && Paid(after.orders[id]) == Paid(b.orders[id])
    ensures Terminal(b.orders[id].order.status) ==> Cancel(b, id) == b
  {
    OpKeepsWealth(b, CancelOp(id), KR);
    if !Terminal(b.orders[id].order.status) { FrozenStays(Cancel(b, id), ops, id); }
  }
}
