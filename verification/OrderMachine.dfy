// The order state machine (backend/execution/order_machine.py): the transition
// table, fills with their weighted average price, re-keying on submission, and
// the roll-back of a transition that could not be persisted.
module OrderMachine {
  import opened Orders
  import opened Sums

  predicate Allowed(from: Status, to: Status) {
    match from
    case Pending => to in {Submitted, Rejected, Canceled}
    case Submitted => to in {PartialFilled, Filled, Canceled, Rejected, Expired, Unknown}
    case PartialFilled => to in {Filled, Canceled, Expired, Unknown}
    case Unknown => to in {Submitted, PartialFilled, Filled, Canceled, Rejected, Expired}
    case Filled | Canceled | Rejected | Expired => false
  }

  // The table read the other way: from where each status can be reached.
  lemma ReachedFrom(from: Status, to: Status)
    ensures Allowed(from, to) <==>
              match to
              case Pending => false
              case Submitted => from in {Pending, Unknown}
              case PartialFilled | Expired => from in {Submitted, Unknown} || (to == Expired && from == PartialFilled)
              case Filled => from in {Submitted, PartialFilled, Unknown}
              case Canceled => from in {Pending, Submitted, PartialFilled, Unknown}
              case Rejected => from in {Pending, Submitted, Unknown}
              case Unknown => from in {Submitted, PartialFilled}
  {
  }

  // How a call ended; everything but Applied is an exception to the caller.
  datatype Outcome = Applied | NoSuchOrder | InvalidTransition | NotPersisted | BadQuantity | Overfill

  type Book = map<OrderId, Order>

  // ── One fill of one order ───────────────────────────────────────────────────

  function FillStatus(o: Order): Status {
    if o.filled >= o.qty then Filled else if o.filled > 0 then PartialFilled else o.status
  }

  // The quantity and the average move before the transition is checked, and a
  // refused transition does not move them back.
  function FillOrder(o: Order, qty: int, price: real): (Order, Outcome) {
    if qty <= 0 then (o, BadQuantity)
    else if o.filled + qty > o.qty then (o, Overfill)
    else
      var filled := o.filled + qty;
      var o1 := o.(filled := filled,
                   avg := if filled > 0 then WeightedAverage(o.avg, o.filled, price, qty) else o.avg);
      var status := FillStatus(o1);
      if status == o.status then (o1, Applied)
      else if Allowed(o.status, status) then (o1.(status := status), Applied)
      else (o1, InvalidTransition)
  }

  // What a fill does, by how it ends: nothing if there is no quantity or too much of it;
  // otherwise the shares are taken, and the status becomes FILLED with the last of them and
  // PARTIAL_FILLED before - unless the order is in a status that cannot, which is reported.
  lemma FillMeans(o: Order, qty: int, price: real)
    requires o.filled >= 0
    ensures var (o', outcome) := FillOrder(o, qty, price);
            var wanted := if o.filled + qty == o.qty then Filled else PartialFilled;
            var can := o.status == wanted || o.status == Submitted || o.status == Unknown
                       || (o.status == PartialFilled && wanted == Filled);
            && (outcome == BadQuantity <==> qty <= 0)
            && (outcome == Overfill <==> qty > 0 && o.filled + qty > o.qty)
            && (outcome == BadQuantity || outcome == Overfill ==> o' == o)
            && (outcome == Applied <==> 0 < qty <= o.qty - o.filled && can)
            && (outcome == InvalidTransition <==> 0 < qty <= o.qty - o.filled && !can)
            && (0 < qty <= o.qty - o.filled ==>
                  && o'.filled == o.filled + qty && o'.status == (if can then wanted else o.status)
                  && o' == o.(filled := o'.filled, avg := o'.avg, status := o'.status))
  {
  }

  // ── The table of orders ─────────────────────────────────────────────────────

  // `persisted`: whether the state-change callback returned.
  datatype Event =
    | Register(order: Order, persisted: bool)
    | Transition(id: OrderId, status: Status, persisted: bool)
    | ProcessFill(id: OrderId, qty: int, price: real, persisted: bool)
    | Submit(id: OrderId, brokerId: OrderId, persisted: bool)

  function TransitionSpec(m: Book, id: OrderId, status: Status, persisted: bool): (Book, Outcome) {
    if id !in m then (m, NoSuchOrder)
    else if !Allowed(m[id].status, status) then (m, InvalidTransition)
    else if !persisted then (m, NotPersisted)
    else (m[id := m[id].(status := status)], Applied)
  }

  function FillSpec(m: Book, id: OrderId, qty: int, price: real, persisted: bool): (Book, Outcome) {
    if id !in m then (m, NoSuchOrder)
    else
      var (o, outcome) := FillOrder(m[id], qty, price);
      (m[id := o], if outcome == Applied && !persisted then NotPersisted else outcome)
  }

  function Rekeyed(m: Book, id: OrderId, brokerId: OrderId): Book
    requires id in m
  {
    if brokerId == 0 then m
    else (m - {id})[brokerId := m[id].(id := brokerId)]
  }

  function Next(m: Book, ev: Event): (Book, Outcome) {
    match ev
    case Register(o, persisted) =>
      if persisted then (m[o.id := o], Applied) else (m - {o.id}, NotPersisted)
    case Transition(id, status, persisted) => TransitionSpec(m, id, status, persisted)
    case ProcessFill(id, qty, price, persisted) => FillSpec(m, id, qty, price, persisted)
    case Submit(id, brokerId, persisted) =>
      if id !in m then (m, NoSuchOrder)
      else TransitionSpec(Rekeyed(m, id, brokerId), if brokerId == 0 then id else brokerId, Submitted, persisted)
  }

  function Run(m: Book, evs: seq<Event>): Book
    decreases |evs|
  {
    if evs == [] then m else Run(Next(m, evs[0]).0, evs[1..])
  }

  // ── The lifecycle over every run ────────────────────────────────────────────

  predicate SoundOrder(o: Order) {
    0 <= o.filled <= o.qty
  }

  predicate Sound(m: Book) {
    forall id :: id in m ==> SoundOrder(m[id])
  }

  // Where the order known as `id` is after the event: only Submit moves it.
  function KeyAfter(id: OrderId, ev: Event): OrderId {
    if ev.Submit? && ev.id == id && ev.brokerId != 0 then ev.brokerId else id
  }

  // The event puts another order in this one's place.
  predicate Displaces(id: OrderId, ev: Event) {
    || (ev.Register? && ev.order.id == id)
    || (ev.Submit? && ev.brokerId == id && ev.id != id)
  }

  function KeyAfterRun(id: OrderId, evs: seq<Event>): OrderId
    decreases |evs|
  {
    if evs == [] then id else KeyAfterRun(KeyAfter(id, evs[0]), evs[1..])
  }

  predicate Undisplaced(id: OrderId, evs: seq<Event>)
    decreases |evs|
  {
    evs == [] || (!Displaces(id, evs[0]) && Undisplaced(KeyAfter(id, evs[0]), evs[1..]))
  }

  // Followed under its changing id, an order never loses filled shares, never
  // overfills, and once terminal keeps its status for ever.
  lemma {:induction false} Lifecycle(m: Book, id: OrderId, evs: seq<Event>)
    requires Sound(m) && id in m && Undisplaced(id, evs)
    requires forall i :: 0 <= i < |evs| && evs[i].Register? ==> SoundOrder(evs[i].order)
    ensures var m' := Run(m, evs); var id' := KeyAfterRun(id, evs);
            && Sound(m') && id' in m'
            && m[id].filled <= m'[id'].filled <= m'[id'].qty == m[id].qty
            && (Terminal(m[id].status) ==> m'[id'].status == m[id].status)
    decreases |evs|
  {
    if evs != [] {
      var m1, id1 := Next(m, evs[0]).0, KeyAfter(id, evs[0]);
      assert id1 in m1 && m[id].filled <= m1[id1].filled && m1[id1].qty == m[id].qty;
      assert Terminal(m[id].status) ==> m1[id1].status == m[id].status;
      Lifecycle(m1, id1, evs[1..]);
    }
  }

  // A status only ever changes along the table, and only by an event that was
  // persisted or by a fill; a transition that could not be persisted changes nothing.
  lemma StatusFollowsTable(m: Book, id: OrderId, ev: Event)
    requires id in m && !Displaces(id, ev)
    ensures var m' := Next(m, ev).0; var id' := KeyAfter(id, ev);
            && id' in m'
            && (m'[id'].status != m[id].status ==>
                  Allowed(m[id].status, m'[id'].status) && (ev.persisted || ev.ProcessFill?))
            && (ev.Transition? && Next(m, ev).1 != Applied ==> m' == m)
  {
  }

  // What each call does, by how it ends.
  lemma CallMeans(m: Book, ev: Event)
    ensures var (m', outcome) := Next(m, ev);
            match ev
            case Register(o, persisted) =>
              && (outcome == Applied <==> persisted) && (outcome == NotPersisted <==> !persisted)
              && (o.id in m' <==> persisted) && (persisted ==> m'[o.id] == o) && m' - {o.id} == m - {o.id}
            case Transition(id, status, persisted) =>
              && (outcome == NoSuchOrder <==> id !in m)
              && (outcome == InvalidTransition <==> id in m && !Allowed(m[id].status, status))
              && (outcome == NotPersisted <==> id in m && Allowed(m[id].status, status) && !persisted)
              && (outcome == Applied <==> id in m && Allowed(m[id].status, status) && persisted)
              && m' == if outcome == Applied then m[id := m[id].(status := status)] else m
            case ProcessFill(id, qty, price, persisted) =>
              if id !in m then outcome == NoSuchOrder && m' == m
              else
                && m'.Keys == m.Keys && m' - {id} == m - {id} && m'[id] == FillOrder(m[id], qty, price).0
                && (outcome == Applied <==> FillOrder(m[id], qty, price).1 == Applied && persisted)
                && (outcome == NotPersisted <==> FillOrder(m[id], qty, price).1 == Applied && !persisted)
                && (outcome !in {Applied, NotPersisted} ==> outcome == FillOrder(m[id], qty, price).1)
            case Submit(id, brokerId, persisted) => SubmitMeans(m, id, brokerId, persisted, m', outcome)
  {
    if ev.Submit? { SubmitRekeys(m, ev.id, ev.brokerId, ev.persisted); }
  }

  // A submitted order is under the broker's id from then on, if there is one, with that id,
  // whether or not it could become SUBMITTED - which PENDING and UNKNOWN orders can.
  predicate SubmitMeans(m: Book, id: OrderId, brokerId: OrderId, persisted: bool, m': Book, outcome: Outcome) {
    var id' := if brokerId > 0 then brokerId else id;
    if id !in m then outcome == NoSuchOrder && m' == m
    else
      && id' in m' && (id' != id ==> id !in m') && m' - {id, id'} == m - {id, id'}
      && (outcome == Applied <==> m[id].status in {Pending, Unknown} && persisted)
      && (outcome == NotPersisted <==> m[id].status in {Pending, Unknown} && !persisted)
      && (outcome == InvalidTransition <==> m[id].status !in {Pending, Unknown})
      && m'[id'] == m[id].(id := if brokerId > 0 then brokerId else m[id].id,
                           status := if outcome == Applied then Submitted else m[id].status)
  }

  lemma SubmitRekeys(m: Book, id: OrderId, brokerId: OrderId, persisted: bool)
    ensures var (m', outcome) := Next(m, Submit(id, brokerId, persisted));
            SubmitMeans(m, id, brokerId, persisted, m', outcome)
  {
    var id' := if brokerId > 0 then brokerId else id;
    var (m', outcome) := Next(m, Submit(id, brokerId, persisted));
    if id in m { assert m' - {id, id'} == m - {id, id'}; }
  }

  // ── The average price ───────────────────────────────────────────────────────

  datatype Fill = Fill(qty: int, price: real)

  // The fills of an order, refused ones leaving it as it was.
  function FillAll(o: Order, fills: seq<Fill>): Order
    decreases |fills|
  {
    if fills == [] then o
    else FillAll(FillOrder(o, fills[0].qty, fills[0].price).0, fills[1..])
  }

  // Each of the fills is taken in turn: a positive quantity that still fits.
  predicate Accepted(o: Order, fills: seq<Fill>)
    decreases |fills|
  {
    fills == [] ||
    (fills[0].qty > 0 && o.filled + fills[0].qty <= o.qty
     && Accepted(FillOrder(o, fills[0].qty, fills[0].price).0, fills[1..]))
  }

  function QuantityOf(f: Fill): int { f.qty }
  function CostOf(f: Fill): real { f.price * f.qty as real }

  function Quantity(fills: seq<Fill>): int { Total(fills, QuantityOf) }
  function Cost(fills: seq<Fill>): real { Sum(fills, CostOf) }

  function Value(o: Order): real { o.avg * o.filled as real }

  // One fill adds exactly its own cost to the order's value.
  lemma FillAddsCost(o: Order, qty: int, price: real)
    requires o.filled >= 0 && qty > 0 && o.filled + qty <= o.qty
    ensures var o' := FillOrder(o, qty, price).0;
            o'.filled == o.filled + qty && Value(o') == Value(o) + price * qty as real
  {
    var x, n := o.avg * o.filled as real + price * qty as real, (o.filled + qty) as real;
    assert FillOrder(o, qty, price).0.avg == x / n;
    assert (x / n) * n == x;
  }

  // avg_fill_price * filled_qty is the sum of price * quantity, always.
  lemma {:induction false} AverageIsCost(o: Order, fills: seq<Fill>)
    requires o.filled >= 0 && Accepted(o, fills)
    ensures var o' := FillAll(o, fills);
            && o'.filled == o.filled + Quantity(fills)
            && Value(o') == Value(o) + Cost(fills)
    decreases |fills|
  {
    if fills != [] {
      var f := fills[0];
      var o1 := FillOrder(o, f.qty, f.price).0;
      FillAddsCost(o, f.qty, f.price);
      AverageIsCost(o1, fills[1..]);
    }
  }

  // The average depends on the fills as a bag only, not on their order.
  lemma AverageIgnoresOrder(o: Order, a: seq<Fill>, b: seq<Fill>)
    requires o.filled == 0 && a != [] && multiset(a) == multiset(b) && Accepted(o, a) && Accepted(o, b)
    ensures FillAll(o, a).avg == FillAll(o, b).avg && FillAll(o, a).filled == FillAll(o, b).filled
  {
    SumPermute(a, b, CostOf);
    TotalPermute(a, b, QuantityOf);
    SameCostSameAverage(o, a, b);
  }

  // Nor on how a quantity at one price is split: only the two sums matter.
  lemma SameCostSameAverage(o: Order, a: seq<Fill>, b: seq<Fill>)
    requires o.filled == 0 && a != [] && Accepted(o, a) && Accepted(o, b)
    requires Quantity(a) == Quantity(b) && Cost(a) == Cost(b)
    ensures FillAll(o, a).avg == FillAll(o, b).avg && FillAll(o, a).filled == FillAll(o, b).filled
  {
    AverageIsCost(o, a);
    AverageIsCost(o, b);
    AcceptedPositive(o, a);
    SameValueSameAverage(FillAll(o, a), FillAll(o, b));
  }

  lemma SameValueSameAverage(a: Order, b: Order)
    requires a.filled == b.filled > 0 && Value(a) == Value(b)
    ensures a.avg == b.avg
  {
    var n := a.filled as real;
    assert (a.avg - b.avg) * n == 0.0;
  }

  lemma {:induction false} AcceptedPositive(o: Order, fills: seq<Fill>)
    requires Accepted(o, fills)
    ensures Quantity(fills) >= |fills|
    decreases |fills|
  {
    if fills != [] { AcceptedPositive(FillOrder(o, fills[0].qty, fills[0].price).0, fills[1..]); }
  }

  // ── The mutable machine ─────────────────────────────────────────────────────

  class OrderStateMachine {
    var orders: Book

    constructor ()
      ensures orders == map[]
    {
      orders := map[];
    }

    method Register(order: Order, persisted: bool) returns (outcome: Outcome)
      modifies this
      ensures (orders, outcome) == Next(old(orders), Event.Register(order, persisted))
    {
      orders := orders[order.id := order];
      if !persisted {
        orders := orders - {order.id};
        assert orders == old(orders) - {order.id};
        return NotPersisted;
      }
      outcome := Applied;
    }

    method Transition(id: OrderId, status: Status, persisted: bool) returns (outcome: Outcome)
      modifies this
      ensures (orders, outcome) == TransitionSpec(old(orders), id, status, persisted)
    {
      if id !in orders { return NoSuchOrder; }
      var previous := orders[id].status;
      if !Allowed(previous, status) { return InvalidTransition; }
      orders := orders[id := orders[id].(status := status)];
      if !persisted {
        orders := orders[id := orders[id].(status := previous)];
        assert orders == old(orders);
        return NotPersisted;
      }
      outcome := Applied;
    }

    method ProcessFill(id: OrderId, qty: int, price: real, persisted: bool) returns (outcome: Outcome)
      modifies this
      ensures (orders, outcome) == FillSpec(old(orders), id, qty, price, persisted)
    {
      if id !in orders { return NoSuchOrder; }
      var o := orders[id];
      assert orders[id := o] == orders;
      if qty <= 0 { return BadQuantity; }
      if o.filled + qty > o.qty { return Overfill; }
      o := o.(filled := o.filled + qty);
      if o.filled > 0 {
        o := o.(avg := WeightedAverage(o.avg, o.filled - qty, price, qty));
      }
      orders := orders[id := o];
      var status := FillStatus(o);
      if status != o.status {
        if !Allowed(o.status, status) { return InvalidTransition; }
        orders := orders[id := o.(status := status)];
        assert orders == old(orders)[id := o.(status := status)];
      }
      outcome := if persisted then Applied else NotPersisted;
    }

    method Submit(id: OrderId, brokerId: OrderId, persisted: bool) returns (outcome: Outcome)
      modifies this
      ensures (orders, outcome) == Next(old(orders), Event.Submit(id, brokerId, persisted))
    {
      if id !in orders { return NoSuchOrder; }
      if brokerId != 0 {
        var o := orders[id].(id := brokerId);
        orders := orders[brokerId := o];
        if id != brokerId { orders := orders - {id}; }
      }
      assert orders == Rekeyed(old(orders), id, brokerId);
      outcome := Transition(if brokerId != 0 then brokerId else id, Submitted, persisted);
    }
  }
}
