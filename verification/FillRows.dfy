// Fill rows (backend/execution/reconciliation.py, FillReconciler) and the reconciler's
// own write of an order nobody owns (backend/execution/reconciler.py,
// _sync_order_status): every filled share is recorded once.
module FillRows {
  import opened Basics
  import opened Orders
  import opened Sums

  type OrderKey = nat

  datatype DbOrder = DbOrder(status: Status, filled: int, avg: Option<real>, price: real)

  datatype Fill = Fill(order: OrderKey, qty: int, price: real)

  function QtyFor(id: OrderKey): Fill -> int { (f: Fill) => if f.order == id then f.qty else 0 }

  // SUM(Fill.qty) of one order.
  function Recorded(fills: seq<Fill>, id: OrderKey): int {
    Total(fills, QtyFor(id))
  }

  lemma RecordedAppend(fills: seq<Fill>, f: Fill)
    ensures forall id :: Recorded(fills + [f], id) == Recorded(fills, id) + if f.order == id then f.qty else 0
  {
    forall id ensures Recorded(fills + [f], id) == Recorded(fills, id) + if f.order == id then f.qty else 0 {
      TotalConcat(fills, [f], QtyFor(id));
    }
  }

  // The statuses the fill sync looks at; EXPIRED and open orders are not among them.
  predicate Covered(o: DbOrder) {
    o.filled > 0 && o.status in {PartialFilled, Filled, Canceled, Rejected}
  }

  function Target(o: DbOrder, recorded: int): int {
    if Covered(o) then Max(recorded, o.filled) else recorded
  }

  function Recordable(orders: map<OrderKey, DbOrder>, id: OrderKey, recorded: int): int {
    if id in orders then Target(orders[id], recorded) else recorded
  }

  // What one answer of the poller's resync means for the reconciler.
  datatype Ownership = NotOwned | Owned(applied: bool) | ResyncRaised

  datatype Answer = Answer(report: Report, avgKnown: bool, price: real)

  // The reconciler writes the order itself only when no live poller entry does.
  predicate WritesRow(answer: Answer, owner: Ownership) {
    || owner == NotOwned
    || (owner == Owned(true) && answer.report.status != Filled && answer.report.status != PartialFilled)
  }

  function AvgOf(answer: Answer): Option<real> { if answer.avgKnown then Some(answer.report.avg) else None }

  predicate HasFill(fills: seq<Fill>, id: OrderKey) { exists i :: 0 <= i < |fills| && fills[i].order == id }

  predicate AddsFill(o: DbOrder, fills: seq<Fill>, id: OrderKey, answer: Answer, owner: Ownership) {
    owner == NotOwned && answer.report.status == Filled && o.status != Filled && !HasFill(fills, id)
  }

  datatype Db = Db(orders: map<OrderKey, DbOrder>, fills: seq<Fill>)

  datatype Step = StatusSync(id: OrderKey, answer: Answer, owner: Ownership, dryRun: bool) | FillSync(dryRun: bool)

  // One call of SyncOrderStatus or SyncFills, as a step of a run.
  ghost predicate Took(before: Db, step: Step, after: Db) {
    match step
    case StatusSync(id, answer, owner, dryRun) =>
      if dryRun || id !in before.orders || !WritesRow(answer, owner) then after == before
      else
        && after.orders == before.orders[id := DbOrder(answer.report.status, answer.report.filled, AvgOf(answer),
                                                       before.orders[id].price)]
        && after.fills == before.fills + if AddsFill(before.orders[id], before.fills, id, answer, owner)
                                         then [FallbackFill(id, answer)] else []
    case FillSync(dryRun) =>
      && after.orders == before.orders && before.fills <= after.fills
      && (dryRun ==> after == before)
      && (!dryRun ==>
            forall id :: Recorded(after.fills, id) == Recordable(before.orders, id, Recorded(before.fills, id)))
      && (forall i :: |before.fills| <= i < |after.fills| ==> after.fills[i].qty > 0)
  }

  class FillTables {
    var orders: map<OrderKey, DbOrder>
    var fills: seq<Fill>

    constructor (orders: map<OrderKey, DbOrder>, fills: seq<Fill>)
      ensures this.orders == orders && this.fills == fills
    {
      this.orders, this.fills := orders, fills;
    }

    method ExistingFilledQty(id: OrderKey) returns (total: int)
      ensures total == Recorded(fills, id)
    {
      total := 0;
      for i := 0 to |fills|
        invariant total == Recorded(fills[..i], id)
      {
        assert fills[..i + 1] == fills[..i] + [fills[i]];
        RecordedAppend(fills[..i], fills[i]);
        if fills[i].order == id { total := total + fills[i].qty; }
      }
      assert fills[..|fills|] == fills;
    }

    // One increment per order that is short, in any order; rows are only added.
    method SyncFills(dryRun: bool) returns (repaired: set<OrderKey>)
      modifies `fills
      ensures old(fills) <= fills && (dryRun ==> fills == old(fills))
      ensures !dryRun ==> forall id :: Recorded(fills, id) == Recordable(orders, id, Recorded(old(fills), id))
      ensures forall id :: id in repaired <==>
                id in orders && Covered(orders[id]) && Recorded(old(fills), id) < orders[id].filled
      ensures forall i :: |old(fills)| <= i < |fills| ==> fills[i].qty > 0
      ensures Took(Db(old(orders), old(fills)), FillSync(dryRun), Db(orders, fills))
    {
      repaired := {};
      var todo := orders.Keys;
      while todo != {}
        invariant todo <= orders.Keys
        invariant old(fills) <= fills && (dryRun ==> fills == old(fills))
        invariant forall id :: Recorded(fills, id) ==
                    if dryRun || id in todo then Recorded(old(fills), id)
                    else Recordable(orders, id, Recorded(old(fills), id))
        invariant forall id :: id in repaired <==>
                    id in orders && id !in todo && Covered(orders[id]) && Recorded(old(fills), id) < orders[id].filled
        invariant forall i :: |old(fills)| <= i < |fills| ==> fills[i].qty > 0
        decreases |todo|
      {
        var id :| id in todo;
        todo := todo - {id};
        var short := SyncOne(id, dryRun);
        if short { repaired := repaired + {id}; }
      }
    }

    method SyncOne(id: OrderKey, dryRun: bool) returns (short: bool)
      requires id in orders
      modifies `fills
      ensures old(fills) <= fills && (dryRun ==> fills == old(fills))
      ensures short <==> Covered(orders[id]) && Recorded(old(fills), id) < orders[id].filled
      ensures !dryRun ==> Recorded(fills, id) == Recordable(orders, id, Recorded(old(fills), id))
      ensures forall other :: other != id ==> Recorded(fills, other) == Recorded(old(fills), other)
      ensures forall i :: |old(fills)| <= i < |fills| ==> fills[i].qty > 0
    {
      var o := orders[id];
      if !Covered(o) { return false; }
      var existing := ExistingFilledQty(id);
      var increment := o.filled - existing;
      if increment <= 0 { return false; }
      if !dryRun {
        var row := Fill(id, increment, if o.avg.Some? then o.avg.value else 0.0);
        RecordedAppend(fills, row);
        fills := fills + [row];
      }
      return true;
    }

    method SyncOrderStatus(id: OrderKey, answer: Answer, owner: Ownership, dryRun: bool)
      modifies this
      ensures dryRun || id !in old(orders) || !WritesRow(answer, owner) ==> orders == old(orders) && fills == old(fills)
      ensures !dryRun && id in old(orders) && WritesRow(answer, owner) ==>
                && orders == old(orders)[id := DbOrder(answer.report.status, answer.report.filled, AvgOf(answer),
                                                       old(orders)[id].price)]
                && fills == old(fills) + if AddsFill(old(orders)[id], old(fills), id, answer, owner)
                                         then [FallbackFill(id, answer)] else []
      ensures Took(Db(old(orders), old(fills)), StatusSync(id, answer, owner, dryRun), Db(orders, fills))
    {
      if dryRun || owner == ResyncRaised || owner == Owned(false) { return; }
      var status := answer.report.status;
      if owner.Owned? && (status == Filled || status == PartialFilled) { return; }
      if id !in orders { return; }
      var row := orders[id];
      orders := orders[id := DbOrder(status, answer.report.filled, AvgOf(answer), row.price)];
      if owner == NotOwned && status == Filled && row.status != Filled {
        var existing := FirstFill(id);
        if existing.None? { fills := fills + [FallbackFill(id, answer)]; }
      }
    }

    method FirstFill(id: OrderKey) returns (f: Option<Fill>)
      ensures f.Some? <==> HasFill(fills, id)
      ensures f.Some? ==> f.value in fills && f.value.order == id
    {
      for i := 0 to |fills|
        invariant forall k :: 0 <= k < i ==> fills[k].order != id
      {
        if fills[i].order == id { return Some(fills[i]); }
      }
      return None;
    }
  }

  function FallbackFill(id: OrderKey, answer: Answer): Fill {
    Fill(id, answer.report.filled,
         if answer.avgKnown && answer.report.avg != 0.0 then answer.report.avg else answer.price)
  }

  // ── Nothing is recorded twice ───────────────────────────────────────────────

  ghost predicate IsRun(dbs: seq<Db>, steps: seq<Step>) {
    |dbs| == |steps| + 1 && forall i :: 0 <= i < |steps| ==> Took(dbs[i], steps[i], dbs[i + 1])
  }

  lemma {:induction false} NoFillNoQty(fills: seq<Fill>, id: OrderKey)
    requires !HasFill(fills, id)
    ensures Recorded(fills, id) == 0
  {
    if fills != [] {
      assert fills[0].order != id;
      forall i | 0 <= i < |fills[1..]| ensures fills[1..][i].order != id { assert fills[1..][i] == fills[i + 1]; }
      NoFillNoQty(fills[1..], id);
    }
  }

  // Both totals of an order stay within a bound.
  predicate Within(db: Db, id: OrderKey, bound: int) {
    id in db.orders && db.orders[id].filled <= bound && Recorded(db.fills, id) <= bound
  }

  lemma StepWithin(before: Db, step: Step, after: Db, id: OrderKey, bound: int)
    requires Took(before, step, after) && Within(before, id, bound)
    requires step.StatusSync? && step.id == id ==> step.answer.report.filled <= bound
    ensures Within(after, id, bound)
  {
    match step
    case FillSync(_) =>
    case StatusSync(written, answer, owner, dryRun) =>
      if after.fills != before.fills {
        RecordedAppend(before.fills, FallbackFill(written, answer));
        if written == id { NoFillNoQty(before.fills, id); }
      }
  }

  // Over any run of status and fill syncs, dry or not, owned or not: what is recorded
  // for an order never exceeds the largest of what was recorded, what its row said, and
  // what the broker ever answered. So no filled quantity is recorded twice.
  lemma {:induction false} NeverRecordedTwice(dbs: seq<Db>, steps: seq<Step>, id: OrderKey, bound: int)
    requires IsRun(dbs, steps) && Within(dbs[0], id, bound)
    requires forall i :: 0 <= i < |steps| && steps[i].StatusSync? && steps[i].id == id ==>
               steps[i].answer.report.filled <= bound
    ensures Within(dbs[|steps|], id, bound)
    decreases |steps|
  {
    if steps != [] {
      var n := |steps| - 1;
      NeverRecordedTwice(dbs[..n + 1], steps[..n], id, bound);
      StepWithin(dbs[n], steps[n], dbs[n + 1], id, bound);
    }
  }

  // A fill sync, order by order, in numbers: shares are added exactly to an order with some
  // filled, closed by a fill or a cancel or a rejection, that has fewer recorded; and then
  // exactly those missing.
  lemma SyncMeans(before: Db, after: Db, dryRun: bool, id: OrderKey)
    requires Took(before, FillSync(dryRun), after)
    ensures after.orders == before.orders
    ensures var was, now := Recorded(before.fills, id), Recorded(after.fills, id);
            if !dryRun && id in before.orders && was < before.orders[id].filled && before.orders[id].filled > 0
               && (before.orders[id].status == Filled || before.orders[id].status == PartialFilled
                   || before.orders[id].status == Canceled || before.orders[id].status == Rejected)
            then now == before.orders[id].filled else now == was
  {
  }

  // A status sync in full. The row takes the broker's answer unless a live poller entry owns
  // it and it is about a fill, or what the entry did with it is not known; a fill row is added
  // exactly when nobody owns the order, it turns FILLED, and none is there - for the whole
  // filled quantity, at the average if one is known and not zero, else at the order's price.
  lemma StatusMeans(before: Db, after: Db, id: OrderKey, answer: Answer, owner: Ownership, dryRun: bool)
    requires Took(before, StatusSync(id, answer, owner, dryRun), after)
    ensures var writes := !dryRun && id in before.orders
                          && (owner == NotOwned
                              || (owner == Owned(true)
                                  && answer.report.status != Filled && answer.report.status != PartialFilled));
            var adds := writes && owner == NotOwned && answer.report.status == Filled
                        && before.orders[id].status != Filled
                        && forall i :: 0 <= i < |before.fills| ==> before.fills[i].order != id;
            && after.orders == (if writes
                                then before.orders[id := DbOrder(answer.report.status, answer.report.filled,
                                       if answer.avgKnown then Some(answer.report.avg) else None,
                                       before.orders[id].price)]
                                else before.orders)
            && (adds <==> after.fills != before.fills)
            && (adds ==> after.fills == before.fills + [Fill(id, answer.report.filled,
                           if answer.avgKnown && answer.report.avg != 0.0 then answer.report.avg else answer.price)])
  {
    assert before.fills + [] == before.fills;
  }

  // And after a fill sync everything is recorded: exactly the filled quantity, if the
  // order is covered and was not over-recorded before.
  lemma SyncRecordsAll(before: Db, after: Db, id: OrderKey)
    requires Took(before, FillSync(false), after) && id in before.orders && Covered(before.orders[id])
    ensures Recorded(after.fills, id) == Max(Recorded(before.fills, id), before.orders[id].filled)
    ensures Recorded(before.fills, id) <= before.orders[id].filled ==>
              Recorded(after.fills, id) == after.orders[id].filled
  {
  }

  // The fallback's own row and the sync after it: the shares are there once, whether
  // or not earlier partial fills were recorded.
  lemma FallbackThenSync(d0: Db, d1: Db, d2: Db, id: OrderKey, answer: Answer)
    requires id in d0.orders && answer.report.status == Filled && answer.report.filled > 0
    requires Took(d0, StatusSync(id, answer, NotOwned, false), d1) && Took(d1, FillSync(false), d2)
    ensures Recorded(d2.fills, id) == Max(Recorded(d0.fills, id), answer.report.filled)
  {
    RecordedAppend(d0.fills, FallbackFill(id, answer));
    assert WritesRow(answer, NotOwned) && Covered(d1.orders[id]);
    assert d0.fills + [] == d0.fills;
    if !HasFill(d0.fills, id) { NoFillNoQty(d0.fills, id); }
    SyncRecordsAll(d1, d2, id);
  }

  // Once is enough: repeating the sync adds no row at all.
  lemma SyncIsIdempotent(d0: Db, d1: Db, d2: Db)
    requires Took(d0, FillSync(false), d1) && Took(d1, FillSync(false), d2)
    ensures d2 == d1
  {
    forall id ensures Recorded(d2.fills, id) == Recorded(d1.fills, id) {}
    if |d2.fills| > |d1.fills| { GrownIsMore(d1.fills, d2.fills); }
    assert d2.fills == d1.fills;
  }

  lemma GrownIsMore(before: seq<Fill>, after: seq<Fill>)
    requires before <= after && |before| < |after|
    requires forall i :: |before| <= i < |after| ==> after[i].qty > 0
    ensures Recorded(after, after[|before|].order) > Recorded(before, after[|before|].order)
  {
    var n, id := |before|, after[|before|].order;
    var extra := after[n..];
    assert after == before + extra && extra[0] == after[n];
    TotalConcat(before, extra, QtyFor(id));
    forall i | 0 <= i < |extra| ensures extra[i].qty > 0 { assert extra[i] == after[n + i]; }
    PositiveTotal(extra, id);
  }

  lemma {:induction false} PositiveTotal(fills: seq<Fill>, id: OrderKey)
    requires forall i :: 0 <= i < |fills| ==> fills[i].qty > 0
    ensures Recorded(fills, id) >= 0 && (fills != [] && fills[0].order == id ==> Recorded(fills, id) > 0)
  {
    if fills != [] {
      forall i | 0 <= i < |fills[1..]| ensures fills[1..][i].qty > 0 { assert fills[1..][i] == fills[i + 1]; }
      PositiveTotal(fills[1..], id);
    }
  }
}
