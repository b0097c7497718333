// The append-only order history (backend/database/order_history.py): every flush that
// changes a tracked field of an order leaves an event in the same transaction, and
// sessions that loaded the order long ago flush, commit and abort in any order.
module OrderHistory {
  import opened Orders

  datatype Field = StatusField | FilledField | AvgField | BrokerIdField

  const TRACKED: seq<Field> := [StatusField, FilledField, AvgField, BrokerIdField]

  // The tracked columns of one order; None is NULL.
  datatype Row = Row(status: Status, filled: int, avg: Option<real>, brokerId: Option<string>)

  // What a session assigned to its object; None is "not assigned". Columns outside
  // TRACKED may be assigned as well and are not shown.
  datatype Assigned = Assigned(
    status: Option<Status>, filled: Option<int>, avg: Option<Option<real>>, brokerId: Option<Option<string>>)

  // An UPDATE names the columns whose value differs from the one the session loaded,
  // and no others.
  predicate Differs(f: Field, view: Row, a: Assigned) {
    match f
    case StatusField => a.status.Some? && a.status.value != view.status
    case FilledField => a.filled.Some? && a.filled.value != view.filled
    case AvgField => a.avg.Some? && a.avg.value != view.avg
    case BrokerIdField => a.brokerId.Some? && a.brokerId.value != view.brokerId
  }

  predicate AnyDiffers(view: Row, a: Assigned) {
    exists f :: Differs(f, view, a)
  }

  // The UPDATE lands on the row as it is now, on top of what others committed.
  function Write(row: Row, view: Row, a: Assigned): Row {
    Row(if Differs(StatusField, view, a) then a.status.value else row.status,
        if Differs(FilledField, view, a) then a.filled.value else row.filled,
        if Differs(AvgField, view, a) then a.avg.value else row.avg,
        if Differs(BrokerIdField, view, a) then a.brokerId.value else row.brokerId)
  }

  lemma UnchangedWritesNothing(row: Row, view: Row, a: Assigned)
    ensures !AnyDiffers(view, a) ==> Write(row, view, a) == row
    ensures Write(view, view, a) == view <==> !AnyDiffers(view, a)
  {
    if AnyDiffers(view, a) {
      var f :| Differs(f, view, a);
    }
  }

  // `_changed`: whether a tracked column changed, and the status before - as this
  // session knew it.
  method Changed(view: Row, a: Assigned) returns (changed: bool, before: Status)
    ensures changed <==> AnyDiffers(view, a)
    ensures before == view.status
  {
    changed := false;
    before := view.status;
    for i := 0 to |TRACKED|
      invariant changed <==> exists k :: 0 <= k < i && Differs(TRACKED[k], view, a)
      invariant before == view.status
    {
      if Differs(TRACKED[i], view, a) { changed := true; }
      if TRACKED[i] == StatusField && Differs(TRACKED[i], view, a) { before := view.status; }
    }
    if AnyDiffers(view, a) {
      var f :| Differs(f, view, a);
      assert TRACKED[0] == StatusField && TRACKED[1] == FilledField;
      assert TRACKED[2] == AvgField && TRACKED[3] == BrokerIdField;
      assert exists k :: 0 <= k < |TRACKED| && TRACKED[k] == f;
    }
  }

  type OrderKey = nat

  datatype Event = Event(id: nat, order: OrderKey, created: bool, from: Option<Status>, to: Row)

  datatype Dirty = Dirty(order: OrderKey, view: Row, writes: Assigned)

  // The events of one flush, in order: the new orders, then the changed ones, each
  // with the values of the row the flush just wrote. Ids come from a counter.
  function NewEvents(news: seq<OrderKey>, table: map<OrderKey, Row>, next: nat): seq<Event>
    requires forall o :: o in news ==> o in table
  {
    if news == [] then []
    else NewEvents(news[..|news| - 1], table, next)
         + [Event(next + |news| - 1, news[|news| - 1], true, None, table[news[|news| - 1]])]
  }

  function ChangeEvents(dirty: seq<Dirty>, table: map<OrderKey, Row>, next: nat): seq<Event>
    requires forall d :: d in dirty ==> d.order in table
  {
    if dirty == [] then []
    else
      var d, before := dirty[|dirty| - 1], ChangeEvents(dirty[..|dirty| - 1], table, next);
      if AnyDiffers(d.view, d.writes)
      then before + [Event(next + |before|, d.order, false, Some(d.view.status), table[d.order])]
      else before
  }

  lemma OneEvent(order: OrderKey, d: Dirty, row: Row, next: nat)
    ensures NewEvents([order], map[order := row], next) == [Event(next, order, true, None, row)]
    ensures ChangeEvents([d], map[d.order := row], next) ==
              if AnyDiffers(d.view, d.writes) then [Event(next, d.order, false, Some(d.view.status), row)] else []
  {
    assert [order][..|[order]| - 1] == [];
    assert [d][..|[d]| - 1] == [];
  }

  method Record(news: seq<OrderKey>, dirty: seq<Dirty>, table: map<OrderKey, Row>, next: nat)
    returns (events: seq<Event>)
    requires forall o :: o in news ==> o in table
    requires forall d :: d in dirty ==> d.order in table
    ensures events == NewEvents(news, table, next) + ChangeEvents(dirty, table, next + |news|)
  {
    events := [];
    for i := 0 to |news|
      invariant |events| == i && events == NewEvents(news[..i], table, next)
    {
      assert news[..i + 1][..i] == news[..i];
      events := events + [Event(next + |events|, news[i], true, None, table[news[i]])];
    }
    assert news[..|news|] == news;
    ghost var created := events;
    for i := 0 to |dirty|
      invariant events == created + ChangeEvents(dirty[..i], table, next + |news|)
    {
      assert dirty[..i + 1][..i] == dirty[..i];
      var changed, before := Changed(dirty[i].view, dirty[i].writes);
      if changed {
        events := events + [Event(next + |events|, dirty[i].order, false, Some(before), table[dirty[i].order])];
      }
    }
    assert dirty[..|dirty|] == dirty;
  }

  // `_guard`: a flush that would change or delete an event is refused.
  datatype Object = OrderObject | EventObject(modified: bool)

  method Guard(deleted: seq<Object>, dirty: seq<Object>) returns (refused: bool)
    ensures refused <==> (exists o :: o in deleted && o.EventObject?) || EventObject(true) in dirty
  {
    for i := 0 to |deleted|
      invariant forall k :: 0 <= k < i ==> !deleted[k].EventObject?
    {
      if deleted[i].EventObject? { return true; }
    }
    for i := 0 to |dirty|
      invariant forall k :: 0 <= k < i ==> dirty[k] != EventObject(true)
    {
      if dirty[i] == EventObject(true) { return true; }
    }
    return false;
  }

  // ── Sessions that interleave ────────────────────────────────────────────────

  type Session = nat

  // One order: what is committed, and what the session holding its row lock has
  // flushed since. An order that only its creator can see has no committed row.
  datatype Cell = Cell(
    row: Option<Row>, log: seq<Event>, holder: Option<Session>, working: Row, pending: seq<Event>)

  datatype Db = Db(cells: map<OrderKey, Cell>, nextEvent: nat)

  const EMPTY := Db(map[], 0)

  datatype Step =
    | Insert(s: Session, order: OrderKey, row: Row)
    | Flush(s: Session, order: OrderKey, view: Row, writes: Assigned, refused: bool)
    | Commit(s: Session)
    | Abort(s: Session)

  // The row lock: a flush waits until no other transaction holds the row. Nobody but
  // its creator sees an uncommitted order. Whatever `view` the session loaded, and
  // however stale, is allowed.
  predicate Enabled(db: Db, step: Step) {
    match step
    case Insert(_, order, _) => order !in db.cells
    case Flush(s, order, _, _, _) =>
      order in db.cells && (db.cells[order].holder == Some(s)
                            || (db.cells[order].holder == None && db.cells[order].row.Some?))
    case Commit(_) | Abort(_) => true
  }

  function Visible(c: Cell): Row
    requires c.holder.Some? || c.row.Some?
  {
    if c.holder.Some? then c.working else c.row.value
  }

  function Flushed(c: Cell, s: Session, d: Dirty, next: nat): Cell
    requires c.holder.Some? || c.row.Some?
  {
    var row := Write(Visible(c), d.view, d.writes);
    c.(holder := Some(s), working := row,
       pending := c.pending + ChangeEvents([d], map[d.order := row], next))
  }

  function Published(c: Cell, s: Session): Cell {
    if c.holder != Some(s) then c
    else c.(row := Some(c.working), log := c.log + c.pending, holder := None, pending := [])
  }

  function RolledBack(c: Cell, s: Session): Cell {
    if c.holder != Some(s) then c else c.(holder := None, pending := [])
  }

  function Next(db: Db, step: Step): Db
    requires Enabled(db, step)
  {
    match step
    case Insert(s, order, row) =>
      Db(db.cells[order := Cell(None, [], Some(s), row, NewEvents([order], map[order := row], db.nextEvent))],
         db.nextEvent + 1)
    case Flush(s, order, view, writes, refused) =>
      if refused then db
      else
        var d := Dirty(order, view, writes);
        Db(db.cells[order := Flushed(db.cells[order], s, d, db.nextEvent)],
           db.nextEvent + if AnyDiffers(view, writes) then 1 else 0)
    case Commit(s) => db.(cells := map o | o in db.cells :: Published(db.cells[o], s))
    case Abort(s) => db.(cells := map o | o in db.cells :: RolledBack(db.cells[o], s))
  }

  ghost predicate CanRun(db: Db, steps: seq<Step>)
    decreases |steps|
  {
    steps == [] || (Enabled(db, steps[0]) && CanRun(Next(db, steps[0]), steps[1..]))
  }

  ghost function Run(db: Db, steps: seq<Step>): Db
    requires CanRun(db, steps)
    decreases |steps|
  {
    if steps == [] then db else Run(Next(db, steps[0]), steps[1..])
  }

  // The event of an order with the highest id.
  function Latest(log: seq<Event>): (e: Event)
    requires log != []
    ensures e in log && forall other :: other in log ==> other.id <= e.id
  {
    if |log| == 1 then log[0]
    else
      var e := Latest(log[..|log| - 1]);
      assert log == log[..|log| - 1] + [log[|log| - 1]];
      if log[|log| - 1].id >= e.id then log[|log| - 1] else e
  }

  // ── The log agrees with the rows ────────────────────────────────────────────

  predicate Increasing(events: seq<Event>, order: OrderKey, next: nat) {
    && (forall i :: 0 <= i < |events| ==> events[i].id < next && events[i].order == order)
    && (forall i, j :: 0 <= i < j < |events| ==> events[i].id < events[j].id)
  }

  predicate EndsIn(events: seq<Event>, row: Row) {
    events != [] && events[|events| - 1].to == row
  }

  ghost predicate CellInv(c: Cell, order: OrderKey, next: nat) {
    && Increasing(c.log + c.pending, order, next)
    && (c.row.Some? ==> EndsIn(c.log, c.row.value))
    && (c.row.None? ==> c.log == [])
    && (c.holder.Some? ==> EndsIn(c.log + c.pending, c.working))
    && (c.holder.None? ==> c.pending == [])
  }

  ghost predicate Inv(db: Db) {
    forall o :: o in db.cells ==> CellInv(db.cells[o], o, db.nextEvent)
  }

  lemma OneMore(events: seq<Event>, order: OrderKey, e: Event)
    requires Increasing(events, order, e.id) && e.order == order
    ensures Increasing(events + [e], order, e.id + 1) && EndsIn(events + [e], e.to)
  {
  }

  lemma FlushInv(c: Cell, s: Session, d: Dirty, next: nat)
    requires CellInv(c, d.order, next) && (c.holder.Some? || c.row.Some?)
    ensures CellInv(Flushed(c, s, d, next), d.order, next + if AnyDiffers(d.view, d.writes) then 1 else 0)
  {
    var row := Write(Visible(c), d.view, d.writes);
    var c' := Flushed(c, s, d, next);
    OneEvent(d.order, d, row, next);
    assert c.holder.None? ==> c.log + c.pending == c.log;
    if AnyDiffers(d.view, d.writes) {
      var e := Event(next, d.order, false, Some(d.view.status), row);
      OneMore(c.log + c.pending, d.order, e);
      assert c'.log + c'.pending == (c.log + c.pending) + [e];
    } else {
      UnchangedWritesNothing(Visible(c), d.view, d.writes);
      assert c'.log + c'.pending == c.log + c.pending;
    }
  }

  lemma EndInv(c: Cell, order: OrderKey, s: Session, next: nat)
    requires CellInv(c, order, next)
    ensures CellInv(Published(c, s), order, next)
    ensures CellInv(RolledBack(c, s), order, next)
  {
    assert (c.log + c.pending) + [] == c.log + c.pending;
    assert c.log + [] == c.log;
    var n := |c.log|;
    assert forall i :: 0 <= i < n ==> c.log[i] == (c.log + c.pending)[i];
  }

  lemma InsertInv(order: OrderKey, s: Session, row: Row, next: nat)
    ensures CellInv(Cell(None, [], Some(s), row, NewEvents([order], map[order := row], next)), order, next + 1)
  {
    OneEvent(order, Dirty(order, row, Assigned(None, None, None, None)), row, next);
    var e := [Event(next, order, true, None, row)];
    assert [] + e == e;
  }

  lemma NextInv(db: Db, step: Step)
    requires Inv(db) && Enabled(db, step)
    ensures Inv(Next(db, step))
  {
    var db' := Next(db, step);
    forall o | o in db'.cells ensures CellInv(db'.cells[o], o, db'.nextEvent) {
      match step
      case Insert(s, order, row) =>
        if o == order { InsertInv(order, s, row, db.nextEvent); } else { assert CellInv(db.cells[o], o, db.nextEvent); }
      case Flush(s, order, view, writes, refused) =>
        if o == order && !refused { FlushInv(db.cells[o], s, Dirty(order, view, writes), db.nextEvent); }
      case Commit(s) => EndInv(db.cells[o], o, s, db.nextEvent);
      case Abort(s) => EndInv(db.cells[o], o, s, db.nextEvent);
    }
  }

  lemma {:induction false} RunInv(db: Db, steps: seq<Step>)
    requires Inv(db) && CanRun(db, steps)
    ensures Inv(Run(db, steps))
    decreases |steps|
  {
    if steps != [] {
      NextInv(db, steps[0]);
      RunInv(Next(db, steps[0]), steps[1..]);
    }
  }

  // Whatever sessions flushed, committed and aborted, and however stale what they had
  // loaded: the event with the highest id holds the committed row's tracked values,
  // and events belong to the order they are filed under, each id once.
  lemma HistoryAgrees(steps: seq<Step>, order: OrderKey)
    requires CanRun(EMPTY, steps) && order in Run(EMPTY, steps).cells
    ensures var c := Run(EMPTY, steps).cells[order];
            && (c.row.Some? <==> c.log != [])
            && (c.row.Some? ==> Latest(c.log).to == c.row.value)
            && Increasing(c.log, order, Run(EMPTY, steps).nextEvent)
  {
    RunInv(EMPTY, steps);
    var db := Run(EMPTY, steps);
    var c := db.cells[order];
    assert CellInv(c, order, db.nextEvent);
    assert forall i :: 0 <= i < |c.log| ==> c.log[i] == (c.log + c.pending)[i];
    if c.row.Some? { CommittedAgrees(db, order); }
  }

  lemma LatestIsLast(log: seq<Event>, order: OrderKey, next: nat)
    requires log != [] && Increasing(log, order, next)
    ensures Latest(log) == log[|log| - 1]
  {
    var k :| 0 <= k < |log| && log[k] == Latest(log);
    assert log[|log| - 1] in log;
    assert k < |log| - 1 ==> log[k].id < log[|log| - 1].id;
  }

  // The committed log only grows, a committed order never disappears, and a commit
  // that changes an order's row adds an event to its log.
  lemma LogGrows(db: Db, step: Step, order: OrderKey)
    requires Inv(db) && Enabled(db, step) && order in db.cells
    ensures order in Next(db, step).cells
    ensures db.cells[order].log <= Next(db, step).cells[order].log
    ensures Next(db, step).cells[order].row != db.cells[order].row ==>
              step.Commit? && db.cells[order].holder == Some(step.s)
              && |db.cells[order].log| < |Next(db, step).cells[order].log|
  {
    var c := db.cells[order];
    assert CellInv(c, order, db.nextEvent);
    if step.Commit? && c.holder == Some(step.s) && c.pending == [] {
      assert c.log + c.pending == c.log;
    }
  }

  lemma {:induction false} LogGrowsOverRuns(db: Db, steps: seq<Step>, order: OrderKey)
    requires Inv(db) && CanRun(db, steps) && order in db.cells
    ensures order in Run(db, steps).cells && db.cells[order].log <= Run(db, steps).cells[order].log
    decreases |steps|
  {
    if steps != [] {
      NextInv(db, steps[0]);
      LogGrows(db, steps[0], order);
      LogGrowsOverRuns(Next(db, steps[0]), steps[1..], order);
    }
  }

  // One session's flush and commit, nobody else in between.
  function Saved(db: Db, s: Session, order: OrderKey, view: Row, a: Assigned): (r: Db)
    requires order in db.cells && db.cells[order].row.Some? && db.cells[order].holder.None?
    ensures order in r.cells && r.cells[order].holder.None?
    ensures r.cells[order].row == Some(Write(db.cells[order].row.value, view, a))
  {
    Next(Next(db, Flush(s, order, view, a, false)), Commit(s))
  }

  lemma SavedInv(db: Db, s: Session, order: OrderKey, view: Row, a: Assigned)
    requires Inv(db) && order in db.cells && db.cells[order].row.Some? && db.cells[order].holder.None?
    ensures Inv(Saved(db, s, order, view, a))
  {
    NextInv(db, Flush(s, order, view, a, false));
    NextInv(Next(db, Flush(s, order, view, a, false)), Commit(s));
  }

  // Why events are read back from the row: a session that loaded the order before
  // another changed its fill, and then only moves the status, records the other
  // session's fill - not the one in its own object.
  lemma StaleViewStillAgrees(db: Db, order: OrderKey, s1: Session, fill: int, s2: Session, status: Status)
    requires Inv(db) && order in db.cells && db.cells[order].row.Some? && db.cells[order].holder.None?
    requires fill != db.cells[order].row.value.filled && status != db.cells[order].row.value.status
    ensures var row := db.cells[order].row.value;
            var first := Saved(db, s1, order, row, Assigned(None, Some(fill), None, None));
            var second := Saved(first, s2, order, row, Assigned(Some(status), None, None, None));
            && second.cells[order].row == Some(row.(filled := fill, status := status))
            && second.cells[order].log != []
            && Latest(second.cells[order].log).to == row.(filled := fill, status := status)
  {
    var row := db.cells[order].row.value;
    var a1, a2 := Assigned(None, Some(fill), None, None), Assigned(Some(status), None, None, None);
    var first := Saved(db, s1, order, row, a1);
    SavedInv(db, s1, order, row, a1);
    SavedInv(first, s2, order, row, a2);
    CommittedAgrees(Saved(first, s2, order, row, a2), order);
  }

  lemma CommittedAgrees(db: Db, order: OrderKey)
    requires Inv(db) && order in db.cells && db.cells[order].row.Some?
    ensures db.cells[order].log != [] && Latest(db.cells[order].log).to == db.cells[order].row.value
  {
    var c := db.cells[order];
    assert forall i :: 0 <= i < |c.log| ==> c.log[i] == (c.log + c.pending)[i];
    assert CellInv(c, order, db.nextEvent);
    assert Increasing(c.log, order, db.nextEvent);
    LatestIsLast(c.log, order, db.nextEvent);
  }
}
