// The sweep that resolves Quick Trade orders left RESERVED by an indeterminate
// submission (api/services/quick_trade_recovery.py). Eligible orders are taken
// least recently attempted first; an inconclusive one is stamped, which moves it
// to the back of that order and is what keeps it from starving the others.
module RecoverySweep {
  import opened Basics
  import opened Orders
  import opened QuickTradeStatus
  import R = Reservation

  datatype Reason = InquiryError | Ambiguous | ClientError | ReconcileError | InquiryTimeout

  // The error column: a stamp of this sweep (checked to the second), or any other text.
  datatype Note =
    | NoNote
    | Stamp(reason: Reason, ageMinutes: int, checked: int, escalated: bool)
    | OtherText(text: string)

  type RowId = nat

  datatype Row = Row(
    side: Side, qty: int, status: QtStatus, brokerId: Option<nat>,
    error: Note, createdAt: int, updatedAt: Option<int>)

  type Rows = map<RowId, Row>

  // ── The broker's view of one reservation ────────────────────────────────────

  datatype BrokerRow = Malformed | Listed(side: Side, qty: int, odno: Option<nat>)

  datatype Inquiry = NoClient | TimedOut | Failed | Answered(rows: seq<BrokerRow>)

  datatype Outcome = Match(odno: nat) | Absent | Skip(reason: Reason)

  predicate Candidate(b: BrokerRow, row: Row) {
    b.Listed? && b.side == row.side && b.qty == row.qty && b.odno.Some?
  }

  // Same side, same quantity, and a number: the order numbers that could be this one's.
  function Candidates(listed: seq<BrokerRow>, row: Row): (c: seq<nat>)
    ensures c == [] <==> forall i :: 0 <= i < |listed| ==> !Candidate(listed[i], row)
  {
    if listed == [] then []
    else (if Candidate(listed[0], row) then [listed[0].odno.value] else []) + Candidates(listed[1..], row)
  }

  function Classify(row: Row, inquiry: Inquiry): Outcome {
    match inquiry
    case NoClient => Skip(ClientError)
    case TimedOut => Skip(InquiryTimeout)
    case Failed => Skip(InquiryError)
    case Answered(listed) =>
      var c := Candidates(listed, row);
      if |c| == 1 then Match(c[0]) else if c == [] then Absent else Skip(Ambiguous)
  }

  // ── One order ───────────────────────────────────────────────────────────────

  // What the outside does while one claimed order is handled. `gone`: another worker
  // holds the row, or it is no longer RESERVED. `at`: when the row is written.
  datatype Visit = Visit(gone: bool, inquiry: Inquiry, resolveOk: bool, notifyOk: bool, stampOk: bool, at: int)

  function Age(row: Row, now: int): int {
    if now > row.createdAt then now - row.createdAt else 0
  }

  predicate Escalated(row: Row) { row.error.Stamp? && row.error.escalated }

  // A write that changes nothing is not sent, and then updated_at stays.
  function Stamped(row: Row, reason: Reason, now: int, escalated: bool, at: int): Row {
    var error := Stamp(reason, Age(row, now) / 60, now, escalated || Escalated(row));
    if error == row.error then row else row.(error := error, updatedAt := Some(at))
  }

  function Cleared(row: Row): Row { if row.error.Stamp? then row.(error := NoNote) else row }

  function Resolved(row: Row, outcome: Outcome, at: int): Row
    requires !outcome.Skip?
  {
    var r := Cleared(row);
    if outcome.Match? then r.(status := QtSubmitted, brokerId := Some(outcome.odno), updatedAt := Some(at))
    else r.(status := QtFailed, updatedAt := Some(at),
            error := if r.error == NoNote then OtherText("reconcile: broker has no matching order") else r.error)
  }

  // How the order was counted, and whether a notification was committed with it.
  datatype Effect = Effect(row: Row, tally: Tally, raised: bool, notified: bool)
  datatype Tally = Adopted | FoundAbsent | Skipped(reason: Reason)

  function Process(row: Row, v: Visit, now: int, escalateAfter: int): Effect {
    var outcome := Classify(row, v.inquiry);
    if outcome.Skip? then
      var raised := Age(row, now) >= escalateAfter && !Escalated(row) && v.notifyOk;
      Effect(if v.stampOk then Stamped(row, outcome.reason, now, raised, v.at) else row,
             Skipped(outcome.reason), raised, raised && v.stampOk)
    else if v.resolveOk then
      Effect(Resolved(row, outcome, v.at), if outcome.Match? then Adopted else FoundAbsent, false, false)
    else
      Effect(if v.stampOk then Stamped(row, ReconcileError, now, false, v.at) else row,
             Skipped(ReconcileError), false, false)
  }

  // The broker's row may be the order's.
  predicate Fits(b: BrokerRow, row: Row) { b.Listed? && b == Listed(row.side, row.qty, b.odno) && b.odno != None }

  // One listed row may be the order's, and it has number n.
  ghost predicate OnlyFit(listed: seq<BrokerRow>, row: Row, n: nat) {
    exists i :: 0 <= i < |listed| && listed[i] == Listed(row.side, row.qty, Some(n))
                && forall j :: 0 <= j < |listed| && j != i ==> !Fits(listed[j], row)
  }

  lemma {:induction false} NoFit(listed: seq<BrokerRow>, row: Row)
    ensures Candidates(listed, row) == [] <==> forall i :: 0 <= i < |listed| ==> !Fits(listed[i], row)
  {
    if listed != [] {
      NoFit(listed[1..], row);
      assert forall i :: 1 <= i < |listed| ==> listed[i] == listed[1..][i - 1];
      if forall i :: 0 <= i < |listed[1..]| ==> !Fits(listed[1..][i], row) {
        assert forall i :: 1 <= i < |listed| ==> !Fits(listed[i], row);
      } else {
        var i :| 0 <= i < |listed[1..]| && Fits(listed[1..][i], row);
        assert Fits(listed[i + 1], row);
      }
    }
  }

  lemma {:induction false} OneFit(listed: seq<BrokerRow>, row: Row)
    ensures |Candidates(listed, row)| == 1 ==> OnlyFit(listed, row, Candidates(listed, row)[0])
    ensures forall n: nat :: OnlyFit(listed, row, n) ==> Candidates(listed, row) == [n]
  {
    if listed != [] {
      var rest := listed[1..];
      NoFit(rest, row);
      OneFit(rest, row);
      assert forall i :: 1 <= i < |listed| ==> listed[i] == rest[i - 1];
      if |Candidates(listed, row)| == 1 { OneFitFirst(listed, row); }
      forall n: nat | OnlyFit(listed, row, n) ensures Candidates(listed, row) == [n] { OneFitRest(listed, row, n); }
    }
  }

  lemma OneFitFirst(listed: seq<BrokerRow>, row: Row)
    requires listed != [] && |Candidates(listed, row)| == 1
    requires |Candidates(listed[1..], row)| == 1 ==> OnlyFit(listed[1..], row, Candidates(listed[1..], row)[0])
    ensures OnlyFit(listed, row, Candidates(listed, row)[0])
  {
    var rest, n := listed[1..], Candidates(listed, row)[0];
    NoFit(rest, row);
    if Candidate(listed[0], row) {
      assert listed[0] == Listed(row.side, row.qty, Some(n));
      forall j | 0 <= j < |listed| && j != 0 ensures !Fits(listed[j], row) { assert listed[j] == rest[j - 1]; }
    } else {
      var i :| 0 <= i < |rest| && rest[i] == Listed(row.side, row.qty, Some(n))
               && forall j :: 0 <= j < |rest| && j != i ==> !Fits(rest[j], row);
      assert listed[i + 1] == rest[i];
      forall j | 0 <= j < |listed| && j != i + 1 ensures !Fits(listed[j], row) {
        if j > 0 { assert listed[j] == rest[j - 1]; }
      }
    }
  }

  lemma OneFitRest(listed: seq<BrokerRow>, row: Row, n: nat)
    requires listed != [] && OnlyFit(listed, row, n)
    requires OnlyFit(listed[1..], row, n) ==> Candidates(listed[1..], row) == [n]
    ensures Candidates(listed, row) == [n]
  {
    var rest := listed[1..];
    NoFit(rest, row);
    var i :| 0 <= i < |listed| && listed[i] == Listed(row.side, row.qty, Some(n))
             && forall j :: 0 <= j < |listed| && j != i ==> !Fits(listed[j], row);
    forall j | 0 <= j < |rest| && j != i - 1 ensures !Fits(rest[j], row) { assert rest[j] == listed[j + 1]; }
    if i > 0 {
      assert rest[i - 1] == listed[i] && !Fits(listed[0], row);
      assert OnlyFit(rest, row, n);
    }
  }

  // A reservation is only ever resolved on conclusive evidence: adopted exactly when
  // the broker lists one row that may be its, whose number it takes, failed exactly when
  // it lists none, and otherwise left RESERVED.
  lemma ConclusiveOnly(row: Row, v: Visit, now: int, escalateAfter: int)
    requires row.status == QtReserved
    ensures var r := Process(row, v, now, escalateAfter).row;
            && (r.status == QtSubmitted <==>
                  v.resolveOk && v.inquiry.Answered? && exists n: nat :: OnlyFit(v.inquiry.rows, row, n))
            && (r.status == QtSubmitted ==> r.brokerId.Some? && OnlyFit(v.inquiry.rows, row, r.brokerId.value))
            && (r.status == QtFailed <==>
                  v.resolveOk && v.inquiry.Answered? &&
                  forall i :: 0 <= i < |v.inquiry.rows| ==> !Fits(v.inquiry.rows[i], row))
            && (r.status in {QtReserved, QtSubmitted, QtFailed})
            && (r.status != QtReserved ==> !r.error.Stamp?)
  {
    if v.inquiry.Answered? {
      NoFit(v.inquiry.rows, row);
      OneFit(v.inquiry.rows, row);
    }
  }

  // Seconds waited, none if the clock went back.
  function Waited(row: Row, now: int): int { if now - row.createdAt >= 0 then now - row.createdAt else 0 }

  // Why an order was left waiting.
  function ReasonOf(row: Row, inquiry: Inquiry): Reason {
    match inquiry
    case TimedOut => InquiryTimeout
    case Failed => InquiryError
    case NoClient => ClientError
    case Answered(listed) => if |Candidates(listed, row)| >= 2 then Ambiguous else ReconcileError
  }

  // One visit, by what it leaves. A resolved row has its time of writing, an adopted one the
  // number, a failed one a reason in words. One left waiting is as it was, or has a stamp: the
  // reason, the whole minutes waited, the time of the sweep, and the mark if it has been
  // escalated before or now. The order is counted by what became of it.
  lemma VisitMeans(row: Row, v: Visit, now: int, escalateAfter: int)
    requires row.status == QtReserved
    ensures var e := Process(row, v, now, escalateAfter); var r := e.row;
            && (r.side, r.qty, r.createdAt) == (row.side, row.qty, row.createdAt)
            && (e.tally == Adopted <==> r.status == QtSubmitted)
            && (e.tally == FoundAbsent <==> r.status == QtFailed)
            && (r.status == QtReserved ==> e.tally == Skipped(ReasonOf(row, v.inquiry)))
            && (r.status != QtReserved ==> r.updatedAt == Some(v.at) && !e.raised && !e.notified)
            && (r.status == QtSubmitted ==> r.error == if row.error.Stamp? then NoNote else row.error)
            && (r.status == QtFailed ==> r.brokerId == row.brokerId && !r.error.Stamp? && !r.error.NoNote?
                                         && (row.error.OtherText? ==> r.error == row.error))
            && (r.status == QtReserved && !v.stampOk ==> r == row)
            && (r.status == QtReserved && v.stampOk ==>
                  && r.brokerId == row.brokerId
                  && r.error.Stamp? && r.error.reason == ReasonOf(row, v.inquiry) && r.error.checked == now
                  && 60 * r.error.ageMinutes <= Waited(row, now) < 60 * r.error.ageMinutes + 60
                  && (r.error.escalated <==> e.raised || (row.error.Stamp? && row.error.escalated))
                  && r.updatedAt == if r.error == row.error then row.updatedAt else Some(v.at))
            && (e.raised <==>
                  && (v.inquiry.Answered? ==> |Candidates(v.inquiry.rows, row)| >= 2)
                  && Waited(row, now) >= escalateAfter && !(row.error.Stamp? && row.error.escalated) && v.notifyOk)
            && e.notified == (e.raised && v.stampOk)
  {
  }

  // ── One sweep ───────────────────────────────────────────────────────────────

  datatype Store = Store(rows: Rows, notified: seq<RowId>)

  function ProcessIn(s: Store, id: RowId, v: Visit, now: int, escalateAfter: int): Store {
    if id !in s.rows || s.rows[id].status != QtReserved || v.gone then s
    else
      var e := Process(s.rows[id], v, now, escalateAfter);
      Store(s.rows[id := e.row], if e.notified then s.notified + [id] else s.notified)
  }

  function SweepAll(s: Store, ids: seq<RowId>, env: RowId -> Visit, now: int, escalateAfter: int): Store {
    if ids == [] then s
    else
      var last := ids[|ids| - 1];
      ProcessIn(SweepAll(s, ids[..|ids| - 1], env, now, escalateAfter), last, env(last), now, escalateAfter)
  }

  // Least recently attempted first, then by id.
  function KeyTime(row: Row): int {
    if row.updatedAt.Some? then row.updatedAt.value else row.createdAt
  }

  predicate Ahead(rows: Rows, a: RowId, b: RowId)
    requires a in rows && b in rows
  {
    KeyTime(rows[a]) < KeyTime(rows[b]) || (KeyTime(rows[a]) == KeyTime(rows[b]) && a < b)
  }

  predicate Eligible(rows: Rows, cutoff: int, id: RowId) {
    id in rows && rows[id].status == QtReserved && rows[id].createdAt <= cutoff
  }

  function Backlog(rows: Rows, cutoff: int): set<RowId> {
    set id | id in rows && Eligible(rows, cutoff, id)
  }

  // The window a sweep claims: eligible rows, none left out that is ahead of one in
  // it, and full unless it holds every eligible row.
  ghost predicate Claims(rows: Rows, cutoff: int, limit: nat, ids: seq<RowId>) {
    && Distinct(ids) && |ids| <= limit
    && (forall id :: id in ids ==> Eligible(rows, cutoff, id))
    && (forall id, other :: id in ids && Eligible(rows, cutoff, other) && other !in ids ==> Ahead(rows, id, other))
    && (|ids| < limit ==> forall id :: Eligible(rows, cutoff, id) ==> id in ids)
  }

  // ── Fairness ────────────────────────────────────────────────────────────────

  // The RESERVED orders ahead of one in the queue.
  function Queue(rows: Rows, target: RowId): set<RowId>
    requires target in rows
  {
    set id | id in rows && rows[id].status == QtReserved && Ahead(rows, id, target)
  }

  // Nothing in the table is from the future.
  predicate Timely(rows: Rows, clock: int) {
    forall id :: id in rows && rows[id].status == QtReserved ==>
      && KeyTime(rows[id]) <= clock
      && (rows[id].error.Stamp? ==> rows[id].error.checked <= clock)
  }

  // The visit ends with the row resolved, or its stamp committed.
  predicate Moves(v: Visit, row: Row) {
    !v.gone && (v.stampOk || (v.resolveOk && !Classify(row, v.inquiry).Skip?))
  }

  lemma {:induction false} SweepRowByRow(s: Store, ids: seq<RowId>, env: RowId -> Visit, now: int, escalateAfter: int)
    requires Distinct(ids)
    ensures var rows := SweepAll(s, ids, env, now, escalateAfter).rows;
            && rows.Keys == s.rows.Keys
            && forall id :: id in s.rows ==>
                 rows[id] == if id in ids && s.rows[id].status == QtReserved && !env(id).gone
                             then Process(s.rows[id], env(id), now, escalateAfter).row else s.rows[id]
  {
    if ids != [] {
      var n := |ids| - 1;
      SweepRowByRow(s, ids[..n], env, now, escalateAfter);
      assert ids[n] !in ids[..n];
      assert ids == ids[..n] + [ids[n]];
    }
  }

  // RESERVED for at least the grace period: its submission is not in flight any more.
  predicate Overdue(row: Row, now: int, grace: int) { row.status == QtReserved && row.createdAt + grace <= now }

  function OverdueIn(rows: Rows, now: int, grace: int): set<RowId> {
    set id | id in rows && Overdue(rows[id], now, grace)
  }

  // The window is of overdue rows, and full, of rows ahead, if one is left out.
  ghost predicate WindowOf(rows: Rows, ids: seq<RowId>, now: int, grace: int, limit: nat) {
    && (forall id :: id in ids ==> id in rows && Overdue(rows[id], now, grace))
    && (forall id :: id in rows && Overdue(rows[id], now, grace) && id !in ids ==>
          |ids| == limit && forall k :: k in ids ==> k in rows && Earlier(rows[k], k, rows[id], id))
  }

  // Last written, or else created, before the other; at the same time, by id.
  predicate Earlier(row: Row, id: RowId, other: Row, otherId: RowId) {
    var at := if row.updatedAt == None then row.createdAt else row.updatedAt.value;
    var otherAt := if other.updatedAt == None then other.createdAt else other.updatedAt.value;
    at < otherAt || (at == otherAt && id < otherId)
  }

  // No row but those of the window, overdue as they are, is touched.
  ghost predicate TouchedOnly(before: Rows, after: Rows, ids: seq<RowId>, now: int, grace: int) {
    && after.Keys == before.Keys
    && forall id :: id in before && after[id] != before[id] ==> id in ids && Overdue(before[id], now, grace)
  }

  lemma ClaimsOverdue(rows: Rows, ids: seq<RowId>, now: int, grace: int, limit: nat)
    requires Claims(rows, now - grace, limit, ids)
    ensures WindowOf(rows, ids, now, grace, limit)
  {
    forall id | id in rows && Overdue(rows[id], now, grace) && id !in ids
      ensures |ids| == limit && forall k :: k in ids ==> k in rows && Earlier(rows[k], k, rows[id], id)
    {
      assert Eligible(rows, now - grace, id);
    }
  }

  // A sweep over a claimed window, or the start of one, leaves every other row alone.
  lemma SweepTouches(s: Store, ids: seq<RowId>, n: nat, env: RowId -> Visit, now: int, grace: int, limit: nat,
                     escalateAfter: int)
    requires n <= |ids| && Claims(s.rows, now - grace, limit, ids)
    ensures TouchedOnly(s.rows, SweepAll(s, ids[..n], env, now, escalateAfter).rows, ids, now, grace)
  {
    SweepRowByRow(s, ids[..n], env, now, escalateAfter);
    ClaimsOverdue(s.rows, ids, now, grace, limit);
    assert forall k :: k in ids[..n] ==> k in ids;
  }

  // The request protocol's row and this one are the same reservation.
  predicate Shows(w: R.World, key: R.Key, row: Row) {
    && key in w.rows && w.rows[key].history != []
    && Now(w.rows[key].history) == row.status && w.rows[key].createdAt == row.createdAt
  }

  // Every status a sweep writes, it writes where the request protocol lets a sweep write
  // it, so what is proved there of sweeps holds of this one.
  lemma SweepIsAllowed(s: Store, ids: seq<RowId>, n: nat, env: RowId -> Visit, now: int, grace: nat, limit: nat,
                       escalateAfter: int, id: RowId, w: R.World, key: R.Key)
    requires n <= |ids| && Claims(s.rows, now - grace, limit, ids) && id in s.rows
    requires Shows(w, key, s.rows[id]) && now <= w.clock
    ensures var rows := SweepAll(s, ids[..n], env, now, escalateAfter).rows;
            && id in rows
            && (rows[id].status != s.rows[id].status ==>
                  var ev := R.Sweep(key, rows[id].status == QtSubmitted);
                  R.Enabled(w, ev, grace) && Shows(R.Next(w, ev, grace), key, rows[id]))
  {
    SweepTouches(s, ids, n, env, now, grace, limit, escalateAfter);
    SweepRowByRow(s, ids[..n], env, now, escalateAfter);
  }

  // A row that moves leaves the queue or goes behind every row of before the sweep.
  lemma MovedBehind(row: Row, v: Visit, now: int, escalateAfter: int, clock: int)
    requires row.status == QtReserved && Moves(v, row) && clock < now <= v.at
    requires row.error.Stamp? ==> row.error.checked <= clock
    ensures var r := Process(row, v, now, escalateAfter).row;
            r.status != QtReserved || KeyTime(r) > clock
  {
  }

  // A sweep that misses an eligible order takes a full window of rows ahead of it,
  // and every one of them that moves leaves the queue for good: the queue only
  // shrinks, by at least the rows that moved.
  lemma QueueShrinks(s: Store, target: RowId, cutoff: int, limit: nat, ids: seq<RowId>,
                     env: RowId -> Visit, now: int, escalateAfter: int, clock: int, moved: set<RowId>)
    requires Timely(s.rows, clock) && clock < now && forall id :: env(id).at >= now
    requires Eligible(s.rows, cutoff, target) && Claims(s.rows, cutoff, limit, ids) && target !in ids
    requires forall id :: id in moved ==> id in ids && Moves(env(id), s.rows[id])
    ensures |ids| == limit
    ensures var rows := SweepAll(s, ids, env, now, escalateAfter).rows;
            && target in rows && rows[target] == s.rows[target]
            && Queue(rows, target) <= Queue(s.rows, target) - moved
            && |Queue(rows, target)| + |moved| <= |Queue(s.rows, target)|
  {
    SweepRowByRow(s, ids, env, now, escalateAfter);
    var rows := SweepAll(s, ids, env, now, escalateAfter).rows;
    var before, after := Queue(s.rows, target), Queue(rows, target);
    forall id | id in moved ensures id in before && id !in after {
      MovedBehind(s.rows[id], env(id), now, escalateAfter, clock);
    }
    forall id | id in after ensures id in before {
      if id in ids { assert Ahead(s.rows, id, target); }
    }
    assert after + moved <= before && after !! moved;
    Subset(after + moved, before);
    assert |after + moved| == |after| + |moved|;
  }

  lemma {:induction false} Subset<T>(a: set<T>, b: set<T>)
    requires a <= b
    ensures |a| <= |b|
  {
    assert b == a + (b - a);
  }

  function Members(ids: seq<RowId>): set<RowId> { set id | id in ids }

  lemma {:induction false} MembersCount(ids: seq<RowId>)
    requires Distinct(ids)
    ensures |Members(ids)| == |ids|
  {
    if ids != [] {
      var rest := ids[1..];
      MembersCount(rest);
      assert ids == [ids[0]] + rest && ids[0] !in rest;
      assert Members(ids) == {ids[0]} + Members(rest);
    }
  }

  // What other sessions may do between sweeps: rows appear, leave RESERVED, or are
  // rewritten, each with the time of the write; the waiting order itself is left alone.
  ghost predicate OthersWrote(before: Rows, after: Rows, clock: int, target: RowId) {
    && target in before && target in after && after[target] == before[target]
    && forall id :: id in after ==>
         || (id in before && after[id] == before[id])
         || after[id].status != QtReserved
         || KeyTime(after[id]) > clock
  }

  lemma OthersKeepQueue(before: Rows, after: Rows, clock: int, target: RowId)
    requires OthersWrote(before, after, clock, target) && KeyTime(before[target]) <= clock
    ensures Queue(after, target) <= Queue(before, target)
    ensures |Queue(after, target)| <= |Queue(before, target)|
  {
    Subset(Queue(after, target), Queue(before, target));
  }

  // A completed sweep, started after `clock`, that misses the order and moves all it claimed.
  datatype Round = Round(
    store: Store, clock: int, cutoff: int, ids: seq<RowId>, env: RowId -> Visit, now: int, escalateAfter: int)

  ghost predicate MissedBy(r: Round, limit: nat, target: RowId) {
    && Timely(r.store.rows, r.clock) && r.clock < r.now && (forall id :: r.env(id).at >= r.now)
    && Eligible(r.store.rows, r.cutoff, target)
    && Claims(r.store.rows, r.cutoff, limit, r.ids) && target !in r.ids
    && (forall id :: id in r.ids ==> Moves(r.env(id), r.store.rows[id]))
  }

  function After(r: Round): Rows {
    SweepAll(r.store, r.ids, r.env, r.now, r.escalateAfter).rows
  }

  // Rounds in sequence: each starts from what the others left after the one before.
  ghost predicate Rounds(rs: seq<Round>, limit: nat, target: RowId) {
    rs == [] ||
    (&& MissedBy(rs[0], limit, target)
     && (|rs| > 1 ==> OthersWrote(After(rs[0]), rs[1].store.rows, rs[0].clock, target))
     && Rounds(rs[1..], limit, target))
  }

  lemma RoundShrinks(r: Round, limit: nat, target: RowId)
    requires MissedBy(r, limit, target)
    ensures target in After(r) && After(r)[target] == r.store.rows[target]
    ensures |Queue(After(r), target)| + limit <= |Queue(r.store.rows, target)|
  {
    MembersCount(r.ids);
    QueueShrinks(r.store, target, r.cutoff, limit, r.ids, r.env, r.now, r.escalateAfter, r.clock, Members(r.ids));
  }

  lemma {:induction false} RoundsShrink(rs: seq<Round>, limit: nat, target: RowId)
    requires rs != [] && Rounds(rs, limit, target)
    ensures target in rs[0].store.rows && |rs| * limit <= |Queue(rs[0].store.rows, target)|
    decreases |rs|
  {
    RoundShrinks(rs[0], limit, target);
    if |rs| > 1 {
      OthersKeepQueue(After(rs[0]), rs[1].store.rows, rs[0].clock, target);
      RoundsShrink(rs[1..], limit, target);
      assert |rs| * limit == limit + |rs[1..]| * limit;
    }
  }

  // No starvation: an eligible order with r RESERVED rows ahead of it can be missed by
  // at most r / limit completed sweeps, so it is attempted within r / limit + 1,
  // however many of the others stay inconclusive for ever.
  lemma NoStarvation(rs: seq<Round>, limit: nat, target: RowId)
    requires limit > 0 && rs != [] && Rounds(rs, limit, target)
    ensures target in rs[0].store.rows && |rs| <= |Queue(rs[0].store.rows, target)| / limit
  {
    RoundsShrink(rs, limit, target);
    AtMost(|rs|, limit, |Queue(rs[0].store.rows, target)|);
  }

  lemma AtMost(n: nat, limit: nat, total: nat)
    requires limit > 0 && n * limit <= total
    ensures n <= total / limit
  {
    if n > total / limit { MulLe(total / limit + 1, n, limit); }
  }

  lemma MulLe(a: nat, b: nat, c: nat)
    requires a <= b
    ensures a * c <= b * c
  {
    assert (b - a) * c >= 0;
  }

  // ── Escalation ──────────────────────────────────────────────────────────────

  function Count(ids: seq<RowId>, id: RowId): nat {
    if ids == [] then 0
    else Count(ids[..|ids| - 1], id) + (if ids[|ids| - 1] == id then 1 else 0)
  }

  // An order may still be escalated while it waits without the mark, or is not there yet.
  predicate MayEscalate(rows: Rows, id: RowId) {
    id in rows ==> rows[id].status == QtReserved && !(rows[id].error.Stamp? && rows[id].error.escalated)
  }

  function One(p: bool): nat { if p then 1 else 0 }

  // Exactly when one visit commits a notification; the mark goes with it.
  lemma EscalatesIff(s: Store, id: RowId, v: Visit, now: int, escalateAfter: int, other: RowId)
    ensures var s' := ProcessIn(s, id, v, now, escalateAfter);
            && (Count(s'.notified, id) == Count(s.notified, id) + 1 <==>
                  && id in s.rows && MayEscalate(s.rows, id) && !v.gone
                  && (v.inquiry.Answered? ==> |Candidates(v.inquiry.rows, s.rows[id])| >= 2)
                  && Waited(s.rows[id], now) >= escalateAfter && v.notifyOk && v.stampOk)
            && (Count(s'.notified, id) == Count(s.notified, id) + 1 ==> !MayEscalate(s'.rows, id))
            && (s'.notified == s.notified || Count(s'.notified, id) == Count(s.notified, id) + 1)
            && (other != id ==> Count(s'.notified, other) == Count(s.notified, other))
  {
    var s' := ProcessIn(s, id, v, now, escalateAfter);
    if s'.notified != s.notified { assert s'.notified[..|s'.notified| - 1] == s.notified; }
  }

  // A visit uses up the one escalation an order may still get, and never gives one back.
  lemma VisitKeepsBudget(s: Store, visited: RowId, v: Visit, now: int, escalateAfter: int, id: RowId)
    ensures var s' := ProcessIn(s, visited, v, now, escalateAfter);
            Count(s'.notified, id) + One(MayEscalate(s'.rows, id))
            <= Count(s.notified, id) + One(MayEscalate(s.rows, id))
  {
    EscalatesIff(s, visited, v, now, escalateAfter, id);
  }

  datatype Sweep = Sweep(ids: seq<RowId>, env: RowId -> Visit, now: int, escalateAfter: int)

  function SweepOf(s: Store, w: Sweep): Store { SweepAll(s, w.ids, w.env, w.now, w.escalateAfter) }

  lemma {:induction false} SweepKeepsBudget(s: Store, w: Sweep, n: nat, id: RowId)
    requires n <= |w.ids|
    ensures var s' := SweepAll(s, w.ids[..n], w.env, w.now, w.escalateAfter);
            Count(s'.notified, id) + One(MayEscalate(s'.rows, id))
            <= Count(s.notified, id) + One(MayEscalate(s.rows, id))
  {
    if n > 0 {
      SweepKeepsBudget(s, w, n - 1, id);
      assert w.ids[..n][..n - 1] == w.ids[..n - 1];
      VisitKeepsBudget(SweepAll(s, w.ids[..n - 1], w.env, w.now, w.escalateAfter), w.ids[n - 1], w.env(w.ids[n - 1]),
                       w.now, w.escalateAfter, id);
    }
  }

  // A sweep, or anything at all that other sessions commit to the table.
  datatype Turn = Swept(sweep: Sweep) | OthersCommit(rows: Rows)

  function TurnAfter(s: Store, t: Turn): Store {
    match t
    case Swept(w) => SweepOf(s, w)
    case OthersCommit(rows) => s.(rows := rows)
  }

  function Turns(s: Store, ts: seq<Turn>): Store
    decreases |ts|
  {
    if ts == [] then s else Turns(TurnAfter(s, ts[0]), ts[1..])
  }

  // Another session takes an order's mark away: it leaves the order waiting with
  // another error text, puts a resolved order back, or removes it.
  predicate Erases(s: Store, t: Turn, id: RowId) {
    t.OthersCommit? && !MayEscalate(s.rows, id) && MayEscalate(t.rows, id)
  }

  function Erasures(s: Store, ts: seq<Turn>, id: RowId): nat
    decreases |ts|
  {
    if ts == [] then 0 else One(Erases(s, ts[0], id)) + Erasures(TurnAfter(s, ts[0]), ts[1..], id)
  }

  lemma {:induction false} TurnsKeepBudget(s: Store, ts: seq<Turn>, id: RowId)
    ensures Count(Turns(s, ts).notified, id) <=
            Count(s.notified, id) + One(MayEscalate(s.rows, id)) + Erasures(s, ts, id)
    decreases |ts|
  {
    if ts != [] {
      if ts[0].Swept? {
        var w := ts[0].sweep;
        SweepKeepsBudget(s, w, |w.ids|, id);
        assert w.ids[..|w.ids|] == w.ids;
      }
      TurnsKeepBudget(TurnAfter(s, ts[0]), ts[1..], id);
    }
  }

  // Over all sweeps, and whatever other sessions write between them, an order gets at
  // most one committed escalation more than others erased its mark: at most one when
  // they leave the mark alone.
  lemma EscalatedOnce(rows: Rows, ts: seq<Turn>, id: RowId)
    ensures Count(Turns(Store(rows, []), ts).notified, id) <= 1 + Erasures(Store(rows, []), ts, id)
    ensures Erasures(Store(rows, []), ts, id) == 0 ==> Count(Turns(Store(rows, []), ts).notified, id) <= 1
  {
    TurnsKeepBudget(Store(rows, []), ts, id);
  }

  // A sweep that finds nothing out about an order that has waited long enough escalates it.
  lemma Escalating(s: Store, id: RowId, now: int, escalateAfter: int) returns (w: Sweep)
    requires id in s.rows && MayEscalate(s.rows, id) && Waited(s.rows[id], now) >= escalateAfter
    ensures var s' := SweepOf(s, w);
            && Count(s'.notified, id) == Count(s.notified, id) + 1
            && id in s'.rows && s'.rows[id].status == QtReserved && s'.rows[id].createdAt == s.rows[id].createdAt
            && !MayEscalate(s'.rows, id)
  {
    var v := Visit(false, TimedOut, true, true, true, now);
    w := Sweep([id], (_: RowId) => v, now, escalateAfter);
    SweepOne(s, id, w, v);
    EscalatesIff(s, id, v, now, escalateAfter, id);
    VisitMeans(s.rows[id], v, now, escalateAfter);
  }

  // And that many it can get: each erased mark of an order that stays inconclusive and
  // waits long enough is one more notification.
  lemma {:induction false} ErasedMarkEscalatesAgain(s: Store, id: RowId, text: string, now: int, escalateAfter: int,
                                                    k: nat)
    returns (ts: seq<Turn>)
    requires id in s.rows && MayEscalate(s.rows, id) && Waited(s.rows[id], now) >= escalateAfter
    ensures Erasures(s, ts, id) == k
    ensures Count(Turns(s, ts).notified, id) == Count(s.notified, id) + k + 1
    decreases k
  {
    var w := Escalating(s, id, now, escalateAfter);
    var s1 := SweepOf(s, w);
    if k == 0 {
      ts := [Swept(w)];
      assert ts[1..] == [];
    } else {
      var erased := OthersCommit(s1.rows[id := s1.rows[id].(error := OtherText(text))]);
      var s2 := TurnAfter(s1, erased);
      var rest := ErasedMarkEscalatesAgain(s2, id, text, now, escalateAfter, k - 1);
      ts := [Swept(w), erased] + rest;
      assert ts[1..] == [erased] + rest && ts[1..][1..] == rest;
    }
  }

  lemma SweepOne(s: Store, id: RowId, w: Sweep, v: Visit)
    requires w.ids == [id] && w.env(id) == v
    ensures SweepOf(s, w) == ProcessIn(s, id, v, w.now, w.escalateAfter)
  {
    assert w.ids[..0] == [];
    assert SweepAll(s, w.ids[..0], w.env, w.now, w.escalateAfter) == s;
  }

  // ── The mutable sweep ───────────────────────────────────────────────────────

  datatype Summary = Summary(
    seen: nat, submitted: nat, failed: nat, skipped: nat, eligible: nat, truncated: bool,
    escalated: nat, aborted: bool, reasons: map<Reason, nat>)

  function ReasonCount(m: map<Reason, nat>, r: Reason): nat { if r in m then m[r] else 0 }

  function ReasonTotal(m: map<Reason, nat>): nat {
    ReasonCount(m, InquiryError) + ReasonCount(m, Ambiguous) + ReasonCount(m, ClientError)
    + ReasonCount(m, ReconcileError) + ReasonCount(m, InquiryTimeout)
  }

  function CountSkip(s: Summary, reason: Reason): Summary {
    s.(skipped := s.skipped + 1, reasons := s.reasons[reason := ReasonCount(s.reasons, reason) + 1])
  }

  function Tallied(s: Summary, e: Effect): Summary {
    var s1 := s.(seen := s.seen + 1, escalated := s.escalated + if e.raised then 1 else 0);
    match e.tally
    case Adopted => s1.(submitted := s1.submitted + 1)
    case FoundAbsent => s1.(failed := s1.failed + 1)
    case Skipped(reason) => CountSkip(s1, reason)
  }

  // Every order seen ended one way, and every skip has one reason.
  predicate Balanced(s: Summary) {
    && s.seen == s.submitted + s.failed + s.skipped
    && s.skipped == ReasonTotal(s.reasons)
    && s.escalated <= s.skipped
  }

  lemma CountedOnce(m: map<Reason, nat>, r: Reason)
    ensures ReasonTotal(m[r := ReasonCount(m, r) + 1]) == ReasonTotal(m) + 1
  {
    var m' := m[r := ReasonCount(m, r) + 1];
    assert ReasonCount(m', InquiryError) == ReasonCount(m, InquiryError) + if r == InquiryError then 1 else 0;
    assert ReasonCount(m', Ambiguous) == ReasonCount(m, Ambiguous) + if r == Ambiguous then 1 else 0;
    assert ReasonCount(m', ClientError) == ReasonCount(m, ClientError) + if r == ClientError then 1 else 0;
    assert ReasonCount(m', ReconcileError) == ReasonCount(m, ReconcileError) + if r == ReconcileError then 1 else 0;
    assert ReasonCount(m', InquiryTimeout) == ReasonCount(m, InquiryTimeout) + if r == InquiryTimeout then 1 else 0;
  }

  lemma TallyBalances(s: Summary, e: Effect)
    requires Balanced(s) && (e.raised ==> e.tally.Skipped?)
    ensures var s' := Tallied(s, e);
            && Balanced(s') && s'.seen == s.seen + 1
            && s'.escalated == s.escalated + (if e.raised then 1 else 0)
            && s'.eligible == s.eligible && s'.truncated == s.truncated && s'.aborted == s.aborted
  {
    if e.tally.Skipped? { CountedOnce(s.reasons, e.tally.reason); }
  }

  class QuickTradeRecovery {
    var rows: Rows
    var notified: seq<RowId>

    constructor (rows: Rows)
      ensures Abs() == Store(rows, [])
    {
      this.rows, notified := rows, [];
    }

    function Abs(): Store
      reads this
    {
      Store(rows, notified)
    }

    // ORDER BY coalesce(updated_at, created_at), id LIMIT limit, by repeated selection.
    method ClaimReservedIds(cutoff: int, limit: nat) returns (ids: seq<RowId>, eligible: nat)
      ensures Claims(rows, cutoff, limit, ids)
      ensures eligible == |OverdueIn(rows, cutoff, 0)|
      ensures eligible > |ids| <==> exists id :: id in OverdueIn(rows, cutoff, 0) && id !in ids
      ensures WindowOf(rows, ids, cutoff, 0, limit)
    {
      var all := Backlog(rows, cutoff);
      eligible := |all|;
      assert all == OverdueIn(rows, cutoff, 0);
      var left := all;
      ids := [];
      while left != {} && |ids| < limit
        invariant left <= all && Distinct(ids) && |ids| <= limit
        invariant forall id :: id in ids <==> id in all && id !in left
        invariant forall id, other :: id in ids && other in left ==> Ahead(rows, id, other)
        invariant |ids| + |left| == |all|
        decreases left
      {
        var first := First(left);
        ids, left := ids + [first], left - {first};
      }
      assert Claims(rows, cutoff, limit, ids);
      ClaimsOverdue(rows, ids, cutoff, 0, limit);
    }

    method First(left: set<RowId>) returns (first: RowId)
      requires left != {} && forall id :: id in left ==> id in rows
      ensures first in left
      ensures forall id :: id in left && id != first ==> Ahead(rows, first, id)
    {
      first :| first in left;
      var rest := left - {first};
      while rest != {}
        invariant first in left && rest <= left - {first}
        invariant forall id :: id in left && id !in rest && id != first ==> Ahead(rows, first, id)
        decreases rest
      {
        var id :| id in rest;
        rest := rest - {id};
        if Ahead(rows, id, first) { first := id; }
      }
    }

    // `stopAfter`: how many claimed orders are handled before a shutdown is noticed.
    method RecoverReservedOrders(now: int, grace: int, limit: nat, escalateAfter: int,
                                 env: RowId -> Visit, stopAfter: nat)
      returns (summary: Summary, ids: seq<RowId>)
      modifies this
      ensures Claims(old(rows), now - grace, limit, ids)
      ensures Abs() == SweepAll(old(Abs()), ids[..if stopAfter < |ids| then stopAfter else |ids|],
                                env, now, escalateAfter)
      ensures summary.aborted <==> stopAfter < |ids|
      ensures Balanced(summary) && summary.seen <= |ids|
      ensures summary.eligible == |OverdueIn(old(rows), now, grace)|
      ensures summary.truncated <==> exists id :: id in OverdueIn(old(rows), now, grace) && id !in ids
      ensures |notified| <= |old(notified)| + summary.escalated
      ensures WindowOf(old(rows), ids, now, grace, limit) && TouchedOnly(old(rows), rows, ids, now, grace)
    {
      ghost var before := Abs();
      var eligible;
      ids, eligible := ClaimReservedIds(now - grace, limit);
      ClaimsOverdue(rows, ids, now, grace, limit);
      assert OverdueIn(rows, now - grace, 0) == OverdueIn(rows, now, grace);
      var stop := if stopAfter < |ids| then stopAfter else |ids|;
      SweepTouches(before, ids, stop, env, now, grace, limit, escalateAfter);
      summary := Summary(0, 0, 0, 0, eligible, eligible > |ids|, 0, false, map[]);
      summary := TakeEach(ids, stop, env, now, escalateAfter, summary);
      summary := summary.(aborted := stop < |ids|);
    }

    // The claimed orders one by one, up to the shutdown.
    method TakeEach(ids: seq<RowId>, stop: nat, env: RowId -> Visit, now: int, escalateAfter: int, start: Summary)
      returns (summary: Summary)
      requires stop <= |ids| && Balanced(start) && start.seen == 0 && start.escalated == 0
      modifies this
      ensures Abs() == SweepAll(old(Abs()), ids[..stop], env, now, escalateAfter)
      ensures Balanced(summary) && summary.seen <= stop
      ensures summary.eligible == start.eligible && summary.truncated == start.truncated
      ensures |notified| <= |old(notified)| + summary.escalated
    {
      summary := start;
      for k := 0 to stop
        invariant Abs() == SweepAll(old(Abs()), ids[..k], env, now, escalateAfter)
        invariant Balanced(summary) && summary.seen <= k
        invariant summary.eligible == start.eligible && summary.truncated == start.truncated
        invariant |notified| <= |old(notified)| + summary.escalated
      {
        assert ids[..k + 1][..k] == ids[..k];
        summary := Take(ids[k], env(ids[k]), now, escalateAfter, summary);
      }
    }

    // Claim the row: one that another worker holds, or that is resolved by now, is passed over.
    method Take(id: RowId, v: Visit, now: int, escalateAfter: int, s: Summary) returns (s': Summary)
      requires Balanced(s)
      modifies this
      ensures Abs() == ProcessIn(old(Abs()), id, v, now, escalateAfter)
      ensures Balanced(s') && s.seen <= s'.seen <= s.seen + 1
      ensures |notified| - s'.escalated <= |old(notified)| - s.escalated
      ensures s'.eligible == s.eligible && s'.truncated == s.truncated && s'.aborted == s.aborted
    {
      s' := s;
      if id in rows && rows[id].status == QtReserved && !v.gone {
        ghost var e := Process(rows[id], v, now, escalateAfter);
        TallyBalances(s, e);
        s' := Handle(id, v, now, escalateAfter, s);
        assert s' == Tallied(s, e) && (e.notified ==> e.raised);
      }
    }

    // One claimed and locked order.
    method Handle(id: RowId, v: Visit, now: int, escalateAfter: int, s: Summary) returns (s': Summary)
      requires id in rows && rows[id].status == QtReserved && !v.gone
      modifies this
      ensures var e := Process(old(rows)[id], v, now, escalateAfter);
              && rows == old(rows)[id := e.row]
              && notified == (if e.notified then old(notified) + [id] else old(notified))
              && s' == Tallied(s, e)
    {
      s' := s.(seen := s.seen + 1);
      var order := rows[id];
      var outcome := Classify(order, v.inquiry);
      if !outcome.Skip? && v.resolveOk {
        rows := rows[id := Resolved(order, outcome, v.at)];
        s' := if outcome.Match? then s'.(submitted := s'.submitted + 1) else s'.(failed := s'.failed + 1);
        return;
      }
      var reason := if outcome.Skip? then outcome.reason else ReconcileError;
      var escalated := outcome.Skip? && Age(order, now) >= escalateAfter && !Escalated(order) && v.notifyOk;
      if escalated { s' := s'.(escalated := s'.escalated + 1); }
      s' := CountSkip(s', reason);
      rows := rows[id := if v.stampOk then Stamped(order, reason, now, escalated, v.at) else order];
      if v.stampOk && escalated { notified := notified + [id]; }
    }
  }
}
