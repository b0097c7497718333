// Reserve before submit (api/services/quick_trade_service.py, reserve_and_submit and
// reconcile_reserved), with the order POST of kis_adapter/client.py: any number of
// concurrent requests, duplicates, crashes, recovery sweeps and cancels.
module Reservation {
  import opened Orders
  import opened QuickTradeStatus

  // ── One order POST ──────────────────────────────────────────────────────────

  // Http is a status of 400 or more.
  datatype Reply = Accepted | MarketClosed | Refused
  datatype Transport = Raised | Http(code: nat) | NotJson | Answered(reply: Reply)

  // How the call ends for its caller. Only Rejection is the broker's own "no" (a
  // RuntimeError); after the others nobody knows whether the order was booked.
  datatype PostResult = Ok | Rejection | Closed | HttpError(code: nat) | Lost

  const MAX_RETRIES: nat := 3
  const RETRYABLE: set<nat> := {429, 500, 502, 503, 504}

  predicate Inconclusive(t: Transport) {
    t.Raised? || t.NotJson? || (t.Http? && t.code in RETRYABLE)
  }

  function ResultOf(t: Transport): PostResult {
    match t
    case Raised | NotJson => Lost
    case Http(code) => HttpError(code)
    case Answered(Accepted) => Ok
    case Answered(MarketClosed) => Closed
    case Answered(Refused) => Rejection
  }

  // No answer of the broker's: nothing readable came back, or a status that says to ask
  // again - too many requests, or a server error other than "not implemented".
  predicate Unanswered(t: Transport) {
    t.Raised? || t.NotJson? || (t.Http? && (t.code == 429 || (500 <= t.code <= 504 && t.code != 501)))
  }

  // `answer(k)` is what attempt k meets. A new order is sent once, whatever comes
  // back; a replayable request is sent again after an inconclusive answer only, at
  // most three times, and the result is that of the last one sent.
  method Post(idempotent: bool, answer: nat -> Transport) returns (sent: nat, result: PostResult)
    ensures 1 <= sent <= 3 && (!idempotent ==> sent == 1)
    ensures forall k: nat :: k < sent - 1 ==> Unanswered(answer(k))
    ensures idempotent && Unanswered(answer(sent - 1)) ==> sent == 3
    ensures result == ResultOf(answer(sent - 1))
    ensures var t := answer(sent - 1);
            && (result == Ok <==> t == Answered(Accepted))
            && (result == Rejection <==> t == Answered(Refused))
            && (result == Closed <==> t == Answered(MarketClosed))
            && (result.HttpError? <==> t.Http?) && (t.Http? ==> result.code == t.code)
            && (result == Lost <==> t.Raised? || t.NotJson?)
  {
    var attempts := if idempotent then MAX_RETRIES else 1;
    sent := 0;
    while true
      invariant sent < attempts
      invariant forall k: nat :: k < sent ==> Inconclusive(answer(k))
      decreases attempts - sent
    {
      var t := answer(sent);
      var last := sent == attempts - 1;
      sent := sent + 1;
      if last || !Inconclusive(t) { return sent, ResultOf(t); }
    }
  }

  // ── Many requests ───────────────────────────────────────────────────────────

  datatype Key = Key(user: nat, token: string)
  type ReqId = nat

  datatype Row = Row(hash: string, createdAt: int, owner: ReqId, history: seq<QtStatus>)

  datatype Pc = Arrived | Holding | Cleared | Posted | Done

  datatype Request = Request(key: Key, hash: string, pc: Pc)

  datatype Act = Committed(key: Key) | Sent(key: Key)

  datatype World = World(
    rows: map<Key, Row>, requests: map<ReqId, Request>, clock: int, log: seq<Act>)

  const START := World(map[], map[], 0, [])

  datatype GateAnswer = Allow | Deny | GateError
  datatype SubmitAnswer = Acknowledged | BrokerRejected | Indeterminate

  datatype Event =
    | Arrive(id: ReqId, key: Key, hash: string)
    | Reserve(id: ReqId)                        // the INSERT commits, or meets the unique key
    | Gate(id: ReqId, gate: GateAnswer)
    | Send(id: ReqId)
    | Answer(id: ReqId, submit: SubmitAnswer)
    | Crash(id: ReqId)
    | Sweep(key: Key, found: bool)              // conclusive: adopted or absent
    | Cancel(key: Key)
    | Wait(seconds: nat)

  function At(w: World, id: ReqId): Pc { if id in w.requests then w.requests[id].pc else Done }

  predicate Enabled(w: World, ev: Event, grace: nat) {
    match ev
    case Arrive(id, _, _) => id !in w.requests
    case Reserve(id) => At(w, id) == Arrived
    case Gate(id, _) => At(w, id) == Holding && w.requests[id].key in w.rows
    case Send(id) => At(w, id) == Cleared
    case Answer(id, _) => At(w, id) == Posted && w.requests[id].key in w.rows
    case Crash(id) => id in w.requests
    case Sweep(key, _) => key in w.rows && w.rows[key].history != [] && Now(w.rows[key].history) == QtReserved
                          && w.rows[key].createdAt + grace <= w.clock
    case Cancel(key) => key in w.rows && w.rows[key].history != [] && Now(w.rows[key].history) == QtSubmitted
    case Wait(_) => true
  }

  function Move(w: World, id: ReqId, pc: Pc): World
    requires id in w.requests
  {
    w.(requests := w.requests[id := w.requests[id].(pc := pc)])
  }

  // The new status goes over whatever the row holds: the request checks the
  // transition against the status it loaded when it reserved.
  function Write(w: World, key: Key, status: QtStatus): World
    requires key in w.rows
  {
    w.(rows := w.rows[key := w.rows[key].(history := w.rows[key].history + [status])])
  }

  function Next(w: World, ev: Event, grace: nat): World
    requires Enabled(w, ev, grace)
  {
    match ev
    case Arrive(id, key, hash) => w.(requests := w.requests[id := Request(key, hash, Arrived)])
    case Reserve(id) =>
      var r := w.requests[id];
      if r.key in w.rows then Move(w, id, Done)     // a duplicate gets the existing row, or a conflict
      else Move(w, id, Holding).(rows := w.rows[r.key := Row(r.hash, w.clock, id, [QtReserved])],
                                 log := w.log + [Committed(r.key)])
    case Gate(id, gate) =>
      if gate == Allow then Move(w, id, Cleared) else Write(Move(w, id, Done), w.requests[id].key, QtBlocked)
    case Send(id) => Move(w, id, Posted).(log := w.log + [Sent(w.requests[id].key)])
    case Answer(id, submit) =>
      var w1 := Move(w, id, Done);
      if submit == Indeterminate then w1
      else Write(w1, w.requests[id].key, if submit == Acknowledged then QtSubmitted else QtRejected)
    case Crash(id) => Move(w, id, Done)
    case Sweep(key, found) => Write(w, key, if found then QtSubmitted else QtFailed)
    case Cancel(key) => Write(w, key, QtCanceled)
    case Wait(seconds) => w.(clock := w.clock + seconds)
  }

  ghost predicate CanRun(w: World, evs: seq<Event>, grace: nat)
    decreases |evs|
  {
    evs == [] || (Enabled(w, evs[0], grace) && CanRun(Next(w, evs[0], grace), evs[1..], grace))
  }

  ghost function Run(w: World, evs: seq<Event>, grace: nat): World
    requires CanRun(w, evs, grace)
    decreases |evs|
  {
    if evs == [] then w else Run(Next(w, evs[0], grace), evs[1..], grace)
  }

  // ── One POST per key, after its reservation ─────────────────────────────────

  predicate Logged(log: seq<Act>, a: Act) {
    log != [] && (log[|log| - 1] == a || Logged(log[..|log| - 1], a))
  }

  // Every send follows the commit of its key, and no key is sent or committed twice.
  predicate Lawful(log: seq<Act>) {
    log == [] ||
    (var before, a := log[..|log| - 1], log[|log| - 1];
     Lawful(before) && !Logged(before, a) && (a.Sent? ==> Logged(before, Committed(a.key))))
  }

  predicate Active(pc: Pc) { pc in {Holding, Cleared, Posted} }

  // An active request owns its row, and has sent exactly when it is past sending.
  ghost predicate Owning(w: World, id: ReqId)
    requires id in w.requests
  {
    var r := w.requests[id];
    Active(r.pc) ==>
      r.key in w.rows && w.rows[r.key].owner == id && (Logged(w.log, Sent(r.key)) <==> r.pc == Posted)
  }

  ghost predicate LogMatchesRows(w: World) {
    && Lawful(w.log)
    && (forall key :: Logged(w.log, Committed(key)) <==> key in w.rows)
    && (forall key :: Logged(w.log, Sent(key)) ==> key in w.rows)
  }

  ghost predicate PostInv(w: World) {
    LogMatchesRows(w) && forall id :: id in w.requests ==> Owning(w, id)
  }

  lemma Appended(log: seq<Act>, a: Act)
    ensures (log + [a])[..|log + [a]| - 1] == log && (log + [a])[|log + [a]| - 1] == a
    ensures forall b :: Logged(log + [a], b) <==> b == a || Logged(log, b)
  {
    assert (log + [a])[..|log|] == log;
  }

  lemma ReservedLog(w: World, key: Key)
    requires LogMatchesRows(w) && key !in w.rows
    ensures var log := w.log + [Committed(key)];
            && Lawful(log) && (forall k :: Logged(log, Committed(k)) <==> k == key || k in w.rows)
            && (forall k :: Logged(log, Sent(k)) <==> Logged(w.log, Sent(k)))
  {
    Appended(w.log, Committed(key));
  }

  lemma ReservePostInv(w: World, id: ReqId, grace: nat)
    requires PostInv(w) && Enabled(w, Reserve(id), grace)
    ensures PostInv(Next(w, Reserve(id), grace))
  {
    var w' := Next(w, Reserve(id), grace);
    var key := w.requests[id].key;
    if key in w.rows {
      forall other | other in w'.requests ensures Owning(w', other) { assert Owning(w, other); }
    } else {
      ReservedLog(w, key);
      assert w'.log == w.log + [Committed(key)] && w'.rows.Keys == w.rows.Keys + {key};
      forall other | other in w'.requests ensures Owning(w', other) { assert Owning(w, other); }
    }
  }

  lemma SendPostInv(w: World, id: ReqId, grace: nat)
    requires PostInv(w) && Enabled(w, Send(id), grace)
    ensures PostInv(Next(w, Send(id), grace))
  {
    var w' := Next(w, Send(id), grace);
    assert Owning(w, id);
    Appended(w.log, Sent(w.requests[id].key));
    assert LogMatchesRows(w');
    forall other | other in w'.requests ensures Owning(w', other) {
      assert Owning(w, other);
    }
  }

  // The other events write nothing to the log and never change who owns a row.
  lemma QuietPostInv(w: World, ev: Event, grace: nat)
    requires PostInv(w) && Enabled(w, ev, grace) && !ev.Reserve? && !ev.Send?
    ensures PostInv(Next(w, ev, grace))
  {
    var w' := Next(w, ev, grace);
    assert w'.log == w.log && w'.rows.Keys == w.rows.Keys;
    assert LogMatchesRows(w');
    forall id | id in w'.requests ensures Owning(w', id) {
      if id in w.requests { assert Owning(w, id); }
    }
  }

  lemma NextPostInv(w: World, ev: Event, grace: nat)
    requires PostInv(w) && Enabled(w, ev, grace)
    ensures PostInv(Next(w, ev, grace))
  {
    if ev.Reserve? {
      ReservePostInv(w, ev.id, grace);
    } else if ev.Send? {
      SendPostInv(w, ev.id, grace);
    } else {
      QuietPostInv(w, ev, grace);
    }
  }

  lemma {:induction false} RunPostInv(w: World, evs: seq<Event>, grace: nat)
    requires PostInv(w) && CanRun(w, evs, grace)
    ensures PostInv(Run(w, evs, grace))
    decreases |evs|
  {
    if evs != [] {
      NextPostInv(w, evs[0], grace);
      RunPostInv(Next(w, evs[0], grace), evs[1..], grace);
    }
  }

  lemma {:induction false} LawfulAt(log: seq<Act>, i: nat)
    requires Lawful(log) && i < |log|
    ensures !Logged(log[..i], log[i])
    ensures log[i].Sent? ==> Logged(log[..i], Committed(log[i].key))
  {
    if i < |log| - 1 {
      LawfulAt(log[..|log| - 1], i);
      assert log[..|log| - 1][..i] == log[..i];
    }
  }

  lemma {:induction false} LoggedAt(log: seq<Act>, i: nat)
    requires i < |log|
    ensures Logged(log, log[i])
  {
    if i < |log| - 1 { LoggedAt(log[..|log| - 1], i); }
  }

  lemma {:induction false} LoggedSomewhere(log: seq<Act>, a: Act) returns (i: nat)
    requires Logged(log, a)
    ensures i < |log| && log[i] == a
  {
    if log[|log| - 1] == a { i := |log| - 1; } else { i := LoggedSomewhere(log[..|log| - 1], a); }
  }

  // Over every interleaving of requests, duplicates, crashes and sweeps: at most one
  // order POST per user and key, and always after its reservation is committed.
  lemma OnePostPerKey(evs: seq<Event>, grace: nat, i: nat)
    requires CanRun(START, evs, grace)
    requires i < |Run(START, evs, grace).log| && Run(START, evs, grace).log[i].Sent?
    ensures var log := Run(START, evs, grace).log;
            && (forall j :: 0 <= j < |log| && log[j] == log[i] ==> j == i)
            && (exists j :: 0 <= j < i && log[j] == Committed(log[i].key))
  {
    RunPostInv(START, evs, grace);
    var log := Run(START, evs, grace).log;
    LawfulAt(log, i);
    var c := LoggedSomewhere(log[..i], Committed(log[i].key));
    assert log[c] == Committed(log[i].key);
    forall j | 0 <= j < |log| && log[j] == log[i] ensures j == i {
      LawfulAt(log, j);
      if j < i { LoggedAt(log[..i], j); } else if i < j { LoggedAt(log[..j], i); }
    }
  }

  // ── The committed histories ─────────────────────────────────────────────────

  // Requests write within the grace period, during which sweeps leave their row alone.
  predicate Prompt(w: World, ev: Event, grace: nat) {
    (ev.Gate? && At(w, ev.id) != Done && w.requests[ev.id].key in w.rows ==>
       w.clock < w.rows[w.requests[ev.id].key].createdAt + grace)
    && (ev.Answer? && At(w, ev.id) != Done && w.requests[ev.id].key in w.rows ==>
          w.clock < w.rows[w.requests[ev.id].key].createdAt + grace)
  }

  ghost predicate AllPrompt(w: World, evs: seq<Event>, grace: nat)
    requires CanRun(w, evs, grace)
    decreases |evs|
  {
    evs == [] || (Prompt(w, evs[0], grace) && AllPrompt(Next(w, evs[0], grace), evs[1..], grace))
  }

  // An active request owns its row, and nobody else has written to it unless the
  // grace period is over.
  ghost predicate Unwritten(w: World, id: ReqId, grace: nat)
    requires id in w.requests
  {
    var r := w.requests[id];
    Active(r.pc) ==>
      && r.key in w.rows && w.rows[r.key].owner == id && w.rows[r.key].history != []
      && (Now(w.rows[r.key].history) == QtReserved || w.rows[r.key].createdAt + grace <= w.clock)
  }

  ghost predicate HistoryInv(w: World, grace: nat) {
    && (forall key :: key in w.rows ==> Legal(w.rows[key].history))
    && (forall id :: id in w.requests ==> Unwritten(w, id, grace))
  }

  // Writing a legal next status to one row keeps every history legal; what remains
  // is who may still write to that row.
  lemma WriteHistoryInv(w: World, key: Key, status: QtStatus, w': World, grace: nat)
    requires HistoryInv(w, grace) && key in w.rows && Legal(w.rows[key].history + [status])
    requires w'.rows == Write(w, key, status).rows && w'.clock == w.clock
    requires forall id :: id in w'.requests ==>
               (id in w.requests
                && (w'.requests[id] == w.requests[id] || w'.requests[id] == w.requests[id].(pc := Done)))
    requires forall id :: id in w'.requests && Active(w'.requests[id].pc) && w'.requests[id].key == key ==>
               w.rows[key].owner != id || w.rows[key].createdAt + grace <= w.clock
    ensures HistoryInv(w', grace)
  {
    forall id | id in w'.requests ensures Unwritten(w', id, grace) {
      assert Unwritten(w, id, grace);
    }
  }

  // A request that ends writing its outcome in time finds its row still RESERVED.
  lemma OutcomeHistoryInv(w: World, id: ReqId, outcome: QtStatus, grace: nat)
    requires HistoryInv(w, grace) && Active(At(w, id)) && w.requests[id].key in w.rows
    requires w.clock < w.rows[w.requests[id].key].createdAt + grace
    requires outcome in {QtSubmitted, QtRejected, QtFailed, QtBlocked}
    ensures HistoryInv(Write(Move(w, id, Done), w.requests[id].key, outcome), grace)
  {
    var key := w.requests[id].key;
    assert Unwritten(w, id, grace);
    OutcomeLegalIff(w.rows[key].history, outcome);
    WriteHistoryInv(w, key, outcome, Write(Move(w, id, Done), key, outcome), grace);
  }

  lemma SweepHistoryInv(w: World, key: Key, found: bool, grace: nat)
    requires HistoryInv(w, grace) && Enabled(w, Sweep(key, found), grace)
    ensures HistoryInv(Next(w, Sweep(key, found), grace), grace)
  {
    var status := if found then QtSubmitted else QtFailed;
    OutcomeLegalIff(w.rows[key].history, status);
    WriteHistoryInv(w, key, status, Write(w, key, status), grace);
  }

  lemma CancelHistoryInv(w: World, key: Key, grace: nat)
    requires HistoryInv(w, grace) && Enabled(w, Cancel(key), grace)
    ensures HistoryInv(Next(w, Cancel(key), grace), grace)
  {
    CancelLegal(w.rows[key].history);
    forall id | id in w.requests && Active(w.requests[id].pc) && w.requests[id].key == key
      ensures w.rows[key].owner != id || w.rows[key].createdAt + grace <= w.clock
    {
      assert Unwritten(w, id, grace);
    }
    WriteHistoryInv(w, key, QtCanceled, Write(w, key, QtCanceled), grace);
  }

  lemma QuietHistoryInv(w: World, ev: Event, grace: nat)
    requires HistoryInv(w, grace) && Enabled(w, ev, grace)
    requires ev.Arrive? || ev.Reserve? || ev.Send? || ev.Crash? || ev.Wait?
             || (ev.Gate? && ev.gate == Allow) || (ev.Answer? && ev.submit == Indeterminate)
    ensures HistoryInv(Next(w, ev, grace), grace)
  {
    var w' := Next(w, ev, grace);
    forall id | id in w'.requests ensures Unwritten(w', id, grace) {
      if id in w.requests { assert Unwritten(w, id, grace); }
    }
  }

  lemma NextHistoryInv(w: World, ev: Event, grace: nat)
    requires HistoryInv(w, grace) && Enabled(w, ev, grace) && Prompt(w, ev, grace)
    ensures HistoryInv(Next(w, ev, grace), grace)
  {
    if ev.Gate? && ev.gate != Allow {
      OutcomeHistoryInv(w, ev.id, QtBlocked, grace);
    } else if ev.Answer? && ev.submit != Indeterminate {
      OutcomeHistoryInv(w, ev.id, if ev.submit == Acknowledged then QtSubmitted else QtRejected, grace);
    } else if ev.Sweep? {
      SweepHistoryInv(w, ev.key, ev.found, grace);
    } else if ev.Cancel? {
      CancelHistoryInv(w, ev.key, grace);
    } else {
      QuietHistoryInv(w, ev, grace);
    }
  }

  lemma {:induction false} RunHistoryInv(w: World, evs: seq<Event>, grace: nat)
    requires HistoryInv(w, grace) && CanRun(w, evs, grace) && AllPrompt(w, evs, grace)
    ensures HistoryInv(Run(w, evs, grace), grace)
    decreases |evs|
  {
    if evs != [] {
      NextHistoryInv(w, evs[0], grace);
      RunHistoryInv(Next(w, evs[0], grace), evs[1..], grace);
    }
  }

  // If submissions finish within the grace period, every committed history is
  // RESERVED, then at most one of SUBMITTED / REJECTED / FAILED / BLOCKED, then
  // CANCELED only after SUBMITTED.
  lemma HistoriesLegal(evs: seq<Event>, grace: nat, key: Key)
    requires CanRun(START, evs, grace) && AllPrompt(START, evs, grace)
    requires key in Run(START, evs, grace).rows
    ensures var h := Run(START, evs, grace).rows[key].history;
            || h == [QtReserved]
            || (|h| == 2 && h[0] == QtReserved && h[1] in {QtSubmitted, QtRejected, QtFailed, QtBlocked})
            || h == [QtReserved, QtSubmitted, QtCanceled]
  {
    RunHistoryInv(START, evs, grace);
    LegalHistories(Run(START, evs, grace).rows[key].history);
  }

  // The grace period is what it rests on: a request still waiting for its answer when
  // the grace period ends finds that the sweep has failed its order, and the late
  // acknowledgement still writes SUBMITTED over it. From every reachable world.
  lemma LateAnswerOverwrites(w: World, id: ReqId, grace: nat)
    requires HistoryInv(w, grace) && At(w, id) == Posted
    requires Now(w.rows[w.requests[id].key].history) == QtReserved
    ensures var key := w.requests[id].key;
            var h := w.rows[key].history;
            var late := if w.rows[key].createdAt + grace <= w.clock then 0
                        else w.rows[key].createdAt + grace - w.clock;
            var evs := [Wait(late), Sweep(key, false), Answer(id, Acknowledged)];
            && CanRun(w, evs, grace)
            && key in Run(w, evs, grace).rows
            && Run(w, evs, grace).rows[key].history == h + [QtFailed] + [QtSubmitted]
            && !Legal(Run(w, evs, grace).rows[key].history)
  {
    assert Unwritten(w, id, grace);
    var key := w.requests[id].key;
    var h := w.rows[key].history;
    var late := if w.rows[key].createdAt + grace <= w.clock then 0 else w.rows[key].createdAt + grace - w.clock;
    var e0, e1, e2 := Wait(late), Sweep(key, false), Answer(id, Acknowledged);
    var w1 := Next(w, e0, grace);
    var w2 := Next(w1, e1, grace);
    RunCons(w2, e2, [], grace);
    RunCons(w1, e1, [e2], grace);
    RunCons(w, e0, [e1, e2], grace);
    assert [e2] + [] == [e2] && [e1] + [e2] == [e1, e2] && [e0] + [e1, e2] == [e0, e1, e2];
    OutcomeLegalIff(h, QtFailed);
    OutcomeLegalIff(h + [QtFailed], QtSubmitted);
  }

  lemma RunCons(w: World, ev: Event, evs: seq<Event>, grace: nat)
    requires Enabled(w, ev, grace) && CanRun(Next(w, ev, grace), evs, grace)
    ensures CanRun(w, [ev] + evs, grace)
    ensures Run(w, [ev] + evs, grace) == Run(Next(w, ev, grace), evs, grace)
  {
    assert ([ev] + evs)[0] == ev && ([ev] + evs)[1..] == evs;
  }

  // ── One request as the service runs it ──────────────────────────────────────

  // `history` is what was committed for the row, oldest first; the stored status is
  // its last element. Id 0 is "no broker id".
  datatype QtOrder = QtOrder(hash: string, history: seq<QtStatus>, brokerId: OrderId, error: string)

  datatype Outcome = Returned(order: QtOrder) | Conflict | Exception

  // Reading the order id out of an accepted answer may itself raise, after the order
  // was booked: nothing more is written then.
  function AnswerOf(post: PostResult, extracted: Option<OrderId>): SubmitAnswer {
    if post == Ok && extracted.Some? then Acknowledged
    else if post == Rejection then BrokerRejected
    else Indeterminate
  }

  function HistoryOf(gate: GateAnswer, answer: SubmitAnswer): seq<QtStatus> {
    if gate != Allow then [QtReserved, QtBlocked]
    else match answer
      case Acknowledged => [QtReserved, QtSubmitted]
      case BrokerRejected => [QtReserved, QtRejected]
      case Indeterminate => [QtReserved]
  }

  function ActsOf(key: Key, gate: GateAnswer): seq<Act> {
    if gate == Allow then [Committed(key), Sent(key)] else [Committed(key)]
  }

  function Reconciled(o: QtOrder, found: Option<OrderId>): QtOrder
    requires o.history != []
  {
    if Now(o.history) != QtReserved then o
    else if found.Some? then o.(history := o.history + [QtSubmitted], brokerId := found.value)
    else o.(history := o.history + [QtFailed], error := if o.error == "" then NO_MATCH else o.error)
  }

  const NO_MATCH := "reconcile: broker has no matching order"

  // qt_transition: None is the ValueError.
  function Transition(o: QtOrder, status: QtStatus): (r: Option<QtOrder>)
    requires o.history != []
    ensures Legal(o.history) ==> (r.Some? <==> Legal(o.history + [status]))
    ensures r.Some? ==> r.value == o.(history := o.history + [status])
  {
    if Allowed(Now(o.history), status) then Some(o.(history := o.history + [status]))
    else
      assert (o.history + [status])[|o.history| - 1] == Now(o.history);
      assert (o.history + [status])[|o.history| - 1 + 1] == status;
      None
  }

  class QuickTradeService {
    var orders: map<Key, QtOrder>
    var log: seq<Act>

    constructor ()
      ensures orders == map[] && log == []
    {
      orders, log := map[], [];
    }

    // The one POST meets `answer(0)`, if the request gets that far. A row ends REJECTED
    // only by the broker's own no, and stays RESERVED whenever nobody knows.
    // A duplicate key never reaches the gate or the broker; a key reused with other
    // parameters is refused before both.
    method ReserveAndSubmit(key: Key, hash: string, insertable: bool, gate: GateAnswer,
                            answer: nat -> Transport, extracted: Option<OrderId>, why: string)
      returns (outcome: Outcome)
      modifies this
      ensures key in old(orders) || !insertable ==> orders == old(orders) && log == old(log)
      ensures key in old(orders) ==>
                outcome == if old(orders)[key].hash == hash then Returned(old(orders)[key]) else Conflict
      ensures key !in old(orders) && !insertable ==> outcome == Exception
      ensures key !in old(orders) && insertable ==>
                && orders.Keys == old(orders).Keys + {key}
                && (forall other :: other in old(orders) ==> orders[other] == old(orders)[other])
                && orders[key].history == HistoryOf(gate, AnswerOf(ResultOf(answer(0)), extracted))
                && orders[key].hash == hash
                && orders[key].brokerId ==
                     (if gate == Allow && answer(0) == Answered(Accepted) && extracted.Some?
                      then extracted.value else 0)
                && orders[key].error == (if gate == Allow && answer(0) == Answered(Accepted) then "" else why)
                && log == old(log) + ActsOf(key, gate)
                && outcome == if gate == Allow && answer(0) == Answered(Accepted) && extracted.None?
                              then Exception else Returned(orders[key])
      ensures key !in old(orders) && insertable ==>
                var h, t := orders[key].history, answer(0);
                && (h == [QtReserved, QtBlocked] <==> gate != Allow)
                && (h == [QtReserved, QtSubmitted] <==>
                      gate == Allow && t == Answered(Accepted) && extracted.Some?)
                && (h == [QtReserved, QtRejected] <==> gate == Allow && t == Answered(Refused))
                && (h == [QtReserved] <==>
                      && gate == Allow
                      && (t.Raised? || t.NotJson? || t.Http? || t == Answered(MarketClosed)
                          || (t == Answered(Accepted) && extracted.None?)))
                && (log == old(log) + [Committed(key), Sent(key)] <==> gate == Allow)
                && (log == old(log) + [Committed(key)] <==> gate != Allow)
    {
      if key in orders || !insertable {
        if key !in orders { return Exception; }
        if orders[key].hash != hash { return Conflict; }
        return Returned(orders[key]);
      }
      var order := QtOrder(hash, [QtReserved], 0, "");
      orders := orders[key := order];
      log := log + [Committed(key)];
      if gate != Allow {
        var blocked := Transition(order, QtBlocked);
        order := blocked.value.(error := why);
        orders := orders[key := order];
        return Returned(order);
      }
      log := log + [Sent(key)];
      var sent, post := Post(false, answer);
      if post == Rejection {
        var rejected := Transition(order, QtRejected);
        order := rejected.value.(error := why);
      } else if post != Ok {
        order := order.(error := why);
      } else if extracted.None? {
        return Exception;
      } else {
        var submitted := Transition(order.(brokerId := extracted.value), QtSubmitted);
        order := submitted.value;
      }
      orders := orders[key := order];
      return Returned(order);
    }

    method ReconcileReserved(key: Key, found: Option<OrderId>)
      requires key in orders && orders[key].history != []
      modifies `orders
      ensures orders == old(orders)[key := Reconciled(old(orders)[key], found)]
      ensures var before := old(orders)[key];
              if Now(before.history) != QtReserved then orders == old(orders)
              else if found.Some?
              then orders[key] == before.(history := before.history + [QtSubmitted], brokerId := found.value)
              else && orders[key].history == before.history + [QtFailed]
                   && orders[key].brokerId == before.brokerId
                   && orders[key].error != "" && (before.error != "" ==> orders[key].error == before.error)
    {
      var order := orders[key];
      if Now(order.history) != QtReserved {
        assert orders == orders[key := order];
        return;
      }
      if found.Some? {
        var submitted := Transition(order.(brokerId := found.value), QtSubmitted);
        order := submitted.value;
      } else {
        var failed := Transition(order, QtFailed);
        order := failed.value;
        if order.error == "" { order := order.(error := NO_MATCH); }
      }
      orders := orders[key := order];
    }
  }

  // Reconciling settles an order for good: whatever the broker says later, a second
  // pass changes nothing, and the history stays on the table.
  lemma ReconcileSettles(o: QtOrder, found: Option<OrderId>, later: Option<OrderId>)
    requires Legal(o.history)
    ensures Legal(Reconciled(o, found).history) && Now(Reconciled(o, found).history) != QtReserved
    ensures Reconciled(Reconciled(o, found), later) == Reconciled(o, found)
  {
    if Now(o.history) == QtReserved {
      OutcomeLegalIff(o.history, if found.Some? then QtSubmitted else QtFailed);
    }
  }

  lemma GatedRun(w: World, id: ReqId, gate: GateAnswer, answer: SubmitAnswer, grace: nat)
    requires At(w, id) == Holding && w.requests[id].key in w.rows
    requires w.rows[w.requests[id].key].history == [QtReserved]
    ensures var key := w.requests[id].key;
            var evs := [Gate(id, gate)] + (if gate == Allow then [Send(id), Answer(id, answer)] else []);
            && CanRun(w, evs, grace)
            && Run(w, evs, grace).rows == w.rows[key := w.rows[key].(history := HistoryOf(gate, answer))]
            && Run(w, evs, grace).log == w.log + ActsOf(key, gate)[1..]
            && At(Run(w, evs, grace), id) == Done
  {
    var key := w.requests[id].key;
    var w1 := Next(w, Gate(id, gate), grace);
    if gate == Allow {
      var w2 := Next(w1, Send(id), grace);
      var w3 := Next(w2, Answer(id, answer), grace);
      var row := w.rows[key];
      assert row.history + [QtSubmitted] == [QtReserved, QtSubmitted];
      assert row.history + [QtRejected] == [QtReserved, QtRejected];
      assert answer == Indeterminate ==> w.rows == w.rows[key := row.(history := [QtReserved])];
      RunCons(w2, Answer(id, answer), [], grace);
      assert [Answer(id, answer)] + [] == [Answer(id, answer)];
      RunCons(w1, Send(id), [Answer(id, answer)], grace);
      assert [Send(id)] + [Answer(id, answer)] == [Send(id), Answer(id, answer)];
      RunCons(w, Gate(id, gate), [Send(id), Answer(id, answer)], grace);
    } else {
      assert w.rows[key].history + [QtBlocked] == [QtReserved, QtBlocked];
      RunCons(w, Gate(id, gate), [], grace);
    }
  }

  // What one service call commits is what the interleaved requests above commit when
  // nobody interferes, so the two descriptions of a request are the same.
  lemma CallIsARun(w: World, id: ReqId, key: Key, hash: string, gate: GateAnswer, answer: SubmitAnswer, grace: nat)
    requires id !in w.requests && key !in w.rows
    ensures var evs := [Arrive(id, key, hash)] + ([Reserve(id)] + ([Gate(id, gate)]
                       + (if gate == Allow then [Send(id), Answer(id, answer)] else [])));
            && CanRun(w, evs, grace)
            && Run(w, evs, grace).rows == w.rows[key := Row(hash, w.clock, id, HistoryOf(gate, answer))]
            && Run(w, evs, grace).log == w.log + ActsOf(key, gate)
            && At(Run(w, evs, grace), id) == Done
  {
    var w1 := Next(w, Arrive(id, key, hash), grace);
    var w2 := Next(w1, Reserve(id), grace);
    var rest := [Gate(id, gate)] + (if gate == Allow then [Send(id), Answer(id, answer)] else []);
    GatedRun(w2, id, gate, answer, grace);
    RunCons(w1, Reserve(id), rest, grace);
    RunCons(w, Arrive(id, key, hash), [Reserve(id)] + rest, grace);
    assert w.rows[key := Row(hash, w.clock, id, [QtReserved])][key := Row(hash, w.clock, id, HistoryOf(gate, answer))]
        == w.rows[key := Row(hash, w.clock, id, HistoryOf(gate, answer))];
    assert w2.log + ActsOf(key, gate)[1..] == w.log + ActsOf(key, gate);
  }
}
