// Selling through Quick Trade (api/routers/quick_trade.py, place_order, close_position
// and cancel_order): one credential and symbol, requests one after the other, submits
// that may or may not have landed, recovery, fills and cancels in between. Only a
// submission that arrives after it was given up can make the account owe the broker
// more shares than it holds.
module NoOversell {
  import opened Orders
  import opened Sums
  import opened QuickTradeStatus
  import opened Sellable
  import R = Reservation

  // One sell: what its row says, whether the broker has it, and how many of its shares
  // still rest there.
  datatype SellOrder = SellOrder(key: string, qty: int, status: QtStatus, landed: bool, resting: int)

  datatype Account = Account(held: int, sells: seq<SellOrder>)

  function StatusText(s: QtStatus): string {
    match s
    case QtReserved => "reserved"
    case QtSubmitted => "submitted"
    case QtRejected => "rejected"
    case QtFailed => "failed"
    case QtBlocked => "blocked"
    case QtCanceled => "canceled"
  }

  // What the open-sells query returns: quantities are stored as floats.
  function RowsOf(sells: seq<SellOrder>, symbol: Symbol): seq<OrderRow> {
    seq(|sells|, i requires 0 <= i < |sells| =>
      OrderRow(symbol, "sell", Float(Finite(sells[i].qty as real)), StatusText(sells[i].status)))
  }

  function PendingQty(): SellOrder -> int { (o: SellOrder) => if o.status == QtReserved then o.qty else 0 }
  function RestingQty(): SellOrder -> int { (o: SellOrder) => o.resting }
  // What an order may still take: what rests at the broker, and all of a reservation
  // that has not landed yet.
  function ExposureQty(): SellOrder -> int {
    (o: SellOrder) => if o.landed then o.resting else if o.status == QtReserved then o.qty else 0
  }

  predicate SellOk(o: SellOrder) {
    && o.qty > 0 && 0 <= o.resting <= o.qty
    && (!o.landed ==> o.resting == 0)
  }

  ghost predicate Safe(w: Account) {
    && (forall i :: 0 <= i < |w.sells| ==> SellOk(w.sells[i]))
    && Total(w.sells, ExposureQty()) <= w.held
  }

  // ── What the handlers decide ────────────────────────────────────────────────

  // The broker's answer about the position. NoRow is a known zero; Unanswered covers a
  // failed lookup. A held figure that cannot be read counts as 0.
  datatype Inquiry = Unanswered | NoRow | Position(held: int, orderable: Option<int>)

  function LiveSellable(inquiry: Inquiry, pending: int): SellableResult {
    match inquiry
    case Unanswered => NotKnown(Unreported)
    case NoRow => ResolveSellable(Integer(0), Integer(0), Integer(0), false)
    case Position(held, orderable) =>
      ResolveSellable(Integer(held), if orderable.Some? then Integer(orderable.value) else Null, Integer(pending),
                      false)
  }

  // place_order: the whole request, or nothing.
  function PlaceQty(requested: int, inquiry: Inquiry, pending: int): Option<int> {
    if requested > 0 && ValidateSell(Integer(requested), LiveSellable(inquiry, pending)) then Some(requested) else None
  }

  // close_position: all the broker says is sellable, or the request if it fits; our own
  // pending sells are looked at after the quantity - and so the key - is fixed.
  function CloseQty(requested: Option<int>, inquiry: Inquiry, priced: bool, pending: int): Option<int> {
    var sellable := LiveSellable(inquiry, 0);
    if !sellable.Known? || sellable.qty <= 0 then None
    else
      var qty := if requested.None? then sellable.qty else requested.value;
      if qty <= 0 || qty > sellable.qty || !priced then None
      else if pending == 0 then Some(qty)
      else
        var net := ResolveSellable(Integer(sellable.qty), Integer(sellable.qty), Integer(pending), false);
        if ValidateSell(Integer(qty), net) then Some(qty) else None
  }

  // A truthful inquiry never shows more than is there: not more than is held, and not
  // more orderable than is held and not resting.
  predicate Truthful(w: Account, inquiry: Inquiry) {
    inquiry.Position? ==>
      inquiry.held <= w.held
      && (inquiry.orderable.Some? ==> inquiry.orderable.value <= w.held - Total(w.sells, RestingQty()))
  }

  // ── What can happen ─────────────────────────────────────────────────────────

  // How a submission ends: the gate refuses, the broker refuses, acknowledges, or
  // nobody knows whether it landed.
  datatype Submission = Refused | BrokerSaysNo | Acknowledged | Unclear(landed: bool)

  datatype Event =
    | Place(key: string, requested: int, inquiry: Inquiry, submission: Submission)
    | Close(key: string, wanted: Option<int>, position: Inquiry, priced: bool, closing: Submission)
    | Land(i: nat)                       // a submission nobody heard from arrives
    | Recover(i: nat, found: bool)
    | Fill(i: nat, qty: int)
    | Cancel(i: nat)                     // confirmed by the broker
    | Drop(i: nat)                       // pulled or expired at the broker itself
    | Buy(qty: int)

  predicate KeyIn(sells: seq<SellOrder>, key: string) { exists i :: 0 <= i < |sells| && sells[i].key == key }

  predicate Existing(w: Account, key: string) { KeyIn(w.sells, key) }

  predicate Enabled(w: Account, ev: Event) {
    match ev
    case Place(_, _, inquiry, _) => Truthful(w, inquiry)
    case Close(_, _, inquiry, _, _) => Truthful(w, inquiry)
    // What the gate or the broker refused never arrives; what was given up still may.
    case Land(i) => i < |w.sells| && !w.sells[i].landed && w.sells[i].status !in {QtBlocked, QtRejected}
    // Matching is by side and quantity, so recovery may adopt an order that is not this
    // row's, or fail one that landed.
    case Recover(i, _) => i < |w.sells| && w.sells[i].status == QtReserved
    case Fill(i, qty) => i < |w.sells| && 0 < qty <= w.sells[i].resting
    case Cancel(i) => i < |w.sells| && w.sells[i].status == QtSubmitted
    case Drop(i) => i < |w.sells|
    case Buy(qty) => qty >= 0
  }

  function OrderAfter(key: string, qty: int, submission: Submission): SellOrder {
    match submission
    case Refused => SellOrder(key, qty, QtBlocked, false, 0)
    case BrokerSaysNo => SellOrder(key, qty, QtRejected, false, 0)
    case Acknowledged => SellOrder(key, qty, QtSubmitted, true, qty)
    case Unclear(landed) => SellOrder(key, qty, QtReserved, landed, if landed then qty else 0)
  }

  function Asked(w: Account, key: string, qty: Option<int>, submission: Submission): Account {
    if Existing(w, key) || qty.None? then w
    else w.(sells := w.sells + [OrderAfter(key, qty.value, submission)])
  }

  function With(w: Account, i: nat, o: SellOrder): Account
    requires i < |w.sells|
  {
    w.(sells := w.sells[i := o])
  }

  function Next(w: Account, ev: Event): Account
    requires Enabled(w, ev)
  {
    match ev
    case Place(key, requested, inquiry, submission) =>
      Asked(w, key, PlaceQty(requested, inquiry, Total(w.sells, PendingQty())), submission)
    case Close(key, requested, inquiry, priced, submission) =>
      Asked(w, key, CloseQty(requested, inquiry, priced, Total(w.sells, PendingQty())), submission)
    case Land(i) => With(w, i, w.sells[i].(landed := true, resting := w.sells[i].qty))
    case Recover(i, found) => With(w, i, w.sells[i].(status := if found then QtSubmitted else QtFailed))
    case Fill(i, qty) => With(w, i, w.sells[i].(resting := w.sells[i].resting - qty)).(held := w.held - qty)
    case Cancel(i) => With(w, i, w.sells[i].(status := QtCanceled, resting := 0))
    case Drop(i) => With(w, i, w.sells[i].(resting := 0))
    case Buy(qty) => w.(held := w.held + qty)
  }

  ghost predicate CanRun(w: Account, evs: seq<Event>)
    decreases |evs|
  {
    evs == [] || (Enabled(w, evs[0]) && CanRun(Next(w, evs[0]), evs[1..]))
  }

  ghost function Run(w: Account, evs: seq<Event>): Account
    requires CanRun(w, evs)
    decreases |evs|
  {
    if evs == [] then w else Run(Next(w, evs[0]), evs[1..])
  }

  // ── The account never owes more than it holds ───────────────────────────────

  lemma TotalUpdate(sells: seq<SellOrder>, i: nat, o: SellOrder, f: SellOrder -> int)
    requires i < |sells|
    ensures Total(sells[i := o], f) == Total(sells, f) - f(sells[i]) + f(o)
  {
    TotalPick(sells, i, f);
    TotalPick(sells[i := o], i, f);
    assert sells[i := o][..i] == sells[..i] && sells[i := o][i + 1..] == sells[i + 1..];
  }

  lemma {:induction false} ExposureIsCovered(sells: seq<SellOrder>)
    requires forall i :: 0 <= i < |sells| ==> SellOk(sells[i])
    ensures Total(sells, ExposureQty()) <= Total(sells, RestingQty()) + Total(sells, PendingQty())
    ensures Total(sells, PendingQty()) >= 0 && Total(sells, RestingQty()) >= 0
  {
    if sells != [] {
      assert SellOk(sells[0]);
      forall i | 0 <= i < |sells[1..]| ensures SellOk(sells[1..][i]) { assert sells[1..][i] == sells[i + 1]; }
      ExposureIsCovered(sells[1..]);
    }
  }

  // Whatever either handler lets through fits beside everything it can see.
  lemma AdmittedFits(w: Account, inquiry: Inquiry, pending: int, requested: int, wanted: Option<int>, priced: bool)
    requires Truthful(w, inquiry) && pending >= 0 && w.held >= 0 && Total(w.sells, RestingQty()) >= 0
    ensures var q := PlaceQty(requested, inquiry, pending);
            q.Some? ==> 0 < q.value <= w.held - Total(w.sells, RestingQty()) - pending
    ensures var q := CloseQty(wanted, inquiry, priced, pending);
            q.Some? ==> 0 < q.value <= w.held - Total(w.sells, RestingQty()) - pending
  {
    if PlaceQty(requested, inquiry, pending).Some? { CountUnique(Integer(requested), requested, requested); }
  }

  lemma AskedSafe(w: Account, key: string, qty: Option<int>, submission: Submission)
    requires Safe(w)
    requires qty.Some? ==> 0 < qty.value <= w.held - Total(w.sells, RestingQty()) - Total(w.sells, PendingQty())
    ensures Safe(Asked(w, key, qty, submission))
  {
    if qty.Some? {
      var o := OrderAfter(key, qty.value, submission);
      TotalConcat(w.sells, [o], ExposureQty());
      ExposureIsCovered(w.sells);
    }
  }

  // How a request of the reservation protocol ends, as the account sees it.
  function SubmissionOf(gate: R.GateAnswer, answer: R.SubmitAnswer, landed: bool): Submission {
    if gate != R.Allow then Refused
    else match answer
      case Acknowledged => Acknowledged
      case BrokerRejected => BrokerSaysNo
      case Indeterminate => Unclear(landed)
  }

  // The new row has the status the protocol commits, and rests whole at the broker exactly
  // when it got there: acknowledged, or unheard of and landed all the same.
  lemma SubmittedAs(key: string, qty: int, gate: R.GateAnswer, answer: R.SubmitAnswer, landed: bool)
    ensures var o := OrderAfter(key, qty, SubmissionOf(gate, answer, landed));
            && o.key == key && o.qty == qty && o.status == Now(R.HistoryOf(gate, answer))
            && (o.landed <==> gate == R.Allow && (answer == R.Acknowledged || (answer == R.Indeterminate && landed)))
            && o.resting == if o.landed then qty else 0
  {
  }

  // What the events do to the holding and to one sell: the broker's side by what happens
  // there, the row's status by recovery and a confirmed cancel only, along its table.
  lemma StepMeans(w: Account, ev: Event, k: nat)
    requires Enabled(w, ev) && k < |w.sells|
    ensures var w' := Next(w, ev); var o, o' := w.sells[k], w'.sells[k];
            && w'.held == w.held + (if ev.Buy? then ev.qty else if ev.Fill? then -ev.qty else 0)
            && o'.key == o.key && o'.qty == o.qty
            && o'.landed == (o.landed || ev == Land(k))
            && o'.resting == (if ev == Land(k) then o.qty
                              else if ev.Fill? && ev.i == k then o.resting - ev.qty
                              else if ev == Cancel(k) || ev == Drop(k) then 0 else o.resting)
            && o'.status == (if ev.Recover? && ev.i == k then (if ev.found then QtSubmitted else QtFailed)
                             else if ev == Cancel(k) then QtCanceled else o.status)
            && (o'.status != o.status ==> Allowed(o.status, o'.status))
  {
  }

  // A submission arrives after recovery, or a cancel, gave its quantity up.
  predicate Late(w: Account, ev: Event) {
    ev.Land? && ev.i < |w.sells| && w.sells[ev.i].status != QtReserved
  }

  // Whether what arrives late still fits beside all that may be sold already.
  ghost predicate Fits(w: Account, ev: Event) {
    Late(w, ev) ==> Total(w.sells, ExposureQty()) + w.sells[ev.i].qty <= w.held
  }

  // One step keeps the account safe exactly when it is not a late arrival that does not fit.
  lemma NextSafeIff(w: Account, ev: Event)
    requires Safe(w) && Enabled(w, ev)
    ensures Safe(Next(w, ev)) <==> Fits(w, ev)
  {
    ExposureIsCovered(w.sells);
    ExposureNonNegative(w.sells);
    var pending := Total(w.sells, PendingQty());
    match ev
    case Place(key, requested, inquiry, submission) =>
      AdmittedFits(w, inquiry, pending, requested, None, false);
      AskedSafe(w, key, PlaceQty(requested, inquiry, pending), submission);
    case Close(key, requested, inquiry, priced, submission) =>
      AdmittedFits(w, inquiry, pending, 0, requested, priced);
      AskedSafe(w, key, CloseQty(requested, inquiry, priced, pending), submission);
    case Land(i) => TotalUpdate(w.sells, i, Next(w, ev).sells[i], ExposureQty());
    case Recover(i, _) => TotalUpdate(w.sells, i, Next(w, ev).sells[i], ExposureQty());
    case Fill(i, _) => TotalUpdate(w.sells, i, Next(w, ev).sells[i], ExposureQty());
    case Cancel(i) => TotalUpdate(w.sells, i, Next(w, ev).sells[i], ExposureQty());
    case Drop(i) => TotalUpdate(w.sells, i, Next(w, ev).sells[i], ExposureQty());
    case Buy(_) =>
  }

  lemma {:induction false} ExposureNonNegative(sells: seq<SellOrder>)
    requires forall i :: 0 <= i < |sells| ==> SellOk(sells[i])
    ensures 0 <= Total(sells, RestingQty()) <= Total(sells, ExposureQty())
  {
    if sells != [] {
      assert SellOk(sells[0]);
      forall i | 0 <= i < |sells[1..]| ensures SellOk(sells[1..][i]) { assert sells[1..][i] == sells[i + 1]; }
      ExposureNonNegative(sells[1..]);
    }
  }

  ghost predicate SafeThroughout(w: Account, evs: seq<Event>)
    requires CanRun(w, evs)
    decreases |evs|
  {
    Safe(w) && (evs == [] || SafeThroughout(Next(w, evs[0]), evs[1..]))
  }

  // Every submission that arrives late fits.
  ghost predicate LateOnesFit(w: Account, evs: seq<Event>)
    requires CanRun(w, evs)
    decreases |evs|
  {
    evs == [] || (Fits(w, evs[0]) && LateOnesFit(Next(w, evs[0]), evs[1..]))
  }

  // A safe account stays safe over a run exactly when what arrives late fits.
  lemma {:induction false} SafeThroughoutIff(w: Account, evs: seq<Event>)
    requires Safe(w) && CanRun(w, evs)
    ensures SafeThroughout(w, evs) <==> LateOnesFit(w, evs)
    ensures LateOnesFit(w, evs) ==> Safe(Run(w, evs))
    decreases |evs|
  {
    if evs != [] {
      NextSafeIff(w, evs[0]);
      if Fits(w, evs[0]) { SafeThroughoutIff(Next(w, evs[0]), evs[1..]); }
      else if |evs| > 1 { assert !SafeThroughout(Next(w, evs[0]), evs[1..]); }
    }
  }

  // From any holding, over any run: what rests at the broker plus every reservation
  // that may still land fits in what is held, and so the holding never goes negative.
  lemma NeverOversold(held: int, evs: seq<Event>)
    requires held >= 0 && CanRun(Account(held, []), evs) && LateOnesFit(Account(held, []), evs)
    ensures var w := Run(Account(held, []), evs);
            && Total(w.sells, ExposureQty()) <= w.held
            && 0 <= Total(w.sells, RestingQty()) <= w.held
  {
    SafeThroughoutIff(Account(held, []), evs);
    ExposureNonNegative(Run(Account(held, []), evs).sells);
  }

  // Whatever the account looks like: as long as one sell that was given up has not
  // arrived, there is a run from here - recovery decides the reservations, the free
  // shares are sold, and it arrives - after which more rests at the broker than is held.
  lemma {:induction false} LateLandingOversells(w: Account, i: nat, key: string, k: nat) returns (evs: seq<Event>)
    requires Safe(w) && Enabled(w, Land(i)) && Late(w, Land(i)) && !Existing(w, key)
    requires k <= |w.sells| && forall j :: 0 <= j < k ==> w.sells[j].status != QtReserved
    ensures CanRun(w, evs) && Total(Run(w, evs).sells, RestingQty()) > Run(w, evs).held == w.held
    decreases |w.sells| - k
  {
    if k == |w.sells| {
      evs := SellTheRest(w, i, key);
    } else if w.sells[k].status != QtReserved {
      evs := LateLandingOversells(w, i, key, k + 1);
    } else {
      var w' := Next(w, Recover(k, false));
      NextSafeIff(w, Recover(k, false));
      assert forall j :: 0 <= j < |w.sells| ==> w'.sells[j].key == w.sells[j].key;
      var rest := LateLandingOversells(w', i, key, k + 1);
      evs := [Recover(k, false)] + rest;
      assert evs[1..] == rest;
    }
  }

  lemma SellTheRest(w: Account, i: nat, key: string) returns (evs: seq<Event>)
    requires Safe(w) && Enabled(w, Land(i)) && Late(w, Land(i)) && !Existing(w, key)
    requires forall j :: 0 <= j < |w.sells| ==> w.sells[j].status != QtReserved
    ensures CanRun(w, evs) && Total(Run(w, evs).sells, RestingQty()) > Run(w, evs).held == w.held
  {
    ExposureNonNegative(w.sells);
    NothingPending(w.sells);
    var free := w.held - Total(w.sells, RestingQty());
    assert SellOk(w.sells[i]);
    if free == 0 {
      evs := [Land(i)];
      assert evs[1..] == [];
      TotalUpdate(w.sells, i, Next(w, Land(i)).sells[i], RestingQty());
    } else {
      var sell := Place(key, free, Position(w.held, Some(free)), Acknowledged);
      SellFree(w, free, key);
      var w1 := Next(w, sell);
      evs := [sell, Land(i)];
      assert evs[1..] == [Land(i)] && evs[1..][1..] == [];
      assert w1.sells[i] == w.sells[i];
      TotalUpdate(w1.sells, i, Next(w1, Land(i)).sells[i], RestingQty());
      assert Run(w1, [Land(i)]) == Next(w1, Land(i)) by { assert [Land(i)][1..] == []; }
    }
  }

  // With nothing pending, an inquiry that shows the free shares lets all of them be sold.
  lemma SellFree(w: Account, free: int, key: string)
    requires Safe(w) && !Existing(w, key) && Total(w.sells, PendingQty()) == 0
    requires free == w.held - Total(w.sells, RestingQty()) > 0
    ensures var sell := Place(key, free, Position(w.held, Some(free)), Acknowledged);
            && Enabled(w, sell)
            && Next(w, sell) == w.(sells := w.sells + [SellOrder(key, free, QtSubmitted, true, free)])
            && Total(Next(w, sell).sells, RestingQty()) == w.held
  {
    CountUnique(Integer(free), free, free);
    ExposureNonNegative(w.sells);
    var order := SellOrder(key, free, QtSubmitted, true, free);
    TotalConcat(w.sells, [order], RestingQty());
    assert Total([order], RestingQty()) == free by { assert [order][1..] == []; }
  }

  lemma {:induction false} NothingPending(sells: seq<SellOrder>)
    requires forall j :: 0 <= j < |sells| ==> sells[j].status != QtReserved
    ensures Total(sells, PendingQty()) == 0
  {
    if sells != [] { NothingPending(sells[1..]); }
  }

  // The whole holding asked for, and nobody heard whether it arrived.
  function Unheard(held: int, key: string): Event {
    Place(key, held, Position(held, Some(held)), Unclear(false))
  }

  lemma UnheardStep(held: int, key: string)
    requires held > 0
    ensures var w, ask := Account(held, []), Unheard(held, key);
            && Safe(w) && Enabled(w, ask)
            && Next(w, ask) == Account(held, [SellOrder(key, held, QtReserved, false, 0)])
  {
    CountUnique(Integer(held), held, held);
  }

  lemma GivenUp(held: int, key: string)
    requires held > 0
    ensures var w, gone := Account(held, [SellOrder(key, held, QtReserved, false, 0)]), Recover(0, false);
            && Enabled(w, gone) && Next(w, gone) == Account(held, [SellOrder(key, held, QtFailed, false, 0)])
            && Safe(Next(w, gone))
  {
    var w, gone := Account(held, [SellOrder(key, held, QtReserved, false, 0)]), Recover(0, false);
    assert w.sells[0 := w.sells[0].(status := QtFailed)] == [SellOrder(key, held, QtFailed, false, 0)];
    assert Next(w, gone).sells[1..] == [];
  }

  // And such a sell there can be, whatever is held: one submission nobody heard from,
  // and an inquiry that does not show it.
  lemma OversellingRun(held: int, first: string, second: string) returns (evs: seq<Event>)
    requires held > 0 && first != second
    ensures var w := Account(held, []);
            CanRun(w, evs) && Total(Run(w, evs).sells, RestingQty()) > Run(w, evs).held == held
  {
    var w := Account(held, []);
    UnheardStep(held, first);
    GivenUp(held, first);
    var w2 := Next(Next(w, Unheard(held, first)), Recover(0, false));
    var rest := LateLandingOversells(w2, 0, second, 0);
    evs := [Unheard(held, first), Recover(0, false)] + rest;
    assert evs[1..] == [Recover(0, false)] + rest && evs[1..][1..] == rest;
  }

  // A replay of a key never sells again, whatever it asks for.
  lemma ReplayChangesNothing(w: Account, ev: Event)
    requires Enabled(w, ev)
    requires (ev.Place? || ev.Close?) && exists i :: 0 <= i < |w.sells| && w.sells[i].key == ev.key
    ensures Next(w, ev) == w
  {
  }

  // The pending figure really is what the rows say: reading the open sells back from
  // their stored form gives the total over the reservations.
  lemma {:induction false} PendingOfRows(sells: seq<SellOrder>, symbol: Symbol)
    requires forall i :: 0 <= i < |sells| ==> SellOk(sells[i])
    ensures Total(RowsOf(sells, symbol), HeldBy(symbol)) == Total(sells, PendingQty())
    ensures forall i :: 0 <= i < |sells| ==> AsCount(RowsOf(sells, symbol)[i].qty).Some?
  {
    if sells != [] {
      var rows := RowsOf(sells, symbol);
      assert SellOk(sells[0]);
      forall i | 0 <= i < |sells[1..]| ensures SellOk(sells[1..][i]) { assert sells[1..][i] == sells[i + 1]; }
      assert rows[1..] == RowsOf(sells[1..], symbol);
      PendingOfRows(sells[1..], symbol);
      CountUnique(rows[0].qty, sells[0].qty, sells[0].qty);
      forall i | 0 <= i < |sells| ensures AsCount(rows[i].qty).Some? {
        if i > 0 { assert rows[i] == RowsOf(sells[1..], symbol)[i - 1]; }
      }
    }
  }

  // ── The handlers, step by step ──────────────────────────────────────────────

  datatype Answer = Refusal | Replayed(order: SellOrder) | Sent(order: SellOrder)

  // The broker reported both figures of a position, and the shares, with what is
  // pending, are within both.
  predicate Covers(inquiry: Inquiry, pending: int, shares: int) {
    && inquiry.Position? && inquiry.orderable.Some?
    && shares + pending <= inquiry.held && shares + pending <= inquiry.orderable.value
  }

  // What a close asks for: the request, or the lesser figure.
  function Wanted(wanted: Option<int>, inquiry: Inquiry): int
    requires inquiry.Position? && inquiry.orderable.Some?
  {
    if wanted.Some? then wanted.value
    else if inquiry.held < inquiry.orderable.value then inquiry.held else inquiry.orderable.value
  }

  // A sell is let through exactly when both figures cover it beside what is pending, and
  // then for what was asked, no more and no less.
  lemma PlacedIff(requested: int, inquiry: Inquiry, pending: int)
    requires pending >= 0
    ensures PlaceQty(requested, inquiry, pending) ==
              if requested > 0 && Covers(inquiry, pending, requested) then Some(requested) else None
  {
    if requested > 0 { CountUnique(Integer(requested), requested, requested); }
  }

  lemma ClosedIff(wanted: Option<int>, inquiry: Inquiry, priced: bool, pending: int)
    requires pending >= 0
    ensures CloseQty(wanted, inquiry, priced, pending) ==
              if priced && inquiry.Position? && inquiry.orderable.Some? && Wanted(wanted, inquiry) > 0
                 && Covers(inquiry, pending, Wanted(wanted, inquiry))
              then Some(Wanted(wanted, inquiry)) else None
  {
    if wanted.Some? && wanted.value > 0 { CountUnique(Integer(wanted.value), wanted.value, wanted.value); }
    var sellable := LiveSellable(inquiry, 0);
    if sellable.Known? && sellable.qty > 0 { CountUnique(Integer(sellable.qty), sellable.qty, sellable.qty); }
  }

  class QuickTradeRouter {
    var sells: seq<SellOrder>
    const symbol: Symbol

    ghost predicate Valid()
      reads this
    {
      forall i :: 0 <= i < |sells| ==> SellOk(sells[i])
    }

    constructor (symbol: Symbol)
      ensures Valid() && sells == [] && this.symbol == symbol
    {
      sells := [];
      this.symbol := symbol;
    }

    method FindOrder(key: string) returns (found: Option<SellOrder>)
      ensures found.Some? <==> exists i :: 0 <= i < |sells| && sells[i].key == key
      ensures found.Some? ==> found.value in sells && found.value.key == key
    {
      for i := 0 to |sells|
        invariant forall k :: 0 <= k < i ==> sells[k].key != key
      {
        if sells[i].key == key { return Some(sells[i]); }
      }
      return None;
    }

    method OpenSellQty() returns (pending: Option<int>)
      requires Valid()
      ensures pending == Some(Total(sells, PendingQty()))
    {
      PendingOfRows(sells, symbol);
      pending := PendingSellQty(RowsOf(sells, symbol), symbol);
    }

    // reserve_and_submit, as far as the account can tell.
    // `sameRequest`: the fingerprint stored with the key is this request's.
    method ReserveAndSubmit(key: string, qty: int, submission: Submission, sameRequest: bool)
      returns (answer: Answer)
      requires Valid() && qty > 0
      modifies `sells
      ensures Valid()
      ensures sells == if KeyIn(old(sells), key) then old(sells) else old(sells) + [OrderAfter(key, qty, submission)]
      ensures answer.Sent? <==> !KeyIn(old(sells), key)
      ensures answer.Replayed? ==> answer.order in sells && answer.order.key == key
      ensures KeyIn(old(sells), key) ==> (answer.Replayed? <==> sameRequest)
      ensures answer.Sent? ==> answer.order == OrderAfter(key, qty, submission)
    {
      var existing := FindOrder(key);
      if existing.Some? { return if sameRequest then Replayed(existing.value) else Refusal; }
      var order := OrderAfter(key, qty, submission);
      sells := sells + [order];
      return Sent(order);
    }

    // Whatever the account holds, the sell path of place_order takes the step Place.
    // A key that is known returns its order, or is refused for another request's.
    method PlaceOrder(key: string, requested: int, inquiry: Inquiry, submission: Submission, sameRequest: bool)
      returns (answer: Answer)
      requires Valid()
      modifies `sells
      ensures Valid()
      ensures forall held :: Account(held, sells) ==
                Asked(Account(held, old(sells)), key,
                      PlaceQty(requested, inquiry, Total(old(sells), PendingQty())), submission)
      ensures requested > 0 && KeyIn(old(sells), key) ==>
                if sameRequest then answer.Replayed? && answer.order in sells && answer.order.key == key
                else answer == Refusal
      ensures answer.Sent? <==> requested > 0 && !KeyIn(old(sells), key)
                                && Covers(inquiry, Total(old(sells), PendingQty()), requested)
      ensures answer.Sent? ==> answer.order.qty == requested && answer.order.key == key
                               && sells == old(sells) + [answer.order]
      ensures !answer.Sent? ==> sells == old(sells)
    {
      ExposureIsCovered(sells);
      PlacedIff(requested, inquiry, Total(sells, PendingQty()));
      if requested <= 0 { return Refusal; }
      var existing := FindOrder(key);
      if existing.None? {
        var pending := OpenSellQty();
        if pending.None? { return Refusal; }
        var sellable := LiveSellable(inquiry, pending.value);
        if !ValidateSell(Integer(requested), sellable) { return Refusal; }
      }
      answer := ReserveAndSubmit(key, requested, submission, sameRequest);
    }

    // A key the client supplied is looked up first: its replay must not be judged
    // against a figure its own order has already reduced.
    method ClosePosition(key: string, wanted: Option<int>, inquiry: Inquiry, priced: bool, submission: Submission,
                         supplied: bool, sameRequest: bool)
      returns (answer: Answer)
      requires Valid()
      modifies `sells
      ensures Valid()
      ensures forall held :: Account(held, sells) ==
                Asked(Account(held, old(sells)), key,
                      CloseQty(wanted, inquiry, priced, Total(old(sells), PendingQty())), submission)
      ensures supplied && KeyIn(old(sells), key) ==>
                if sameRequest then answer.Replayed? && answer.order.key == key else answer == Refusal
      ensures answer.Sent? <==>
                && !KeyIn(old(sells), key) && priced && inquiry.Position? && inquiry.orderable.Some?
                && Wanted(wanted, inquiry) > 0
                && Covers(inquiry, Total(old(sells), PendingQty()), Wanted(wanted, inquiry))
      ensures answer.Sent? ==> answer.order.qty == Wanted(wanted, inquiry) && answer.order.key == key
                               && sells == old(sells) + [answer.order]
      ensures !answer.Sent? ==> sells == old(sells)
    {
      ExposureIsCovered(sells);
      ClosedIff(wanted, inquiry, priced, Total(sells, PendingQty()));
      if supplied {
        var replay := FindOrder(key);
        if replay.Some? { return if sameRequest then Replayed(replay.value) else Refusal; }
      }
      var sellable := LiveSellable(inquiry, 0);
      if !sellable.Known? || sellable.qty <= 0 { return Refusal; }
      var qty := if wanted.None? then sellable.qty else wanted.value;
      if qty <= 0 || qty > sellable.qty || !priced { return Refusal; }
      var existing := FindOrder(key);
      var pending := Some(0);
      if existing.None? { pending := OpenSellQty(); }
      if pending.None? { return Refusal; }
      if pending.value != 0 {
        var net := ResolveSellable(Integer(sellable.qty), Integer(sellable.qty), Integer(pending.value), false);
        if !ValidateSell(Integer(qty), net) { return Refusal; }
      }
      answer := ReserveAndSubmit(key, qty, submission, sameRequest);
    }
  }
}
