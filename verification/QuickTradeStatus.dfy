// The lifecycle of a Quick Trade order's stored status (api/models.py): a
// submission outcome, never a fill status.
module QuickTradeStatus {

  datatype QtStatus = QtReserved | QtSubmitted | QtRejected | QtFailed | QtBlocked | QtCanceled

  predicate Allowed(from: QtStatus, to: QtStatus) {
    match from
    case QtReserved => to in {QtSubmitted, QtRejected, QtFailed, QtBlocked}
    case QtSubmitted => to == QtCanceled
    case QtRejected | QtFailed | QtBlocked | QtCanceled => false
  }

  // The committed statuses of one row, oldest first, along the table.
  predicate Legal(h: seq<QtStatus>) {
    h != [] && h[0] == QtReserved && forall i :: 0 <= i < |h| - 1 ==> Allowed(h[i], h[i + 1])
  }

  function Now(h: seq<QtStatus>): QtStatus
    requires h != []
  {
    h[|h| - 1]
  }

  // Every legal history is RESERVED, then at most one outcome, then CANCELED only
  // after SUBMITTED - and each of those is legal.
  lemma LegalHistories(h: seq<QtStatus>)
    ensures Legal(h) <==>
              || h == [QtReserved]
              || (|h| == 2 && h[0] == QtReserved && h[1] in {QtSubmitted, QtRejected, QtFailed, QtBlocked})
              || h == [QtReserved, QtSubmitted, QtCanceled]
  {
    if Legal(h) {
      assert |h| > 1 ==> Allowed(h[0], h[1]);
      assert |h| > 2 ==> Allowed(h[1], h[2]);
      assert |h| > 3 ==> Allowed(h[2], h[3]);
      if |h| == 3 { assert h == [h[0], h[1], h[2]]; }
      if |h| == 1 { assert h == [h[0]]; }
    }
  }

  // A request that writes its outcome keeps the history legal exactly when the row
  // it writes to is still RESERVED: the request checks its own copy, not the row.
  lemma OutcomeLegalIff(h: seq<QtStatus>, outcome: QtStatus)
    requires Legal(h) && outcome in {QtSubmitted, QtRejected, QtFailed, QtBlocked}
    ensures Legal(h + [outcome]) <==> Now(h) == QtReserved
  {
    var h' := h + [outcome];
    assert h'[|h| - 1] == Now(h) && h'[|h|] == outcome;
    if Legal(h') { assert Allowed(h'[|h| - 1], h'[|h| - 1 + 1]); }
  }

  lemma CancelLegal(h: seq<QtStatus>)
    requires Legal(h) && Now(h) == QtSubmitted
    ensures Legal(h + [QtCanceled])
  {
  }
}
