// How much may be sold (backend/risk/sellable_qty.py): held is not sellable, unknown
// is not zero, and what cannot be read as a share count blocks.
module Sellable {
  import opened Basics
  import opened Orders
  import opened Sums

  // What a field may hold. A count is a whole, finite, non-negative number that is not
  // a bool.
  datatype Number = NaN | Infinity(negative: bool) | Finite(r: real)
  datatype Value = Null | Bool(b: bool) | Text(s: string) | Integer(n: int) | Float(x: Number)

  predicate IsCount(v: Value, n: int) {
    n >= 0 && (v == Integer(n) || v == Float(Finite(n as real)))
  }

  function AsCount(v: Value): (r: Option<int>)
    ensures r.Some? ==> IsCount(v, r.value)
    ensures r.None? ==> forall n :: !IsCount(v, n)
  {
    match v
    case Integer(n) => if n < 0 then None else Some(n)
    case Float(Finite(r)) =>
      if r < 0.0 then None
      else if r != r.Floor as real then None
      else Some(r.Floor)
    case Null | Bool(_) | Text(_) | Float(_) => None
  }

  lemma CountUnique(v: Value, n: int, m: int)
    requires IsCount(v, n) && IsCount(v, m)
    ensures n == m && AsCount(v) == Some(n)
  {
    if v.Float? { assert n as real == m as real; }
  }

  datatype Cause = Unreported | Untrusted
  datatype SellableResult = Known(qty: int) | NotKnown(cause: Cause)

  // Null as the broker's figure is "not reported".
  function ResolveSellable(held: Value, broker: Value, pending: Value, brokerNets: bool): (r: SellableResult)
    ensures r.Known? <==> AsCount(held).Some? && AsCount(broker).Some? && AsCount(pending).Some?
    ensures r.Known? ==>
              var h, b, p := AsCount(held).value, AsCount(broker).value, AsCount(pending).value;
              && 0 <= r.qty <= h && r.qty <= b
              && (if brokerNets then r.qty == Min(h, b) else r.qty + p == Max(p, Min(h, b)))
    ensures r == NotKnown(Unreported) <==> AsCount(held).Some? && broker == Null
  {
    var h, b, p := AsCount(held), AsCount(broker), AsCount(pending);
    if h.None? then NotKnown(Untrusted)
    else if broker == Null then NotKnown(Unreported)
    else if b.None? || p.None? then NotKnown(Untrusted)
    else Known(Max(0, Min(b.value, h.value) - if brokerNets then 0 else p.value))
  }

  // A request passes exactly when the figure is known and it is a positive whole number
  // within it: never clamped, never guessed.
  function ValidateSell(requested: Value, sellable: SellableResult): (ok: bool)
    ensures ok <==> sellable.Known? && exists n :: IsCount(requested, n) && 0 < n <= sellable.qty
  {
    var n := AsCount(requested);
    if n.Some? then
      assert IsCount(requested, n.value);
      assert forall m :: IsCount(requested, m) ==> m == n.value by {
        forall m | IsCount(requested, m) ensures m == n.value { CountUnique(requested, m, n.value); }
      }
      sellable.Known? && 0 < n.value <= sellable.qty
    else false
  }

  // ── What our own open sells still hold ──────────────────────────────────────

  // Symbol, side and status as compared: upper- and lower-cased already.
  datatype OrderRow = OrderRow(symbol: Symbol, side: string, qty: Value, status: string)

  const RELEASED: set<string> := {"submitted", "rejected", "failed", "blocked", "canceled"}

  predicate Open(r: OrderRow, symbol: Symbol) {
    r.symbol == symbol && r.side == "sell" && r.status !in RELEASED
  }

  function HeldBy(symbol: Symbol): OrderRow -> int {
    (r: OrderRow) => if Open(r, symbol) && AsCount(r.qty).Some? then AsCount(r.qty).value else 0
  }

  // None is the ValueError: one open sell of this symbol cannot be read, so what is
  // outstanding cannot be bounded.
  method PendingSellQty(rows: seq<OrderRow>, symbol: Symbol) returns (total: Option<int>)
    ensures total.None? <==> exists i :: 0 <= i < |rows| && Open(rows[i], symbol) && AsCount(rows[i].qty).None?
    ensures total.Some? ==> total.value == Total(rows, HeldBy(symbol))
  {
    var sum := 0;
    for i := 0 to |rows|
      invariant forall k :: 0 <= k < i && Open(rows[k], symbol) ==> AsCount(rows[k].qty).Some?
      invariant sum == Total(rows[..i], HeldBy(symbol))
    {
      var row := rows[i];
      assert rows[..i + 1] == rows[..i] + [row];
      TotalConcat(rows[..i], [row], HeldBy(symbol));
      if row.symbol != symbol || row.side != "sell" || row.status in RELEASED { continue; }
      var counted := AsCount(row.qty);
      if counted.None? { return None; }
      sum := sum + counted.value;
    }
    assert rows[..|rows|] == rows;
    return Some(sum);
  }

  // A row holds its quantity exactly when it is a sell of the symbol that neither the
  // broker has acknowledged nor anything ended - a status nobody knows is neither, so an
  // unrecognised row never makes more sellable.
  lemma HoldsIff(rows: seq<OrderRow>, row: OrderRow, symbol: Symbol, n: int)
    requires IsCount(row.qty, n)
    ensures var released := || row.status == "submitted" || row.status == "rejected" || row.status == "failed"
                            || row.status == "blocked" || row.status == "canceled";
            Total(rows + [row], HeldBy(symbol)) ==
              Total(rows, HeldBy(symbol)) + if row.symbol == symbol && row.side == "sell" && !released then n else 0
  {
    CountUnique(row.qty, n, n);
    TotalConcat(rows, [row], HeldBy(symbol));
    assert Total([row], HeldBy(symbol)) == HeldBy(symbol)(row) by { assert [row][1..] == []; }
  }
}
