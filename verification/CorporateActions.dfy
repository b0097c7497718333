// Splits, dividends and ticker changes (backend/data/corporate_actions.py): how a jump
// in the held quantity is classified, how a chain of actions adjusts a position, and
// which symbols stay blocked.
module CorporateActions {
  import opened Orders
  import opened Reals
  import opened Sums

  datatype Kind = Split | ReverseSplit | CashDividend | TickerChange | UnknownKind
  datatype Standing = Confirmed | Unconfirmed | UnknownStanding

  // What the detail text says, as far as two texts can differ.
  datatype Detail = NoDetail | Note(text: string) | Jump(dbQty: int, dbAvg: real, brokerQty: int, brokerAvg: real)

  // ratio: new shares per old share; cash: dividend per share; "" is no new symbol.
  datatype Action = Action(
    kind: Kind, symbol: Symbol, date: int, status: Standing,
    ratio: Option<real>, cash: Option<real>, newSymbol: Symbol, detail: Detail)

  predicate IsValid(a: Action) {
    match a.kind
    case Split | ReverseSplit => a.ratio.Some? && a.ratio.value > 0.0 && a.ratio.value != 1.0
    case CashDividend => a.cash.Some? && a.cash.value > 0.0
    case TickerChange => a.newSymbol != ""
    case UnknownKind => false
  }

  const SUPPORTED: set<Kind> := {Split, ReverseSplit, CashDividend, TickerChange}

  function Classified(a: Action): (r: Action)
    ensures IsValid(r) <==> IsValid(a)
    ensures IsValid(a) ==> r == a
    ensures !IsValid(a) ==>
              r == a.(status := UnknownStanding, detail := r.detail) && r.detail != NoDetail
              && (a.detail != NoDetail ==> r.detail == a.detail)
  {
    if IsValid(a) then a
    else a.(status := UnknownStanding,
            detail := if a.detail == NoDetail then Note("incomplete or invalid fields for action_type") else a.detail)
  }

  // What keeps an action from being applied: a kind nobody knows, a ratio or an amount that is
  // missing or not positive, a ratio of one, no new symbol.
  lemma InvalidIff(a: Action)
    ensures !IsValid(a) <==>
              || a.kind == UnknownKind
              || (a.kind in {Split, ReverseSplit} && (a.ratio == None || a.ratio.value <= 0.0 || a.ratio == Some(1.0)))
              || (a.kind == CashDividend && (a.cash == None || a.cash.value <= 0.0))
              || (a.kind == TickerChange && |a.newSymbol| == 0)
  {
  }

  // ── Which split a quantity jump is ──────────────────────────────────────────

  const KNOWN_RATIOS: seq<real> :=
    [1.5, 2.0, 2.5, 3.0, 4.0, 5.0, 6.0, 7.0, 8.0, 10.0, 15.0, 20.0, 25.0, 50.0, 100.0]

  const TOLERANCE := 0.02
  const VALUE_TOLERANCE := 0.01
  const VALUE_FLOOR := 0.000001

  // up: the quantity grew r-fold (a split); otherwise it shrank r-fold.
  datatype Match = Match(up: bool, r: real)

  function Target(m: Match): real
    requires m.r > 0.0
  {
    if m.up then m.r else 1.0 / m.r
  }

  predicate Fits(ratio: real, m: Match)
    requires m.r > 0.0
  {
    Abs(ratio - Target(m)) <= TOLERANCE * Target(m)
  }

  predicate Sound(ratios: seq<real>) {
    forall r :: r in ratios ==> r in KNOWN_RATIOS
  }

  lemma KnownPositive(r: real)
    requires r in KNOWN_RATIOS
    ensures r >= 1.5
  {
  }

  // Two known ratios differ by at least 8/7, so their 2% windows do not meet.
  lemma KnownApart(i: nat, j: nat)
    requires i < j < |KNOWN_RATIOS|
    ensures 8.0 * KNOWN_RATIOS[i] <= 7.0 * KNOWN_RATIOS[j]
  {
  }

  lemma RatiosApart(r: real, s: real)
    requires r in KNOWN_RATIOS && s in KNOWN_RATIOS && r != s
    ensures 8.0 * r <= 7.0 * s || 8.0 * s <= 7.0 * r
  {
    var i :| 0 <= i < |KNOWN_RATIOS| && KNOWN_RATIOS[i] == r;
    var j :| 0 <= j < |KNOWN_RATIOS| && KNOWN_RATIOS[j] == s;
    if i < j { KnownApart(i, j); } else { KnownApart(j, i); }
  }

  lemma Window(ratio: real, m: Match)
    requires m.r > 0.0 && Fits(ratio, m)
    ensures m.up ==> 0.98 * m.r <= ratio <= 1.02 * m.r
    ensures !m.up ==> 0.98 <= ratio * m.r <= 1.02
  {
    if !m.up {
      var t := 1.0 / m.r;
      assert t * m.r == 1.0;
      MulMono(0.98 * t, ratio, m.r);
      MulMono(ratio, 1.02 * t, m.r);
      assert 0.98 * t * m.r == 0.98 * (t * m.r);
      assert 1.02 * t * m.r == 1.02 * (t * m.r);
    }
  }

  lemma GrewOrShrank(ratio: real, up: Match, down: Match)
    requires up.r >= 1.5 && down.r >= 1.5 && up.up && !down.up
    ensures !(Fits(ratio, up) && Fits(ratio, down))
  {
    if Fits(ratio, up) {
      Window(ratio, up);
      MulMono(1.47, ratio, down.r);
      if Fits(ratio, down) { Window(ratio, down); }
    }
  }

  lemma ShrankByOne(ratio: real, lo: Match, hi: Match)
    requires 0.0 < lo.r && 8.0 * lo.r <= 7.0 * hi.r && !lo.up && !hi.up
    ensures !(Fits(ratio, lo) && Fits(ratio, hi))
  {
    if Fits(ratio, lo) && Fits(ratio, hi) {
      Window(ratio, lo);
      Window(ratio, hi);
      ProductsApart(ratio, lo.r, hi.r, ratio * lo.r, ratio * hi.r);
    }
  }

  lemma ProductsApart(ratio: real, lo: real, hi: real, x: real, y: real)
    requires 0.0 < lo && 8.0 * lo <= 7.0 * hi && x == ratio * lo && y == ratio * hi && x >= 0.98
    ensures y > 1.02
  {
    assert ratio > 0.0 by { if ratio <= 0.0 { MulMono(ratio, 0.0, lo); } }
    MulMono(8.0 * lo, 7.0 * hi, ratio);
    assert 8.0 * (ratio * lo) <= 7.0 * (ratio * hi);
  }

  lemma GrewByOne(ratio: real, lo: Match, hi: Match)
    requires 0.0 < lo.r && 8.0 * lo.r <= 7.0 * hi.r && lo.up && hi.up
    ensures !(Fits(ratio, lo) && Fits(ratio, hi))
  {
    if Fits(ratio, lo) {
      Window(ratio, lo);
      if Fits(ratio, hi) { Window(ratio, hi); }
    }
  }

  // A ratio fits at most one known split or reverse split.
  lemma MatchUnique(ratio: real, m: Match, n: Match)
    requires m.r in KNOWN_RATIOS && n.r in KNOWN_RATIOS
    requires m.r > 0.0 && n.r > 0.0 && Fits(ratio, m) && Fits(ratio, n)
    ensures m == n
  {
    KnownPositive(m.r);
    KnownPositive(n.r);
    if m.up && !n.up { GrewOrShrank(ratio, m, n); }
    if !m.up && n.up { GrewOrShrank(ratio, n, m); }
    if m.r != n.r {
      RatiosApart(m.r, n.r);
      var lo, hi := if m.r < n.r then m else n, if m.r < n.r then n else m;
      if m.up { GrewByOne(ratio, lo, hi); } else { ShrankByOne(ratio, lo, hi); }
    }
  }

  // The loop of the classifier, over the candidate list in any order.
  method FindMatch(ratio: real, ratios: seq<real>) returns (found: Option<Match>)
    requires Sound(ratios)
    ensures found.Some? ==> found.value.r in ratios && found.value.r > 0.0 && Fits(ratio, found.value)
    ensures forall m: Match :: m.r in ratios && m.r > 0.0 && Fits(ratio, m) ==> found == Some(m)
  {
    found := None;
    for i := 0 to |ratios|
      invariant forall m: Match :: m.r in ratios[..i] && m.r > 0.0 ==> !Fits(ratio, m)
    {
      var r := ratios[i];
      KnownPositive(r);
      if Fits(ratio, Match(true, r)) { found := Some(Match(true, r)); break; }
      if Fits(ratio, Match(false, r)) { found := Some(Match(false, r)); break; }
      forall m: Match | m.r in ratios[..i + 1] && m.r > 0.0 ensures !Fits(ratio, m) {
        if m.r == r { assert m == Match(true, r) || m == Match(false, r); }
      }
    }
    if found.Some? {
      forall m: Match | m.r in ratios && m.r > 0.0 && Fits(ratio, m) ensures found == Some(m) {
        MatchUnique(ratio, m, found.value);
      }
    }
  }

  predicate ValuePreserved(before: real, after: real) {
    Abs(after - before) <= VALUE_FLOOR || Abs(after - before) <= Abs(before) * VALUE_TOLERANCE
  }

  ghost predicate Signature(dbQty: int, brokerQty: int, m: Match) {
    dbQty > 0 && brokerQty > 0 && m.r in KNOWN_RATIOS && m.r > 0.0
    && Fits(brokerQty as real / dbQty as real, m)
  }

  // The known split the quantities look like; MatchUnique says there is at most one.
  ghost function TheSignature(dbQty: int, brokerQty: int): (found: Option<Match>)
    ensures found.Some? ==> Signature(dbQty, brokerQty, found.value)
    ensures found.None? ==> forall m :: !Signature(dbQty, brokerQty, m)
  {
    if exists m :: Signature(dbQty, brokerQty, m)
    then var m :| Signature(dbQty, brokerQty, m); Some(m)
    else None
  }

  // How the reconciler labels a quantity jump.
  ghost function JumpAction(symbol: Symbol, dbQty: int, dbAvg: real, brokerQty: int, brokerAvg: real,
                            date: int): Action
  {
    var m := TheSignature(dbQty, brokerQty);
    var detail := Jump(dbQty, dbAvg, brokerQty, brokerAvg);
    if m.Some? && ValuePreserved(dbQty as real * dbAvg, brokerQty as real * brokerAvg)
    then Action(if m.value.up then Split else ReverseSplit, symbol, date, Confirmed, Some(Target(m.value)), None, "",
                detail)
    else Action(UnknownKind, symbol, date, UnknownStanding, None, None, "", detail)
  }

  method FindSignature(dbQty: int, brokerQty: int) returns (found: Option<Match>)
    ensures found == TheSignature(dbQty, brokerQty)
  {
    if dbQty <= 0 || brokerQty <= 0 { return None; }
    found := FindMatch(brokerQty as real / dbQty as real, KNOWN_RATIOS);
    if found.Some? {
      assert Signature(dbQty, brokerQty, found.value);
      SignatureUnique(dbQty, brokerQty, found.value, TheSignature(dbQty, brokerQty).value);
    }
  }

  lemma TargetIsRatio(m: Match)
    requires m.r in KNOWN_RATIOS
    ensures m.r > 0.0 && Target(m) > 0.0 && Target(m) != 1.0
  {
    KnownPositive(m.r);
    assert (1.0 / m.r) * m.r == 1.0;
  }

  method ClassifyQuantityJump(symbol: Symbol, dbQty: int, dbAvg: real, brokerQty: int, brokerAvg: real, date: int)
    returns (a: Action)
    ensures a == JumpAction(symbol, dbQty, dbAvg, brokerQty, brokerAvg, date)
    ensures a.status == Confirmed <==>
              LooksSplit(dbQty, brokerQty) && SameValue(dbQty, dbAvg, brokerQty, brokerAvg)
  {
    ConfirmedIff(symbol, dbQty, dbAvg, brokerQty, brokerAvg, date);
    var found := FindSignature(dbQty, brokerQty);
    var detail := Jump(dbQty, dbAvg, brokerQty, brokerAvg);
    if found.Some? {
      if ValuePreserved(dbQty as real * dbAvg, brokerQty as real * brokerAvg) {
        return Action(if found.value.up then Split else ReverseSplit, symbol, date, Confirmed,
                      Some(Target(found.value)), None, "", detail);
      }
    }
    a := Action(UnknownKind, symbol, date, UnknownStanding, None, None, "", detail);
  }

  lemma SignatureUnique(dbQty: int, brokerQty: int, m: Match, n: Match)
    requires Signature(dbQty, brokerQty, m) && Signature(dbQty, brokerQty, n)
    ensures m == n
  {
    MatchUnique(brokerQty as real / dbQty as real, m, n);
  }

  // The broker's quantity is within 2% of r times ours, or r times the broker's of ours.
  predicate GrewBy(dbQty: int, brokerQty: int, r: real) {
    Abs(brokerQty as real - r * dbQty as real) <= 0.02 * (r * dbQty as real)
  }

  predicate ShrankBy(dbQty: int, brokerQty: int, r: real) {
    Abs(brokerQty as real * r - dbQty as real) <= 0.02 * dbQty as real
  }

  // The book value moved by at most 1%, or a millionth.
  predicate SameValue(dbQty: int, dbAvg: real, brokerQty: int, brokerAvg: real) {
    var before, after := dbQty as real * dbAvg, brokerQty as real * brokerAvg;
    -Max(0.000001, 0.01 * Abs(before)) <= after - before <= Max(0.000001, 0.01 * Abs(before))
  }

  predicate KnownRatio(r: real) {
    r in {1.5, 2.0, 2.5, 3.0, 4.0, 5.0, 6.0, 7.0, 8.0, 10.0, 15.0, 20.0, 25.0, 50.0, 100.0}
  }

  lemma KnownRatioIff(r: real)
    ensures KnownRatio(r) <==> r in KNOWN_RATIOS
  {
  }

  lemma FitsUp(dbQty: int, brokerQty: int, r: real)
    requires dbQty > 0 && r > 0.0
    ensures Fits(brokerQty as real / dbQty as real, Match(true, r)) <==> GrewBy(dbQty, brokerQty, r)
  {
    var q, d := brokerQty as real / dbQty as real, dbQty as real;
    assert q * d == brokerQty as real;
    AbsScale(q - r, d);
    assert (q - r) * d == brokerQty as real - r * d;
    CompareScaled(Abs(q - r), 0.02 * r, d);
  }

  lemma FitsDown(dbQty: int, brokerQty: int, r: real)
    requires dbQty > 0 && r > 0.0
    ensures Fits(brokerQty as real / dbQty as real, Match(false, r)) <==> ShrankBy(dbQty, brokerQty, r)
  {
    var q, d, t := brokerQty as real / dbQty as real, dbQty as real, 1.0 / r;
    assert q * d == brokerQty as real && t * r == 1.0;
    ScaledDown(q, t, r, d, brokerQty as real);
    AbsScale((q - t) * r, d);
    AbsScale(q - t, r);
    CompareScaled(Abs(q - t), 0.02 * t, r);
    assert 0.02 * t * r == 0.02 * (t * r);
    CompareScaled(Abs(q - t) * r, 0.02, d);
  }

  lemma ScaledDown(q: real, t: real, r: real, d: real, b: real)
    requires q * d == b && t * r == 1.0
    ensures (q - t) * r * d == b * r - d
  {
    assert (q - t) * r == q * r - 1.0;
    assert q * r * d == (q * d) * r;
  }

  lemma AbsScale(x: real, k: real)
    requires k > 0.0
    ensures Abs(x * k) == Abs(x) * k
  {
    if x < 0.0 { StrictMono(x, 0.0, k); } else { MulMono(0.0, x, k); }
  }

  lemma CompareScaled(x: real, y: real, k: real)
    requires k > 0.0
    ensures x <= y <==> x * k <= y * k
  {
    if x <= y { MulMono(x, y, k); } else { StrictMono(y, x, k); }
  }

  // Both sides hold shares, and in a known ratio, one way or the other.
  ghost predicate LooksSplit(dbQty: int, brokerQty: int) {
    && dbQty > 0 && brokerQty > 0
    && exists r :: KnownRatio(r) && (GrewBy(dbQty, brokerQty, r) || ShrankBy(dbQty, brokerQty, r))
  }

  lemma SignatureIff(dbQty: int, brokerQty: int)
    ensures TheSignature(dbQty, brokerQty).Some? <==> LooksSplit(dbQty, brokerQty)
  {
    var found := TheSignature(dbQty, brokerQty);
    if found.Some? {
      var m := found.value;
      KnownRatioIff(m.r);
      if m.up { FitsUp(dbQty, brokerQty, m.r); } else { FitsDown(dbQty, brokerQty, m.r); }
      assert m == Match(m.up, m.r);
    }
    if dbQty > 0 && brokerQty > 0 {
      forall r | KnownRatio(r) && (GrewBy(dbQty, brokerQty, r) || ShrankBy(dbQty, brokerQty, r)) ensures found.Some? {
        KnownRatioIff(r);
        KnownPositive(r);
        FitsUp(dbQty, brokerQty, r);
        FitsDown(dbQty, brokerQty, r);
        assert Signature(dbQty, brokerQty, Match(GrewBy(dbQty, brokerQty, r), r));
      }
    }
  }

  // A jump is confirmed exactly when the quantities are within 2% of some known ratio, one
  // way or the other, and the book value within 1%; it is then a split by that ratio, or a
  // reverse split by its inverse.
  lemma ConfirmedIff(symbol: Symbol, dbQty: int, dbAvg: real, brokerQty: int, brokerAvg: real, date: int)
    ensures JumpAction(symbol, dbQty, dbAvg, brokerQty, brokerAvg, date).status == Confirmed <==>
              LooksSplit(dbQty, brokerQty) && SameValue(dbQty, dbAvg, brokerQty, brokerAvg)
    ensures var a := JumpAction(symbol, dbQty, dbAvg, brokerQty, brokerAvg, date);
            a.status == Confirmed ==>
              && a.symbol == symbol && a.date == date && a.ratio.Some?
              && ((a.kind == Split && KnownRatio(a.ratio.value) && GrewBy(dbQty, brokerQty, a.ratio.value))
                  || (a.kind == ReverseSplit && exists r ::
                        KnownRatio(r) && ShrankBy(dbQty, brokerQty, r) && a.ratio.value * r == 1.0))
  {
    SignatureIff(dbQty, brokerQty);
    var found := TheSignature(dbQty, brokerQty);
    if found.Some? {
      var m := found.value;
      KnownRatioIff(m.r);
      if m.up { FitsUp(dbQty, brokerQty, m.r); } else { FitsDown(dbQty, brokerQty, m.r); }
      assert m == Match(m.up, m.r) && (1.0 / m.r) * m.r == 1.0;
    }
  }

  // A confirmed jump is a complete split or reverse split by the one ratio that fits,
  // so it can be applied; what is not confirmed has an unknown kind and cannot.
  lemma ApplicableIffConfirmed(symbol: Symbol, dbQty: int, dbAvg: real, brokerQty: int, brokerAvg: real, date: int)
    ensures var a := JumpAction(symbol, dbQty, dbAvg, brokerQty, brokerAvg, date);
            && (IsValid(a) <==> a.status == Confirmed)
            && (a.status != Confirmed ==> a.kind == UnknownKind)
            && Classified(a) == a
            && forall m :: a.status == Confirmed && Signature(dbQty, brokerQty, m) ==>
                 a.kind == (if m.up then Split else ReverseSplit) && a.ratio == Some(Target(m))
  {
    var found := TheSignature(dbQty, brokerQty);
    if found.Some? {
      TargetIsRatio(found.value);
      forall m | Signature(dbQty, brokerQty, m) ensures m == found.value {
        SignatureUnique(dbQty, brokerQty, m, found.value);
      }
    }
  }

  // ── Adjusting prices and positions ──────────────────────────────────────────

  datatype Factor = Factor(price: real, qty: real, cash: real, newSymbol: Symbol)
  datatype Snapshot = Snapshot(symbol: Symbol, qty: real, avg: real)
  datatype Bar = Bar(symbol: Symbol, prices: seq<Option<real>>, volume: Option<real>)

  function FactorFor(a: Action): Factor {
    match a.kind
    case Split | ReverseSplit =>
      var ratio := if a.ratio.Some? && a.ratio.value != 0.0 then a.ratio.value else 1.0;
      Factor(1.0 / ratio, ratio, 0.0, "")
    case CashDividend => Factor(1.0, 1.0, if a.cash.Some? then a.cash.value else 0.0, "")
    case TickerChange => Factor(1.0, 1.0, 0.0, a.newSymbol)
    case UnknownKind => Factor(1.0, 1.0, 0.0, "")
  }

  function Adjust(p: Snapshot, f: Factor): Snapshot {
    Snapshot(if f.newSymbol == "" then p.symbol else f.newSymbol, p.qty * f.qty, p.avg * f.price)
  }

  function Value(p: Snapshot): real { p.qty * p.avg }

  function CashOf(p: Snapshot, f: Factor): real { p.qty * f.cash }

  function Times(x: Option<real>, k: real): Option<real> {
    if x.Some? then Some(x.value * k) else None
  }

  function AdjustBar(b: Bar, f: Factor): Bar {
    Bar(if f.newSymbol == "" then b.symbol else f.newSymbol,
        seq(|b.prices|, i requires 0 <= i < |b.prices| => Times(b.prices[i], f.price)),
        Times(b.volume, f.qty))
  }

  function AdjustBars(bars: seq<Bar>, f: Factor): seq<Bar> {
    seq(|bars|, i requires 0 <= i < |bars| => AdjustBar(bars[i], f))
  }

  function Factors(actions: seq<Action>): (fs: seq<Factor>)
    ensures |fs| == |actions| && forall i :: 0 <= i < |fs| ==> fs[i] == FactorFor(actions[i])
  {
    seq(|actions|, i requires 0 <= i < |actions| => FactorFor(actions[i]))
  }

  // The product of a chain of factors; cash and symbols are not combined.
  function Combine(fs: seq<Factor>): Factor {
    if fs == [] then Factor(1.0, 1.0, 0.0, "")
    else
      var c, f := Combine(fs[..|fs| - 1]), fs[|fs| - 1];
      Factor(c.price * f.price, c.qty * f.qty, 0.0, "")
  }

  // One factor after the other.
  function Chained(p: Snapshot, fs: seq<Factor>): Snapshot {
    if fs == [] then p else Adjust(Chained(p, fs[..|fs| - 1]), fs[|fs| - 1])
  }

  function ChainedBars(bars: seq<Bar>, fs: seq<Factor>): seq<Bar> {
    if fs == [] then bars else AdjustBars(ChainedBars(bars, fs[..|fs| - 1]), fs[|fs| - 1])
  }

  // Every dividend pays on the quantity held when its turn comes.
  function Dividends(p: Snapshot, fs: seq<Factor>): real {
    if fs == [] then 0.0
    else Dividends(p, fs[..|fs| - 1]) + CashOf(Chained(p, fs[..|fs| - 1]), fs[|fs| - 1])
  }

  predicate IsSplit(a: Action) { (a.kind == Split || a.kind == ReverseSplit) && IsValid(a) }

  predicate KeepsValue(f: Factor) { f.qty * f.price == 1.0 && f.cash == 0.0 && f.newSymbol == "" }

  lemma SplitKeepsValue(a: Action)
    requires IsSplit(a)
    ensures KeepsValue(FactorFor(a)) && FactorFor(a).qty == a.ratio.value
  {
  }

  lemma Reassociate(q: real, c: real, f: real, qc: real, cf: real)
    requires qc == q * c && cf == c * f
    ensures qc * f == q * cf
  {
  }

  lemma ProductOfInverses(a: real, b: real, x: real, y: real, aTimesX: real, bTimesY: real)
    requires a * b == 1.0 && x * y == 1.0 && aTimesX == a * x && bTimesY == b * y
    ensures aTimesX * bTimesY == 1.0
  {
    assert (a * x) * (b * y) == (a * b) * (x * y);
  }

  lemma ValueKept(q: real, p: real, cq: real, cp: real, newQ: real, newP: real)
    requires cq * cp == 1.0 && newQ == q * cq && newP == p * cp
    ensures newQ * newP == q * p
  {
    assert (q * cq) * (p * cp) == (q * p) * (cq * cp);
  }

  lemma {:induction false} ChainedQty(p: Snapshot, fs: seq<Factor>)
    ensures Chained(p, fs).qty == p.qty * Combine(fs).qty
  {
    if fs != [] {
      ChainedQty(p, fs[..|fs| - 1]);
      Reassociate(p.qty, Combine(fs[..|fs| - 1]).qty, fs[|fs| - 1].qty, Chained(p, fs[..|fs| - 1]).qty,
                  Combine(fs).qty);
    }
  }

  lemma {:induction false} ChainedAvg(p: Snapshot, fs: seq<Factor>)
    ensures Chained(p, fs).avg == p.avg * Combine(fs).price
  {
    if fs != [] {
      ChainedAvg(p, fs[..|fs| - 1]);
      Reassociate(p.avg, Combine(fs[..|fs| - 1]).price, fs[|fs| - 1].price,
                  Chained(p, fs[..|fs| - 1]).avg, Combine(fs).price);
    }
  }

  lemma {:induction false} CombineKeepsValue(fs: seq<Factor>)
    requires forall f :: f in fs ==> KeepsValue(f)
    ensures KeepsValue(Combine(fs))
  {
    if fs != [] {
      var c, f := Combine(fs[..|fs| - 1]), fs[|fs| - 1];
      CombineKeepsValue(fs[..|fs| - 1]);
      assert f in fs;
      ProductOfInverses(c.qty, c.price, f.qty, f.price, Combine(fs).qty, Combine(fs).price);
    }
  }

  lemma {:induction false} ChainedSymbol(p: Snapshot, fs: seq<Factor>)
    requires forall f :: f in fs ==> f.newSymbol == ""
    ensures Chained(p, fs).symbol == p.symbol && Combine(fs).newSymbol == ""
  {
    if fs != [] {
      ChainedSymbol(p, fs[..|fs| - 1]);
      assert fs[|fs| - 1] in fs;
    }
  }

  lemma SplitsKeepValue(actions: seq<Action>)
    requires forall a :: a in actions ==> IsSplit(a)
    ensures forall f :: f in Factors(actions) ==> KeepsValue(f)
  {
    var fs := Factors(actions);
    forall f | f in fs ensures KeepsValue(f) {
      var i :| 0 <= i < |fs| && fs[i] == f;
      assert actions[i] in actions;
      SplitKeepsValue(actions[i]);
    }
  }

  // What each kind of valid action does to a position and to a bar. A split by r divides
  // prices and multiplies shares and volumes by r; a dividend pays its amount on every share
  // and moves nothing else; a ticker change moves the name only.
  lemma KindMeans(a: Action, p: Snapshot, b: Bar, i: nat)
    requires IsValid(a) && i < |b.prices|
    ensures var f := FactorFor(a); var p', b' := Adjust(p, f), AdjustBar(b, f);
            && |b'.prices| == |b.prices| && (b'.prices[i].Some? <==> b.prices[i].Some?)
            && (b'.volume.Some? <==> b.volume.Some?)
            && (a.kind == Split || a.kind == ReverseSplit ==>
                  && p'.qty == p.qty * a.ratio.value && p'.avg * a.ratio.value == p.avg
                  && (b.prices[i].Some? ==> b'.prices[i].value * a.ratio.value == b.prices[i].value)
                  && (b.volume.Some? ==> b'.volume.value == b.volume.value * a.ratio.value)
                  && p'.symbol == p.symbol && b'.symbol == b.symbol && CashOf(p, f) == 0.0)
            && (a.kind == CashDividend ==>
                  p' == p && b'.prices[i] == b.prices[i] && b'.volume == b.volume && b'.symbol == b.symbol
                  && CashOf(p, f) == p.qty * a.cash.value)
            && (a.kind == TickerChange ==>
                  p' == p.(symbol := a.newSymbol) && b'.prices[i] == b.prices[i] && b'.volume == b.volume
                  && b'.symbol == a.newSymbol && CashOf(p, f) == 0.0)
  {
    if a.kind == Split || a.kind == ReverseSplit {
      var r := a.ratio.value;
      DividedBack(p.avg, r);
      if b.prices[i].Some? { DividedBack(b.prices[i].value, r); }
    }
  }

  lemma DividedBack(x: real, r: real)
    requires r != 0.0
    ensures x * (1.0 / r) * r == x
  {
    assert (1.0 / r) * r == 1.0;
    assert x * (1.0 / r) * r == x * ((1.0 / r) * r);
  }

  // A chain of splits and dividends is one adjustment of the position by the combined
  // factor.
  lemma ChainIsCombine(p: Snapshot, fs: seq<Factor>)
    requires forall f :: f in fs ==> f.newSymbol == ""
    ensures Chained(p, fs) == Adjust(p, Combine(fs))
  {
    ChainedQty(p, fs);
    ChainedAvg(p, fs);
    ChainedSymbol(p, fs);
  }

  // A chain of splits and reverse splits leaves the book value as it was.
  lemma ChainKeepsValue(p: Snapshot, actions: seq<Action>)
    requires forall a :: a in actions ==> IsSplit(a)
    ensures Value(Chained(p, Factors(actions))) == Value(p)
  {
    SplitsKeepValue(actions);
    CombineKeepsValue(Factors(actions));
    ChainIsCombine(p, Factors(actions));
    AdjustKeepsValue(p, Combine(Factors(actions)));
  }

  lemma ChainStep(p: Snapshot, bars: seq<Bar>, actions: seq<Action>, i: nat)
    requires i < |actions|
    ensures var f, before := FactorFor(actions[i]), Factors(actions[..i]);
            && Chained(p, Factors(actions[..i + 1])) == Adjust(Chained(p, before), f)
            && ChainedBars(bars, Factors(actions[..i + 1])) == AdjustBars(ChainedBars(bars, before), f)
            && Dividends(p, Factors(actions[..i + 1])) == Dividends(p, before) + CashOf(Chained(p, before), f)
  {
    var fs := Factors(actions[..i + 1]);
    assert fs[..|fs| - 1] == Factors(actions[..i]);
    assert fs[|fs| - 1] == FactorFor(actions[i]);
  }

  lemma AdjustKeepsValue(p: Snapshot, f: Factor)
    requires KeepsValue(f)
    ensures Value(Adjust(p, f)) == Value(p)
  {
    ValueKept(p.qty, p.avg, f.qty, f.price, Adjust(p, f).qty, Adjust(p, f).avg);
  }

  lemma BarReassociate(b: Bar, c: Factor, f: Factor, cf: Factor)
    requires c.newSymbol == "" && f.newSymbol == "" && cf.newSymbol == ""
    requires cf.price == c.price * f.price && cf.qty == c.qty * f.qty
    ensures AdjustBar(AdjustBar(b, c), f) == AdjustBar(b, cf)
  {
    var mid := AdjustBar(b, c);
    var twice, once := AdjustBar(mid, f), AdjustBar(b, cf);
    forall i | 0 <= i < |b.prices| ensures twice.prices[i] == once.prices[i] {
      assert mid.prices[i] == Times(b.prices[i], c.price) && twice.prices[i] == Times(mid.prices[i], f.price);
      TimesTwice(b.prices[i], c.price, f.price, cf.price);
    }
    assert twice.prices == once.prices;
    TimesTwice(b.volume, c.qty, f.qty, cf.qty);
  }

  lemma TimesTwice(x: Option<real>, c: real, f: real, cf: real)
    requires cf == c * f
    ensures Times(Times(x, c), f) == Times(x, cf)
  {
    if x.Some? {
      Reassociate(x.value, c, f, Times(x, c).value, cf);
      assert Times(Times(x, c), f).value == Times(x, cf).value;
    }
  }

  lemma {:induction false} BarChainIsCombine(bars: seq<Bar>, fs: seq<Factor>)
    requires forall f :: f in fs ==> f.newSymbol == ""
    ensures ChainedBars(bars, fs) == AdjustBars(bars, Combine(fs))
  {
    if fs == [] {
      forall i | 0 <= i < |bars| ensures AdjustBar(bars[i], Combine(fs)) == bars[i] {
        assert AdjustBar(bars[i], Combine(fs)).prices == bars[i].prices;
      }
    } else {
      var init, last := fs[..|fs| - 1], fs[|fs| - 1];
      assert last in fs;
      BarChainIsCombine(bars, init);
      var mid := ChainedBars(bars, init);
      forall i | 0 <= i < |bars| ensures AdjustBars(mid, last)[i] == AdjustBar(bars[i], Combine(fs)) {
        assert mid[i] == AdjustBar(bars[i], Combine(init));
        BarReassociate(bars[i], Combine(init), last, Combine(fs));
      }
    }
  }

  // A split and the reverse split by the inverse ratio undo each other.
  lemma SplitRoundTrip(p: Snapshot, f: Factor, g: Factor)
    requires KeepsValue(f) && KeepsValue(g) && f.qty * g.qty == 1.0
    ensures Adjust(Adjust(p, f), g) == p
  {
    Reassociate(p.qty, f.qty, g.qty, p.qty * f.qty, f.qty * g.qty);
    Reassociate(p.avg, f.price, g.price, p.avg * f.price, f.price * g.price);
    assert f.price * g.price == 1.0 by {
      assert (f.price * g.price) * (f.qty * g.qty) == (f.qty * f.price) * (g.qty * g.price);
    }
  }

  // ── The registry of pending actions ─────────────────────────────────────────

  type Registry = map<Symbol, seq<Action>>

  function PendingFor(reg: Registry, s: Symbol): seq<Action> {
    if s in reg then reg[s] else []
  }

  function Added(reg: Registry, a: Action): Registry {
    reg[a.symbol := PendingFor(reg, a.symbol) + [a]]
  }

  function WithoutFirst(xs: seq<Action>, a: Action): seq<Action> {
    if xs == [] then []
    else if xs[0] == a then xs[1..]
    else [xs[0]] + WithoutFirst(xs[1..], a)
  }

  lemma {:induction false} OneCopyLess(xs: seq<Action>, a: Action)
    ensures multiset(WithoutFirst(xs, a)) == multiset(xs) - multiset{a}
  {
    if xs != [] {
      assert xs == [xs[0]] + xs[1..];
      OneCopyLess(xs[1..], a);
    }
  }

  lemma {:induction false} NothingToRemove(xs: seq<Action>, a: Action)
    requires a !in xs
    ensures WithoutFirst(xs, a) == xs
  {
    if xs != [] {
      NothingToRemove(xs[1..], a);
      assert xs == [xs[0]] + xs[1..];
    }
  }

  // `list.remove` takes out the first equal entry.
  function Removed(reg: Registry, a: Action): Registry {
    if a in PendingFor(reg, a.symbol) then reg[a.symbol := WithoutFirst(reg[a.symbol], a)] else reg
  }

  // A chain of applications takes one entry each.
  function RemovedAll(reg: Registry, actions: seq<Action>): Registry {
    if actions == [] then reg
    else Removed(RemovedAll(reg, actions[..|actions| - 1]), actions[|actions| - 1])
  }

  // What is kept of an application, under the symbol the action was for.
  datatype AdjustmentRecord = AdjustmentRecord(
    symbol: Symbol, action: Action, factor: Factor, before: Option<Snapshot>, after: Option<Snapshot>, cash: real)

  function RecordOf(a: Action, position: Option<Snapshot>): AdjustmentRecord {
    var f := FactorFor(a);
    if position.None? then AdjustmentRecord(a.symbol, a, f, None, None, 0.0)
    else AdjustmentRecord(a.symbol, a, f, position, Some(Adjust(position.value, f)), CashOf(position.value, f))
  }

  function Records(p: Snapshot, actions: seq<Action>): seq<AdjustmentRecord> {
    if actions == [] then []
    else
      var front := actions[..|actions| - 1];
      Records(p, front) + [RecordOf(actions[|actions| - 1], Some(Chained(p, Factors(front))))]
  }

  // The chain with its next action, for both.
  lemma NextRecord(reg: Registry, p: Snapshot, actions: seq<Action>, i: nat)
    requires i < |actions|
    ensures RemovedAll(reg, actions[..i + 1]) == Removed(RemovedAll(reg, actions[..i]), actions[i])
    ensures Records(p, actions[..i + 1])
         == Records(p, actions[..i]) + [RecordOf(actions[i], Some(Chained(p, Factors(actions[..i]))))]
  {
    assert actions[..i + 1][..i] == actions[..i];
  }

  // The service's fields and a caller's position, bars and cash.
  datatype Progress = Progress(
    pending: Registry, history: seq<AdjustmentRecord>, end: Snapshot, endBars: seq<Bar>, cash: real)

  // Where a chain of applications is after `done`.
  function ProgressOf(reg: Registry, history: seq<AdjustmentRecord>, p: Snapshot, bars: seq<Bar>,
                      done: seq<Action>): Progress
  {
    Progress(RemovedAll(reg, done), history + Records(p, done), Chained(p, Factors(done)),
             ChainedBars(bars, Factors(done)), Dividends(p, Factors(done)))
  }

  function NextProgress(at: Progress, a: Action): Progress {
    var f := FactorFor(a);
    Progress(Removed(at.pending, a), at.history + [RecordOf(a, Some(at.end))], Adjust(at.end, f),
             AdjustBars(at.endBars, f), at.cash + CashOf(at.end, f))
  }

  predicate AllValid(done: seq<Action>) {
    done == [] || (AllValid(done[..|done| - 1]) && IsValid(done[|done| - 1]))
  }

  lemma {:induction false} EachValid(actions: seq<Action>, n: nat)
    requires n <= |actions| && AllValid(actions[..n])
    ensures forall i :: 0 <= i < n ==> IsValid(actions[i])
  {
    if n > 0 {
      assert actions[..n][..n - 1] == actions[..n - 1];
      EachValid(actions, n - 1);
    }
  }

  lemma OneMoreValid(actions: seq<Action>, n: nat)
    requires n < |actions| && AllValid(actions[..n]) && IsValid(actions[n])
    ensures AllValid(actions[..n + 1])
  {
    assert actions[..n + 1][..n] == actions[..n];
  }

  lemma ChainedNext(reg: Registry, history: seq<AdjustmentRecord>, p: Snapshot, bars: seq<Bar>, actions: seq<Action>,
                    i: nat)
    requires i < |actions|
    ensures ProgressOf(reg, history, p, bars, actions[..i + 1])
         == NextProgress(ProgressOf(reg, history, p, bars, actions[..i]), actions[i])
  {
    ChainStep(p, bars, actions, i);
    NextRecord(reg, p, actions, i);
    var before, record := Records(p, actions[..i]), RecordOf(actions[i], Some(Chained(p, Factors(actions[..i]))));
    assert history + (before + [record]) == history + before + [record];
  }

  lemma {:induction false} RecordsLength(p: Snapshot, actions: seq<Action>)
    ensures |Records(p, actions)| == |actions|
  {
    if actions != [] { RecordsLength(p, actions[..|actions| - 1]); }
  }

  lemma {:induction false} RecordAt(p: Snapshot, actions: seq<Action>, i: nat)
    requires i < |actions| == |Records(p, actions)|
    ensures Records(p, actions)[i] == RecordOf(actions[i], Some(Chained(p, Factors(actions[..i]))))
  {
    var front := actions[..|actions| - 1];
    RecordsLength(p, front);
    if i < |front| {
      RecordAt(p, front, i);
      assert front[..i] == actions[..i];
    }
  }

  // The history of a chain links up: record i starts from the position after the first i
  // actions and ends with the one after i + 1, and the records' cash is the dividends paid.
  lemma RecordsLink(p: Snapshot, actions: seq<Action>, i: nat)
    requires i < |actions|
    ensures var records := Records(p, actions);
            && |records| == |actions| && records[i].action == actions[i]
            && records[i].before == Some(Chained(p, Factors(actions[..i])))
            && records[i].after == Some(Chained(p, Factors(actions[..i + 1])))
            && Dividends(p, Factors(actions[..i + 1])) == Dividends(p, Factors(actions[..i])) + records[i].cash
  {
    RecordsLength(p, actions);
    RecordAt(p, actions, i);
    ChainStep(p, [], actions, i);
  }

  function CashIn(): AdjustmentRecord -> real { (r: AdjustmentRecord) => r.cash }

  // What a chain pays in all is what its records paid.
  lemma {:induction false} CashIsRecorded(p: Snapshot, actions: seq<Action>)
    ensures Dividends(p, Factors(actions)) == Sum(Records(p, actions), CashIn())
  {
    if actions != [] {
      var front, n := actions[..|actions| - 1], |actions| - 1;
      CashIsRecorded(p, front);
      ChainStep(p, [], actions, n);
      assert actions[..n + 1] == actions;
      var record := RecordOf(actions[n], Some(Chained(p, Factors(front))));
      SumConcat(Records(p, front), [record], CashIn());
      assert Sum([record], CashIn()) == record.cash by { assert [record][1..] == []; }
    }
  }

  // Open orders may go through only with nothing pending that blocks: a confirmed
  // action always blocks, any other when unconfirmed ones do.
  predicate Blocks(a: Action, blockUnconfirmed: bool) { a.status == Confirmed || blockUnconfirmed }

  datatype Applied = Applied(bars: Option<seq<Bar>>, position: Option<Snapshot>, cash: real)

  class CorporateActionService {
    var pending: Registry
    var history: seq<AdjustmentRecord>
    const blockUnconfirmed: bool

    constructor (blockUnconfirmed: bool)
      ensures pending == map[] && history == [] && this.blockUnconfirmed == blockUnconfirmed
    {
      pending, history := map[], [];
      this.blockUnconfirmed := blockUnconfirmed;
    }

    method RegisterAction(a: Action) returns (classified: Action)
      modifies `pending
      ensures classified == Classified(a) && pending == Added(old(pending), classified)
    {
      classified := Classified(a);
      pending := Added(pending, classified);
    }

    method AssertTradeable(symbol: Symbol) returns (tradeable: bool)
      ensures tradeable <==>
                if blockUnconfirmed then PendingFor(pending, symbol) == []
                else forall a :: a in PendingFor(pending, symbol) ==> a.status != Confirmed
    {
      var actions := PendingFor(pending, symbol);
      for i := 0 to |actions|
        invariant i > 0 ==> !blockUnconfirmed
        invariant forall k :: 0 <= k < i ==> actions[k].status != Confirmed
      {
        if Blocks(actions[i], blockUnconfirmed) {
          assert actions[i] in actions;
          return false;
        }
      }
      return true;
    }

    // None is the exception: the action is of an unsupported kind or incomplete, and
    // the registry is as it was.
    method Apply(a: Action, bars: Option<seq<Bar>>, position: Option<Snapshot>) returns (r: Option<Applied>)
      modifies this
      ensures r.Some? <==> IsValid(a)
      ensures pending == if IsValid(a) then Removed(old(pending), a) else old(pending)
      ensures history == if IsValid(a) then old(history) + [RecordOf(a, position)] else old(history)
      ensures r.Some? ==>
                && RecordOf(a, position).symbol == a.symbol && RecordOf(a, position).before == position
                && RecordOf(a, position).after == r.value.position && RecordOf(a, position).cash == r.value.cash
      ensures r.Some? ==>
                && r.value.bars == (if bars.Some? then Some(AdjustBars(bars.value, FactorFor(a))) else None)
                && r.value.position == (if position.Some? then Some(Adjust(position.value, FactorFor(a))) else None)
                && r.value.cash == (if position.Some? then CashOf(position.value, FactorFor(a)) else 0.0)
    {
      if a.kind !in SUPPORTED || !IsValid(a) { return None; }
      var factor := FactorFor(a);
      var newBars := if bars.Some? then Some(AdjustBars(bars.value, factor)) else None;
      var newPosition := if position.Some? then Some(Adjust(position.value, factor)) else None;
      var cash := if position.Some? then CashOf(position.value, factor) else 0.0;
      pending := Removed(pending, a);
      history := history + [AdjustmentRecord(a.symbol, a, factor, position, newPosition, cash)];
      r := Some(Applied(newBars, newPosition, cash));
    }

    // A position and its bars through a chain of actions, in order. It stops at the
    // first action that cannot be applied; the ones before it stay applied.
    method ApplyChain(actions: seq<Action>, bars: seq<Bar>, position: Snapshot)
      returns (applied: nat, endBars: seq<Bar>, end: Snapshot, cash: real)
      modifies this
      ensures applied <= |actions| && (forall i :: 0 <= i < applied ==> IsValid(actions[i]))
      ensures applied < |actions| ==> !IsValid(actions[applied])
      ensures end == Chained(position, Factors(actions[..applied]))
      ensures endBars == ChainedBars(bars, Factors(actions[..applied]))
      ensures cash == Dividends(position, Factors(actions[..applied]))
      ensures pending == RemovedAll(old(pending), actions[..applied])
      ensures history == old(history) + Records(position, actions[..applied])
    {
      applied, endBars, end, cash := 0, bars, position, 0.0;
      while applied < |actions|
        invariant applied <= |actions| && AllValid(actions[..applied])
        invariant Progress(pending, history, end, endBars, cash)
               == ProgressOf(old(pending), old(history), position, bars, actions[..applied])
      {
        var ok, nextBars, next, nextCash := ApplyTo(actions[applied], endBars, end, cash);
        if !ok { break; }
        OneMoreValid(actions, applied);
        ChainedNext(old(pending), old(history), position, bars, actions, applied);
        endBars, end, cash := nextBars, next, nextCash;
        applied := applied + 1;
      }
      EachValid(actions, applied);
    }

    method ApplyTo(a: Action, bars: seq<Bar>, position: Snapshot, cash: real)
      returns (ok: bool, newBars: seq<Bar>, newPosition: Snapshot, newCash: real)
      modifies this
      ensures ok <==> IsValid(a)
      ensures !ok ==> pending == old(pending) && history == old(history)
      ensures ok ==>
                Progress(pending, history, newPosition, newBars, newCash)
                == NextProgress(Progress(old(pending), old(history), position, bars, cash), a)
    {
      var r := Apply(a, Some(bars), Some(position));
      if r.None? { return false, bars, position, cash; }
      return true, r.value.bars.value, r.value.position.value, cash + r.value.cash;
    }

    // One symbol's pending actions, or all of them; the history stays.
    method Reset(symbol: Option<Symbol>)
      modifies `pending
      ensures pending == if symbol.None? then map[] else old(pending) - {symbol.value}
    {
      pending := if symbol.None? then map[] else pending - {symbol.value};
    }

    method HistoryFor(symbol: Option<Symbol>) returns (records: seq<AdjustmentRecord>)
      ensures symbol.None? ==> records == history
      ensures forall r :: r in records <==> r in history && (symbol.None? || r.symbol == symbol.value)
    {
      if symbol.None? { return history; }
      records := [];
      for i := 0 to |history|
        invariant forall r :: r in records <==> r in history[..i] && r.symbol == symbol.value
      {
        if history[i].symbol == symbol.value { records := records + [history[i]]; }
      }
    }
  }

  // ── What may leave the registry ─────────────────────────────────────────────

  datatype Op = RegisterOp(a: Action) | RestoreOp(actions: seq<Action>) | ApplyOp(a: Action)

  function Restored(reg: Registry, actions: seq<Action>): Registry
    decreases |actions|
  {
    if actions == [] then reg else Restored(Added(reg, actions[0]), actions[1..])
  }

  function Do(reg: Registry, op: Op): Registry {
    match op
    case RegisterOp(a) => Added(reg, Classified(a))
    case RestoreOp(actions) => Restored(reg, actions)
    case ApplyOp(a) => if IsValid(a) then Removed(reg, a) else reg
  }

  function DoAll(reg: Registry, ops: seq<Op>): Registry
    decreases |ops|
  {
    if ops == [] then reg else DoAll(Do(reg, ops[0]), ops[1..])
  }

  function Copies(reg: Registry, a: Action): nat { multiset(PendingFor(reg, a.symbol))[a] }

  lemma AddedCopies(reg: Registry, added: Action, a: Action)
    ensures Copies(Added(reg, added), a) == Copies(reg, a) + if added == a then 1 else 0
  {
  }

  lemma {:induction false} RestoredCopies(reg: Registry, actions: seq<Action>, a: Action)
    ensures Copies(Restored(reg, actions), a) == Copies(reg, a) + multiset(actions)[a]
    decreases |actions|
  {
    if actions != [] {
      assert actions == [actions[0]] + actions[1..];
      AddedCopies(reg, actions[0], a);
      RestoredCopies(Added(reg, actions[0]), actions[1..], a);
    }
  }

  lemma RemovedCopies(reg: Registry, removed: Action, a: Action)
    ensures Copies(Removed(reg, removed), a)
         == Copies(reg, a) - if removed == a && a in PendingFor(reg, a.symbol) then 1 else 0
  {
    OneCopyLess(PendingFor(reg, removed.symbol), removed);
  }

  // Registering, restoring and applying remove a pending action exactly when it is
  // applied, complete and of a supported kind - one copy at a time.
  lemma OpCopies(reg: Registry, op: Op, a: Action)
    ensures Copies(Do(reg, op), a) < Copies(reg, a) <==>
              op == ApplyOp(a) && IsValid(a) && a in PendingFor(reg, a.symbol)
    ensures Copies(Do(reg, op), a) >= Copies(reg, a) - 1
  {
    match op
    case RegisterOp(b) => AddedCopies(reg, Classified(b), a);
    case RestoreOp(actions) => RestoredCopies(reg, actions, a);
    case ApplyOp(b) =>
      RemovedCopies(reg, b, a);
  }

  // So an action that is not valid - every unknown kind - never leaves, over any run
  // without a reset, and its symbol stays blocked.
  lemma {:induction false} InvalidNeverLeaves(reg: Registry, ops: seq<Op>, a: Action)
    requires !IsValid(a) && a in PendingFor(reg, a.symbol)
    ensures a in PendingFor(DoAll(reg, ops), a.symbol)
    decreases |ops|
  {
    if ops != [] {
      OpCopies(reg, ops[0], a);
      assert Copies(Do(reg, ops[0]), a) > 0;
      InvalidNeverLeaves(Do(reg, ops[0]), ops[1..], a);
    }
  }

  // Validity looks at the kind and its fields, not at the status: an action whose
  // status is unknown can be applied, and is removed, exactly when it is valid.
  lemma UnknownStatusLeavesIff(a: Action)
    requires a.status == UnknownStanding
    ensures a !in PendingFor(DoAll(map[], [RestoreOp([a]), ApplyOp(a)]), a.symbol) <==> IsValid(a)
  {
    var reg := Added(map[], a);
    OneCopyLess(PendingFor(reg, a.symbol), a);
    assert [a][1..] == [] && Restored(reg, []) == reg;
    assert Restored(map[], [a]) == reg;
    assert [ApplyOp(a)][1..] == [] && DoAll(Do(reg, ApplyOp(a)), []) == Do(reg, ApplyOp(a));
    assert DoAll(reg, [ApplyOp(a)]) == Do(reg, ApplyOp(a));
    assert [RestoreOp([a]), ApplyOp(a)][1..] == [ApplyOp(a)];
    assert multiset(PendingFor(reg, a.symbol)) == multiset{a};
  }
}
