// The accounting loop of the backtest (strategy/backtest.py, Backtester.run): one
// position at a time, bought with 95% of the capital and sold whole.
module Backtest {
  import opened Sums
  import opened Reals

  datatype Trade =
    | Bought(price: real, qty: real, commission: real)
    | Sold(price: real, qty: real, pnl: real)

  // One bar: its close, and what the strategy signals on it.
  datatype Bar = Bar(close: real, buy: bool, sell: bool)

  // `equities` starts with the initial capital.
  datatype Book = Book(
    capital: real, position: real, entry: real, peak: real, maxDrawdown: real,
    wins: nat, losses: nat, grossProfit: real, grossLoss: real,
    trades: seq<Trade>, equities: seq<real>)

  const INVESTED := 0.95

  function Start(initial: real): Book {
    Book(initial, 0.0, 0.0, initial, 0.0, 0, 0, 0.0, 0.0, [], [initial])
  }

  function Buy(b: Book, close: real, commissionPct: real): Book
    requires close > 0.0
  {
    var cost := b.capital * INVESTED;
    var commission := cost * commissionPct;
    var qty := (cost - commission) / close;
    b.(position := qty, entry := close, capital := b.capital - cost,
       trades := b.trades + [Bought(close, qty, commission)])
  }

  function NetProceeds(position: real, close: real, commissionPct: real): real {
    var proceeds := position * close;
    proceeds - proceeds * commissionPct
  }

  // The whole position goes, for `net` after the selling commission.
  function Realised(b: Book, close: real, net: real): Book {
    var pnl := net - b.position * b.entry;
    b.(capital := b.capital + net, position := 0.0, entry := 0.0,
       wins := if pnl > 0.0 then b.wins + 1 else b.wins,
       losses := if pnl > 0.0 then b.losses else b.losses + 1,
       grossProfit := if pnl > 0.0 then b.grossProfit + pnl else b.grossProfit,
       grossLoss := if pnl > 0.0 then b.grossLoss else b.grossLoss - pnl,
       trades := b.trades + [Sold(close, b.position, pnl)])
  }

  function Sell(b: Book, close: real, commissionPct: real): Book {
    Realised(b, close, NetProceeds(b.position, close, commissionPct))
  }

  function Traded(b: Book, bar: Bar, commissionPct: real): Book
    requires bar.close > 0.0
  {
    if bar.buy && b.position == 0.0 then Buy(b, bar.close, commissionPct)
    else if bar.sell && b.position > 0.0 then Sell(b, bar.close, commissionPct)
    else b
  }

  function Drawdown(peak: real, equity: real): real {
    if peak > 0.0 then (peak - equity) / peak else 0.0
  }

  function Noted(b: Book, equity: real): Book {
    var peak := if equity > b.peak then equity else b.peak;
    var drawdown := Drawdown(peak, equity);
    b.(peak := peak, maxDrawdown := if drawdown > b.maxDrawdown then drawdown else b.maxDrawdown,
       equities := b.equities + [equity])
  }

  function Equity(b: Book, close: real): real { b.capital + b.position * close }

  function Marked(b: Book, close: real): Book { Noted(b, Equity(b, close)) }

  function After(initial: real, bars: seq<Bar>, commissionPct: real): Book
    requires forall i :: 0 <= i < |bars| ==> bars[i].close > 0.0
  {
    if bars == [] then Start(initial)
    else
      var bar := bars[|bars| - 1];
      Marked(Traded(After(initial, bars[..|bars| - 1], commissionPct), bar, commissionPct), bar.close)
  }

  lemma AfterOneMore(initial: real, bars: seq<Bar>, bar: Bar, commissionPct: real)
    requires bar.close > 0.0 && forall i :: 0 <= i < |bars| ==> bars[i].close > 0.0
    ensures forall i :: 0 <= i < |bars + [bar]| ==> (bars + [bar])[i].close > 0.0
    ensures After(initial, bars + [bar], commissionPct)
         == Marked(Traded(After(initial, bars, commissionPct), bar, commissionPct), bar.close)
  {
    var more := bars + [bar];
    assert more[..|more| - 1] == bars && more[|more| - 1] == bar;
  }

  class Backtester {
    const initial: real
    const commissionPct: real
    var capital: real
    var position: real
    var entry: real
    var peak: real
    var maxDrawdown: real
    var wins: nat
    var losses: nat
    var grossProfit: real
    var grossLoss: real
    var trades: seq<Trade>
    var equities: seq<real>

    function View(): Book
      reads this
    {
      Book(capital, position, entry, peak, maxDrawdown, wins, losses, grossProfit, grossLoss, trades, equities)
    }

    constructor (initial: real, commissionPct: real)
      ensures View() == Start(initial) && this.initial == initial && this.commissionPct == commissionPct
    {
      this.initial, this.commissionPct := initial, commissionPct;
      capital, position, entry, peak, maxDrawdown := initial, 0.0, 0.0, initial, 0.0;
      wins, losses, grossProfit, grossLoss, trades, equities := 0, 0, 0.0, 0.0, [], [initial];
    }

    method Open(close: real)
      requires close > 0.0
      modifies this
      ensures View() == Buy(old(View()), close, commissionPct)
    {
      var cost := capital * INVESTED;
      var commission := cost * commissionPct;
      var qty := (cost - commission) / close;
      ghost var after := Buy(View(), close, commissionPct);
      assert qty == after.position;
      position, entry := qty, close;
      capital := capital - cost;
      trades := trades + [Bought(close, qty, commission)];
      assert Bought(close, qty, commission) == after.trades[|trades| - 1];
      assert trades == after.trades;
      assert capital == after.capital;
    }

    method CloseOut(close: real)
      modifies this
      ensures View() == Sell(old(View()), close, commissionPct)
    {
      var proceeds := position * close;
      var commission := proceeds * commissionPct;
      var net := proceeds - commission;
      var pnl := net - position * entry;
      ghost var after := Realised(View(), close, net);
      assert net == NetProceeds(position, close, commissionPct);
      assert after.trades[|trades|] == Sold(close, position, pnl);
      capital := capital + net;
      if pnl > 0.0 {
        wins, grossProfit := wins + 1, grossProfit + pnl;
      } else {
        losses, grossLoss := losses + 1, grossLoss - pnl;
      }
      trades := trades + [Sold(close, position, pnl)];
      assert trades == after.trades;
      position, entry := 0.0, 0.0;
    }

    method Mark(close: real)
      modifies this
      ensures View() == Marked(old(View()), close)
    {
      var equity := capital + position * close;
      ghost var marked := Marked(View(), close);
      if equity > peak { peak := equity; }
      assert peak == marked.peak;
      var drawdown := if peak > 0.0 then (peak - equity) / peak else 0.0;
      assert drawdown == Drawdown(marked.peak, equity);
      if drawdown > maxDrawdown { maxDrawdown := drawdown; }
      equities := equities + [equity];
      assert equity == marked.equities[|equities| - 1];
      assert equities == marked.equities;
      assert maxDrawdown == marked.maxDrawdown;
    }

    // The loop starts at the second bar; the first only gives the strategy a window.
    method Run(bars: seq<Bar>)
      requires View() == Start(initial)
      requires bars != [] && forall i :: 0 <= i < |bars| ==> bars[i].close > 0.0
      modifies this
      ensures View() == After(initial, bars[1..], commissionPct)
    {
      for i := 1 to |bars|
        invariant View() == After(initial, bars[1..i], commissionPct)
      {
        var bar := bars[i];
        AfterOneMore(initial, bars[1..i], bar, commissionPct);
        assert bars[1..i + 1] == bars[1..i] + [bar];
        if bar.buy && position == 0.0 {
          Open(bar.close);
        } else if bar.sell && position > 0.0 {
          CloseOut(bar.close);
        }
        Mark(bar.close);
      }
      assert bars[1..|bars|] == bars[1..];
    }
  }

  // ── Accounting ──────────────────────────────────────────────────────────────

  function Fee(): Trade -> real { (t: Trade) => if t.Bought? then t.commission else 0.0 }
  function Pnl(): Trade -> real { (t: Trade) => if t.Sold? then t.pnl else 0.0 }
  function IsSale(): Trade -> int { (t: Trade) => if t.Sold? then 1 else 0 }

  // Nothing appears or disappears: what is not in the capital is in the position at its
  // entry price or went to buying commissions, and what came in is realised profit.
  predicate Balanced(b: Book, initial: real) {
    b.capital + b.position * b.entry + Sum(b.trades, Fee()) == initial + Sum(b.trades, Pnl())
  }

  predicate Settled(b: Book) {
    && b.grossProfit - b.grossLoss == Sum(b.trades, Pnl())
    && b.grossProfit >= 0.0 && b.grossLoss >= 0.0
    && b.wins + b.losses == Total(b.trades, IsSale())
  }

  lemma OneMoreTrade(trades: seq<Trade>, t: Trade)
    ensures Sum(trades + [t], Fee()) == Sum(trades, Fee()) + Fee()(t)
    ensures Sum(trades + [t], Pnl()) == Sum(trades, Pnl()) + Pnl()(t)
    ensures Total(trades + [t], IsSale()) == Total(trades, IsSale()) + IsSale()(t)
  {
    SumConcat(trades, [t], Fee());
    SumConcat(trades, [t], Pnl());
    TotalConcat(trades, [t], IsSale());
  }

  lemma Quotient(x: real, y: real)
    requires y > 0.0
    ensures x / y * y == x
  {
  }

  lemma BuyAccounts(b: Book, initial: real, close: real, commissionPct: real)
    requires close > 0.0 && b.position == 0.0 && Balanced(b, initial) && Settled(b)
    ensures Balanced(Buy(b, close, commissionPct), initial) && Settled(Buy(b, close, commissionPct))
  {
    var b' := Buy(b, close, commissionPct);
    OneMoreTrade(b.trades, b'.trades[|b.trades|]);
    var cost := b.capital * INVESTED;
    Quotient(cost - cost * commissionPct, close);
  }

  lemma SaleAccounts(b: Book, initial: real, close: real, net: real)
    requires Balanced(b, initial) && Settled(b)
    ensures Balanced(Realised(b, close, net), initial) && Settled(Realised(b, close, net))
  {
    OneMoreTrade(b.trades, Sold(close, b.position, net - b.position * b.entry));
  }

  lemma StepAccounts(b: Book, initial: real, bar: Bar, commissionPct: real)
    requires bar.close > 0.0 && Balanced(b, initial) && Settled(b)
    ensures Balanced(Marked(Traded(b, bar, commissionPct), bar.close), initial)
    ensures Settled(Marked(Traded(b, bar, commissionPct), bar.close))
  {
    if bar.buy && b.position == 0.0 {
      BuyAccounts(b, initial, bar.close, commissionPct);
    } else if bar.sell && b.position > 0.0 {
      SaleAccounts(b, initial, bar.close, NetProceeds(b.position, bar.close, commissionPct));
    }
    MarkAccounts(Traded(b, bar, commissionPct), initial, bar.close);
  }

  lemma MarkAccounts(b: Book, initial: real, close: real)
    requires Balanced(b, initial) && Settled(b)
    ensures Balanced(Marked(b, close), initial) && Settled(Marked(b, close))
  {
  }

  // At every bar, for any signals and positive prices.
  lemma {:induction false} BooksBalance(initial: real, bars: seq<Bar>, commissionPct: real)
    requires forall i :: 0 <= i < |bars| ==> bars[i].close > 0.0
    ensures Balanced(After(initial, bars, commissionPct), initial)
    ensures Settled(After(initial, bars, commissionPct))
  {
    if bars != [] {
      var before, bar := bars[..|bars| - 1], bars[|bars| - 1];
      BooksBalance(initial, before, commissionPct);
      StepAccounts(After(initial, before, commissionPct), initial, bar, commissionPct);
    }
  }

  // ── The trades written out ──────────────────────────────────────────────────

  // What the capital was when the i-th trade found it without a position.
  function CapitalBefore(trades: seq<Trade>, i: nat, initial: real): real
    requires i <= |trades|
  {
    initial + Sum(trades[..i], Pnl()) - Sum(trades[..i], Fee())
  }

  // A purchase puts 95% of the capital in, its commission included; a sale is of the shares
  // just bought, and its profit is what is left of the proceeds over what they cost.
  predicate TradeOk(trades: seq<Trade>, i: nat, initial: real, commissionPct: real)
    requires i < |trades|
  {
    match trades[i]
    case Bought(price, qty, commission) =>
      var cost := CapitalBefore(trades, i, initial) * 0.95;
      qty * price == cost - commission && commission == cost * commissionPct
    case Sold(price, qty, pnl) =>
      && i > 0 && trades[i - 1].Bought? && trades[i - 1].qty == qty && qty > 0.0
      && pnl == qty * price - qty * price * commissionPct - qty * trades[i - 1].price
  }

  predicate Ledger(trades: seq<Trade>, initial: real, commissionPct: real) {
    forall i :: 0 <= i < |trades| ==> TradeOk(trades, i, initial, commissionPct)
  }

  function IsWin(): Trade -> int { (t: Trade) => if t.Sold? && t.pnl > 0.0 then 1 else 0 }
  function IsLoss(): Trade -> int { (t: Trade) => if t.Sold? && t.pnl <= 0.0 then 1 else 0 }
  function Gain(): Trade -> real { (t: Trade) => if t.Sold? && t.pnl > 0.0 then t.pnl else 0.0 }
  function Forfeit(): Trade -> real { (t: Trade) => if t.Sold? && t.pnl <= 0.0 then -t.pnl else 0.0 }

  // The counters are the sums over the sales, each counted on its own side.
  predicate Counted(b: Book) {
    && b.wins == Total(b.trades, IsWin()) && b.losses == Total(b.trades, IsLoss())
    && b.grossProfit == Sum(b.trades, Gain()) && b.grossLoss == Sum(b.trades, Forfeit())
  }

  // A position is what the last trade bought, at its price.
  predicate FromLastTrade(b: Book) {
    b.position != 0.0 ==>
      b.trades != [] && var t := b.trades[|b.trades| - 1]; t.Bought? && t.qty == b.position && t.price == b.entry
  }

  lemma LedgerGrows(trades: seq<Trade>, t: Trade, initial: real, commissionPct: real)
    requires Ledger(trades, initial, commissionPct)
    requires TradeOk(trades + [t], |trades|, initial, commissionPct)
    ensures Ledger(trades + [t], initial, commissionPct)
  {
    var more := trades + [t];
    forall i | 0 <= i < |more| ensures TradeOk(more, i, initial, commissionPct) {
      if i < |trades| { TradeKept(trades, t, i, initial, commissionPct); }
    }
  }

  lemma TradeKept(trades: seq<Trade>, t: Trade, i: nat, initial: real, commissionPct: real)
    requires i < |trades| && TradeOk(trades, i, initial, commissionPct)
    ensures TradeOk(trades + [t], i, initial, commissionPct)
  {
    assert (trades + [t])[..i] == trades[..i];
    assert CapitalBefore(trades + [t], i, initial) == CapitalBefore(trades, i, initial);
  }

  lemma CountsGrow(trades: seq<Trade>, t: Trade)
    ensures Total(trades + [t], IsWin()) == Total(trades, IsWin()) + IsWin()(t)
    ensures Total(trades + [t], IsLoss()) == Total(trades, IsLoss()) + IsLoss()(t)
    ensures Sum(trades + [t], Gain()) == Sum(trades, Gain()) + Gain()(t)
    ensures Sum(trades + [t], Forfeit()) == Sum(trades, Forfeit()) + Forfeit()(t)
  {
    TotalConcat(trades, [t], IsWin());
    TotalConcat(trades, [t], IsLoss());
    SumConcat(trades, [t], Gain());
    SumConcat(trades, [t], Forfeit());
  }

  lemma BuyWritten(b: Book, initial: real, close: real, commissionPct: real)
    requires close > 0.0 && b.position == 0.0 && Balanced(b, initial)
    requires Ledger(b.trades, initial, commissionPct) && Counted(b)
    ensures var b' := Buy(b, close, commissionPct);
            Ledger(b'.trades, initial, commissionPct) && Counted(b') && FromLastTrade(b')
  {
    var b' := Buy(b, close, commissionPct);
    var t := b'.trades[|b.trades|];
    assert b'.trades == b.trades + [t] && (b.trades + [t])[..|b.trades|] == b.trades;
    CountsGrow(b.trades, t);
    FlatCapital(b, initial);
    var cost := b.capital * INVESTED;
    Quotient(cost - cost * commissionPct, close);
    LedgerGrows(b.trades, t, initial, commissionPct);
  }

  lemma FlatCapital(b: Book, initial: real)
    requires b.position == 0.0 && Balanced(b, initial)
    ensures b.capital == initial + Sum(b.trades, Pnl()) - Sum(b.trades, Fee())
  {
  }

  lemma SaleWritten(b: Book, initial: real, close: real, commissionPct: real)
    requires b.position > 0.0 && FromLastTrade(b)
    requires Ledger(b.trades, initial, commissionPct) && Counted(b)
    ensures var b' := Sell(b, close, commissionPct);
            Ledger(b'.trades, initial, commissionPct) && Counted(b') && FromLastTrade(b')
  {
    var b' := Sell(b, close, commissionPct);
    var t := b'.trades[|b.trades|];
    assert b'.trades == b.trades + [t];
    CountsGrow(b.trades, t);
    LedgerGrows(b.trades, t, initial, commissionPct);
  }

  // Which bars trade: a buy signal without a position, a sell signal with one.
  lemma TradesIff(b: Book, bar: Bar, commissionPct: real)
    requires bar.close > 0.0
    ensures var b' := Traded(b, bar, commissionPct); var n := |b.trades|;
            && (bar.buy && b.position == 0.0 <==> |b'.trades| == n + 1 && b'.trades[n].Bought?)
            && (bar.sell && b.position > 0.0 <==> |b'.trades| == n + 1 && b'.trades[n].Sold?)
            && (|b'.trades| == n + 1 ==> b'.trades[..n] == b.trades && b'.trades[n].price == bar.close)
            && (|b'.trades| != n + 1 ==> b' == b)
            && (|b'.trades| == n + 1 && b'.trades[n].Sold? ==> b'.position == 0.0)
  {
    assert forall t :: (b.trades + [t])[..|b.trades|] == b.trades;
  }

  lemma StepWritten(b: Book, initial: real, bar: Bar, commissionPct: real)
    requires bar.close > 0.0 && Balanced(b, initial) && FromLastTrade(b)
    requires Ledger(b.trades, initial, commissionPct) && Counted(b)
    ensures var b' := Traded(b, bar, commissionPct);
            Ledger(b'.trades, initial, commissionPct) && Counted(b') && FromLastTrade(b')
  {
    if bar.buy && b.position == 0.0 {
      BuyWritten(b, initial, bar.close, commissionPct);
    } else if bar.sell && b.position > 0.0 {
      SaleWritten(b, initial, bar.close, commissionPct);
    }
  }

  predicate Written(b: Book, initial: real, commissionPct: real) {
    Ledger(b.trades, initial, commissionPct) && Counted(b) && FromLastTrade(b)
  }

  lemma BarWritten(b: Book, initial: real, bar: Bar, commissionPct: real)
    requires bar.close > 0.0 && Balanced(b, initial) && Written(b, initial, commissionPct)
    ensures Written(Marked(Traded(b, bar, commissionPct), bar.close), initial, commissionPct)
  {
    StepWritten(b, initial, bar, commissionPct);
  }

  // After any bars the list of trades says it all: every purchase and every sale by the
  // rule, and the counters are what the list adds up to.
  lemma {:induction false} TradesWrittenOut(initial: real, bars: seq<Bar>, commissionPct: real)
    requires forall i :: 0 <= i < |bars| ==> bars[i].close > 0.0
    ensures Written(After(initial, bars, commissionPct), initial, commissionPct)
  {
    if bars != [] {
      var before, bar := bars[..|bars| - 1], bars[|bars| - 1];
      TradesWrittenOut(initial, before, commissionPct);
      BooksBalance(initial, before, commissionPct);
      BarWritten(After(initial, before, commissionPct), initial, bar, commissionPct);
    }
  }

  // A bar is marked with the cash and the position at its close.
  lemma MarkMeans(b: Book, close: real)
    ensures Marked(b, close).equities == b.equities + [b.capital + b.position * close]
    ensures Marked(b, close).capital == b.capital && Marked(b, close).position == b.position
    ensures Marked(b, close).trades == b.trades && Marked(b, close).entry == b.entry
  {
    var equity := b.capital + b.position * close;
    assert Equity(b, close) == equity;
    assert Noted(b, equity).equities == b.equities + [equity];
  }

  // ── Solvency, exactly while commissions are at most 100% ───────────────────

  predicate Solvent(b: Book) { b.capital > 0.0 && b.position >= 0.0 }

  lemma NonNegativeProduct(x: real, y: real)
    requires x >= 0.0 && y >= 0.0
    ensures x * y >= 0.0
  {
  }

  lemma StaysSolvent(b: Book, bar: Bar, commissionPct: real)
    requires Solvent(b) && bar.close > 0.0 && commissionPct <= 1.0
    ensures Solvent(Traded(b, bar, commissionPct))
  {
    if bar.buy && b.position == 0.0 {
      var cost := b.capital * INVESTED;
      NonNegativeProduct(cost, 1.0 - commissionPct);
      assert cost - cost * commissionPct == cost * (1.0 - commissionPct);
      QuotientBetween(0.0, cost - cost * commissionPct, (cost - cost * commissionPct) / bar.close, bar.close);
    } else if bar.sell && b.position > 0.0 {
      var proceeds := b.position * bar.close;
      NonNegativeProduct(b.position, bar.close);
      NonNegativeProduct(proceeds, 1.0 - commissionPct);
      assert proceeds - proceeds * commissionPct == proceeds * (1.0 - commissionPct);
    }
  }

  predicate Positive(xs: seq<real>) { forall i :: 0 <= i < |xs| ==> xs[i] > 0.0 }

  predicate Priced(bars: seq<Bar>) { forall i :: 0 <= i < |bars| ==> bars[i].close > 0.0 }

  // Above 100% the "position" bought is short, and a high enough price wipes it out.
  lemma HighCommissionWipesOut(initial: real, commissionPct: real)
    requires initial > 0.0 && commissionPct > 1.0
    ensures exists bars :: Priced(bars) && !Positive(After(initial, bars, commissionPct).equities)
  {
    var cost := initial * INVESTED;
    var short := cost - cost * commissionPct;
    NegativeProduct(cost, 1.0 - commissionPct);
    assert short == cost * (1.0 - commissionPct);
    var price := RuinousPrice(initial, short);
    var bar1, bar2 := Bar(1.0, true, false), Bar(price, false, false);
    AfterOneMore(initial, [], bar1, commissionPct);
    assert [] + [bar1] == [bar1];
    AfterOneMore(initial, [bar1], bar2, commissionPct);
    ShortAfterBuying(initial, commissionPct, short, price);
    assert Priced([bar1] + [bar2]) && !Positive(After(initial, [bar1] + [bar2], commissionPct).equities);
  }

  lemma RuinousPrice(initial: real, short: real) returns (price: real)
    requires initial > 0.0 && short < 0.0
    ensures price > 0.0 && short * price == -initial
  {
    price := initial / -short;
    Quotient(initial, -short);
    PositiveQuotient(initial, -short);
  }

  lemma ShortAfterBuying(initial: real, commissionPct: real, short: real, price: real)
    requires initial > 0.0 && price > 0.0 && short < 0.0 && short * price == -initial
    requires short == initial * INVESTED - initial * INVESTED * commissionPct
    ensures var b1 := Marked(Traded(Start(initial), Bar(1.0, true, false), commissionPct), 1.0);
            var b2 := Marked(Traded(b1, Bar(price, false, false), commissionPct), price);
            |b2.equities| == 3 && b2.equities[2] < 0.0
  {
    var b0 := Buy(Start(initial), 1.0, commissionPct);
    assert b0.position == short;
    var b1 := Marked(b0, 1.0);
    assert b1.position == short && b1.capital == initial - initial * INVESTED;
    var b2 := Marked(b1, price);
    assert b2.equities[2] == b1.capital + b1.position * price;
  }

  lemma NegativeProduct(x: real, y: real)
    requires x > 0.0 && y < 0.0
    ensures x * y < 0.0
  {
  }

  lemma PositiveQuotient(x: real, y: real)
    requires x > 0.0 && y > 0.0
    ensures x / y > 0.0
  {
  }

  // ── Drawdown ────────────────────────────────────────────────────────────────

  predicate IsPeak(peak: real, xs: seq<real>) {
    peak in xs && forall i :: 0 <= i < |xs| ==> xs[i] <= peak
  }

  // The running-peak figure: the greatest relative fall from an earlier equity.
  ghost predicate IsMaxDrawdown(d: real, xs: seq<real>) {
    && (forall i, j :: 0 <= i <= j < |xs| ==> Drawdown(xs[i], xs[j]) <= d)
    && (exists i, j :: 0 <= i <= j < |xs| && Drawdown(xs[i], xs[j]) == d)
  }

  // Falling from a higher peak to the same equity is the greater fall.
  lemma HigherPeakFallsFurther(p: real, q: real, e: real)
    requires 0.0 < p <= q && e > 0.0
    ensures Drawdown(p, e) <= Drawdown(q, e) && Drawdown(q, e) == 1.0 - e / q
  {
    assert (p - e) / p == 1.0 - e / p by { Quotient(e, p); Divide(p - e, 1.0 - e / p, p); }
    assert (q - e) / q == 1.0 - e / q by { Quotient(e, q); Divide(q - e, 1.0 - e / q, q); }
    PositiveQuotient(e, q);
    Quotient(e, q);
    MulMono(p, q, e / q);
    assert (e / q) * p <= e;
    QuotientBetween(e / q, e, e / p, p);
  }

  lemma Divide(x: real, z: real, y: real)
    requires y > 0.0 && z * y == x
    ensures x / y == z
  {
  }

  lemma PeakMoves(xs: seq<real>, peak: real, e: real)
    requires IsPeak(peak, xs)
    ensures IsPeak(if e > peak then e else peak, xs + [e])
  {
    var k :| 0 <= k < |xs| && xs[k] == peak;
    assert (xs + [e])[k] == peak && (xs + [e])[|xs|] == e;
  }

  // One more equity: falls to it are greatest from the new peak, the others as before.
  lemma DrawdownMoves(xs: seq<real>, peak: real, d: real, e: real)
    requires Positive(xs) && e > 0.0 && IsPeak(peak, xs + [e]) && IsMaxDrawdown(d, xs)
    ensures IsMaxDrawdown(if Drawdown(peak, e) > d then Drawdown(peak, e) else d, xs + [e])
  {
    var ys, n := xs + [e], |xs|;
    var d' := if Drawdown(peak, e) > d then Drawdown(peak, e) else d;
    forall i, j | 0 <= i <= j < |ys| ensures Drawdown(ys[i], ys[j]) <= d' {
      if j < n {
        assert Drawdown(xs[i], xs[j]) <= d;
      } else {
        assert ys[i] > 0.0 && ys[i] <= peak;
        HigherPeakFallsFurther(ys[i], peak, e);
      }
    }
    if d' == d {
      var i, j :| 0 <= i <= j < n && Drawdown(xs[i], xs[j]) == d;
      assert Drawdown(ys[i], ys[j]) == d';
    } else {
      var k :| 0 <= k < |ys| && ys[k] == peak;
      assert Drawdown(ys[k], ys[n]) == d';
    }
  }

  // The peak and the drawdown figure describe the equities so far, all positive.
  ghost predicate Tracks(peak: real, d: real, xs: seq<real>) {
    Positive(xs) && IsPeak(peak, xs) && IsMaxDrawdown(d, xs)
  }

  lemma NotedTracks(b: Book, e: real)
    requires Tracks(b.peak, b.maxDrawdown, b.equities) && e > 0.0
    ensures Tracks(Noted(b, e).peak, Noted(b, e).maxDrawdown, Noted(b, e).equities)
  {
    PeakMoves(b.equities, b.peak, e);
    DrawdownMoves(b.equities, Noted(b, e).peak, b.maxDrawdown, e);
  }

  lemma TradedFields(b: Book, bar: Bar, commissionPct: real)
    requires bar.close > 0.0
    ensures var t := Traded(b, bar, commissionPct);
            t.peak == b.peak && t.maxDrawdown == b.maxDrawdown && t.equities == b.equities
  {
  }

  lemma MarkedTracks(b: Book, close: real)
    requires Solvent(b) && Tracks(b.peak, b.maxDrawdown, b.equities) && close > 0.0
    ensures Solvent(Marked(b, close))
    ensures Tracks(Marked(b, close).peak, Marked(b, close).maxDrawdown, Marked(b, close).equities)
  {
    NonNegativeProduct(b.position, close);
    NotedTracks(b, Equity(b, close));
  }

  lemma {:induction false} AlwaysTracks(initial: real, bars: seq<Bar>, commissionPct: real)
    requires initial > 0.0 && commissionPct <= 1.0 && forall i :: 0 <= i < |bars| ==> bars[i].close > 0.0
    ensures var b := After(initial, bars, commissionPct);
            Solvent(b) && Tracks(b.peak, b.maxDrawdown, b.equities)
  {
    if bars == [] {
      assert Drawdown(initial, initial) == 0.0;
      assert Start(initial).equities[0] == initial;
    } else {
      var before, bar := bars[..|bars| - 1], bars[|bars| - 1];
      AlwaysTracks(initial, before, commissionPct);
      var b := After(initial, before, commissionPct);
      StaysSolvent(b, bar, commissionPct);
      TradedFields(b, bar, commissionPct);
      MarkedTracks(Traded(b, bar, commissionPct), bar.close);
    }
  }

  // Equity is positive at every bar, for any signals, positive prices and a commission
  // of at most 100%.
  lemma EquityStaysPositive(initial: real, bars: seq<Bar>, commissionPct: real)
    requires initial > 0.0 && commissionPct <= 1.0 && forall i :: 0 <= i < |bars| ==> bars[i].close > 0.0
    ensures Positive(After(initial, bars, commissionPct).equities)
  {
    AlwaysTracks(initial, bars, commissionPct);
  }

  // Exactly then.
  lemma EquityPositiveIff(initial: real, commissionPct: real)
    requires initial > 0.0
    ensures (forall bars :: Priced(bars) ==> Positive(After(initial, bars, commissionPct).equities)) <==>
              commissionPct <= 1.0
  {
    if commissionPct <= 1.0 {
      forall bars | Priced(bars) ensures Positive(After(initial, bars, commissionPct).equities) {
        EquityStaysPositive(initial, bars, commissionPct);
      }
    } else {
      HighCommissionWipesOut(initial, commissionPct);
    }
  }

  // The greatest relative fall (E_i - E_j) / E_i from an equity to itself or a later one.
  ghost predicate IsGreatestFall(d: real, xs: seq<real>)
    requires Positive(xs)
  {
    && (forall i, j :: 0 <= i <= j < |xs| ==> (xs[i] - xs[j]) / xs[i] <= d)
    && (exists i, j :: 0 <= i <= j < |xs| && (xs[i] - xs[j]) / xs[i] == d)
  }

  lemma FallsWrittenOut(d: real, xs: seq<real>)
    requires Positive(xs) && IsMaxDrawdown(d, xs)
    ensures IsGreatestFall(d, xs)
  {
    forall i, j | 0 <= i <= j < |xs| ensures (xs[i] - xs[j]) / xs[i] <= d { assert Drawdown(xs[i], xs[j]) <= d; }
    var i, j :| 0 <= i <= j < |xs| && Drawdown(xs[i], xs[j]) == d;
    assert (xs[i] - xs[j]) / xs[i] == d;
  }

  // max_drawdown_pct is the maximum of (E_i - E_j) / E_i over all i <= j, with the
  // initial capital as E_0.
  lemma DrawdownIsMaximum(initial: real, bars: seq<Bar>, commissionPct: real)
    requires initial > 0.0 && commissionPct <= 1.0 && forall i :: 0 <= i < |bars| ==> bars[i].close > 0.0
    ensures var b := After(initial, bars, commissionPct);
            Positive(b.equities) && IsGreatestFall(b.maxDrawdown, b.equities) && b.equities[0] == initial
  {
    AlwaysTracks(initial, bars, commissionPct);
    FallsWrittenOut(After(initial, bars, commissionPct).maxDrawdown, After(initial, bars, commissionPct).equities);
    StartsWithCapital(initial, bars, commissionPct);
  }

  lemma {:induction false} StartsWithCapital(initial: real, bars: seq<Bar>, commissionPct: real)
    requires forall i :: 0 <= i < |bars| ==> bars[i].close > 0.0
    ensures var b := After(initial, bars, commissionPct); |b.equities| == |bars| + 1 && b.equities[0] == initial
  {
    if bars != [] {
      var before, bar := bars[..|bars| - 1], bars[|bars| - 1];
      StartsWithCapital(initial, before, commissionPct);
      TradedFields(After(initial, before, commissionPct), bar, commissionPct);
      MarkMeans(Traded(After(initial, before, commissionPct), bar, commissionPct), bar.close);
    }
  }
}
