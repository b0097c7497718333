// Vocabulary shared by the execution modules: orders, their statuses, and what
// a broker says about an order when asked.
module Orders {

  datatype Option<+T> = None | Some(value: T)

  // An order number. 0 stands for the empty string, which the source treats as "no id".
  type OrderId = nat
  type Symbol = string

  datatype Side = Buy | Sell

  datatype Status =
    | Pending | Submitted | PartialFilled | Filled
    | Canceled | Rejected | Expired | Unknown

  predicate Terminal(s: Status) {
    s == Filled || TerminalNegative(s)
  }

  predicate TerminalNegative(s: Status) {
    s == Canceled || s == Rejected || s == Expired
  }

  datatype Order = Order(
    id: OrderId, symbol: Symbol, side: Side, qty: int, price: real,
    status: Status, filled: int, avg: real)

  // A broker's answer about one order: everything it reports is cumulative.
  datatype Report = Report(status: Status, filled: int, avg: real)

  function Updated(o: Order, r: Report): Order {
    o.(status := r.status, filled := r.filled, avg := r.avg)
  }

  // n shares at avg and q more at price, averaged.
  function WeightedAverage(avg: real, n: int, price: real, q: int): real
    requires n + q != 0
  {
    (avg * n as real + price * q as real) / (n + q) as real
  }
}
