// Following a paginated inquiry to its last page (kis_adapter/pagination.py), over a
// client that may answer anything: never a partial list.
module Pagination {
  import opened Basics
  import opened Orders

  // A field of a body: not there, None or "", one row as a dict, or a list of rows.
  datatype Field<T> = Absent | Blank | One(row: T) | Many(rows: seq<T>)

  datatype Body<T> = Body(fields: map<string, Field<T>>, fk: string, nk: string)

  datatype Reply<T> = Raised | Page(body: Body<T>, cont: string)

  const MORE: set<string> := {"F", "M"}

  function Get<T>(b: Body<T>, key: string): Field<T> {
    if key in b.fields then b.fields[key] else Absent
  }

  function Rows<T>(f: Field<T>): seq<T> {
    match f
    case Absent | Blank => []
    case One(row) => [row]
    case Many(rows) => rows
  }

  predicate Usable<T>(f: Field<T>) { f.One? || f.Many? }

  predicate HasRows<T>(b: Body<T>, key: string) {
    key in b.fields && (b.fields[key].One? || b.fields[key].Many?)
  }

  // The first candidate the body carries.
  function ChooseKey<T>(b: Body<T>, keys: seq<string>): (r: Option<string>)
    ensures r.None? <==> forall i :: 0 <= i < |keys| ==> !HasRows(b, keys[i])
    ensures r.Some? ==> exists i :: 0 <= i < |keys| && keys[i] == r.value && HasRows(b, keys[i])
                                    && forall j :: 0 <= j < i ==> !HasRows(b, keys[j])
  {
    if keys == [] then None
    else if Usable(Get(b, keys[0])) then Some(keys[0])
    else
      var r := ChooseKey(b, keys[1..]);
      assert forall i :: 1 <= i < |keys| ==> keys[i] == keys[1..][i - 1];
      r
  }

  predicate IsSpace(c: char) { c in " \t\n\r" }

  predicate AllSpace(s: string) { forall i :: 0 <= i < |s| ==> IsSpace(s[i]) }

  predicate HasNextKey<T>(b: Body<T>) { !AllSpace(b.fk) || !AllSpace(b.nk) }

  // What a loop over the generator meets.
  datatype Trace<T> = Stop | Fail | Yield(rows: seq<T>, rest: Trace<T>)

  // A request, with the continuation keys of the page before it.
  datatype Request = FirstPage | NextPage(fk: string, nk: string)

  // What the k-th request is answered with, and all of them: each after the first
  // carries the keys of the answer before it.
  type Client<!T> = (nat, Request) -> Reply<T>

  function Answer<T>(client: Client<T>, k: nat): Reply<T> {
    if k == 0 then client(0, FirstPage)
    else
      var last := Answer(client, k - 1);
      if last.Raised? then Raised else client(k, NextPage(last.body.fk, last.body.nk))
  }

  function Answers<T>(client: Client<T>): nat -> Reply<T> { (k: nat) => Answer(client, k) }

  // The key the rows are merged under.
  function KeyOf<T>(first: Body<T>, keys: seq<string>): string
    requires keys != []
  {
    var chosen := ChooseKey(first, keys);
    if chosen.Some? then chosen.value else keys[0]
  }

  function Pages<T>(answers: nat -> Reply<T>, keys: seq<string>, maxPages: nat): Trace<T>
    requires keys != []
  {
    var first := answers(0);
    if first.Raised? then Fail
    else
      var key := ChooseKey(first.body, keys);
      if key.None? && first.cont in MORE then Fail
      else
        var k := if key.Some? then key.value else keys[0];
        Yield(Rows(Get(first.body, k)), Rest(answers, k, maxPages, 1))
  }

  function Rest<T>(answers: nat -> Reply<T>, key: string, maxPages: nat, pages: nat): Trace<T>
    requires pages > 0 && answers(pages - 1).Page?
    decreases maxPages - pages
  {
    var last := answers(pages - 1);
    if last.cont !in MORE then Stop
    else if !HasNextKey(last.body) || pages >= maxPages then Fail
    else
      var next := answers(pages);
      if next.Raised? || Get(next.body, key).Absent? then Fail
      else Yield(Rows(Get(next.body, key)), Rest(answers, key, maxPages, pages + 1))
  }

  function Yielded<T>(t: Trace<T>): seq<T> {
    match t
    case Stop | Fail => []
    case Yield(rows, rest) => rows + Yielded(rest)
  }

  predicate Ends<T>(t: Trace<T>) {
    match t
    case Stop => true
    case Fail => false
    case Yield(_, rest) => Ends(rest)
  }

  // ── The generator and its two callers ───────────────────────────────────────

  lemma NextTurn<T>(client: Client<T>, key: string, maxPages: nat, pages: nat)
    requires pages > 0 && Answer(client, pages - 1).Page?
    ensures var last := Answer(client, pages - 1); var t := Rest(Answers(client), key, maxPages, pages);
            if last.cont !in MORE then t == Stop
            else
              var next := client(pages, NextPage(last.body.fk, last.body.nk));
              && next == Answer(client, pages)
              && if !HasNextKey(last.body) || pages >= maxPages || next.Raised? || Get(next.body, key).Absent?
                 then t == Fail
                 else t == Yield(Rows(Get(next.body, key)), Rest(Answers(client), key, maxPages, pages + 1))
  {
    assert Answers(client)(pages - 1) == Answer(client, pages - 1) && Answers(client)(pages) == Answer(client, pages);
  }

  datatype Turn<T> = Exhausted | Error | Given(body: Body<T>, key: string, rows: seq<T>)

  class PageIterator<T> {
    const client: Client<T>
    const keys: seq<string>
    const maxPages: nat
    var pages: nat
    var key: string
    var last: Reply<T>
    ghost var asked: nat              // requests made

    ghost predicate Valid()
      reads this
    {
      && keys != [] && asked == pages
      && (pages > 0 ==> pages <= Max(1, maxPages) && last == Answer(client, pages - 1) && last.Page?
                        && Answer(client, 0).Page? && key == KeyOf(Answer(client, 0).body, keys))
    }

    // What is still to come.
    ghost function Remaining(): Trace<T>
      requires Valid()
      reads this
    {
      if pages == 0 then Pages(Answers(client), keys, maxPages) else Rest(Answers(client), key, maxPages, pages)
    }

    constructor (client: Client<T>, keys: seq<string>, maxPages: nat)
      requires keys != []
      ensures Valid() && pages == 0 && this.client == client && this.keys == keys && this.maxPages == maxPages
      ensures Remaining() == Pages(Answers(client), keys, maxPages)
    {
      this.client, this.keys, this.maxPages := client, keys, maxPages;
      pages, key, last, asked := 0, "", Raised, 0;
    }

    // One request at most, and none past the limit; it carries the last page's keys.
    method MoveNext() returns (turn: Turn<T>)
      requires Valid()
      modifies this
      ensures old(asked) <= asked <= Max(1, maxPages) && asked <= old(asked) + 1
      ensures match turn
              case Exhausted => old(Remaining()) == Stop && old(pages) > 0 && key == old(key)
              case Error => old(Remaining()) == Fail
              case Given(body, k, rows) =>
                && Valid() && pages == old(pages) + 1
                && old(Remaining()) == Yield(rows, Remaining())
                && Answer(client, old(pages)).Page? && body == Answer(client, old(pages)).body
                && k == KeyOf(Answer(client, 0).body, keys)
    {
      var ok;
      if pages == 0 {
        ok := First();
      } else if last.cont !in MORE {
        NextTurn(client, key, maxPages, pages);
        return Exhausted;
      } else {
        ok := Follow();
      }
      if !ok { return Error; }
      return Given(last.body, key, Rows(Get(last.body, key)));
    }

    method First() returns (ok: bool)
      requires Valid() && pages == 0
      modifies this
      ensures asked == 1
      ensures if ok then Valid() && pages == 1 && old(Remaining()) == Yield(Rows(Get(last.body, key)), Remaining())
              else old(Remaining()) == Fail
    {
      last, asked := client(0, FirstPage), 1;
      assert Answers(client)(0) == last;
      if last.Raised? { return false; }
      var found := ChooseKey(last.body, keys);
      if found.None? {
        if last.cont in MORE { return false; }
        key := keys[0];
      } else {
        key := found.value;
      }
      pages, ok := 1, true;
    }

    method Follow() returns (ok: bool)
      requires Valid() && pages > 0 && last.cont in MORE
      modifies this
      ensures old(asked) <= asked <= Max(1, maxPages) && asked <= old(asked) + 1
      ensures if ok then && Valid() && pages == old(pages) + 1 && key == old(key)
                         && old(Remaining()) == Yield(Rows(Get(last.body, key)), Remaining())
              else old(Remaining()) == Fail
    {
      NextTurn(client, key, maxPages, pages);
      if (AllSpace(last.body.fk) && AllSpace(last.body.nk)) || pages >= maxPages { return false; }
      var next := client(pages, NextPage(last.body.fk, last.body.nk));
      asked := asked + 1;
      if next.Raised? || Get(next.body, key).Absent? { return false; }
      last, pages, ok := next, pages + 1, true;
    }
  }

  // The first page's body with every page's rows in it, or nothing; None is the exception.
  method GetAllPages<T>(client: Client<T>, keys: seq<string>, maxPages: nat)
    returns (all: Option<Body<T>>, ghost asked: nat)
    requires keys != []
    ensures asked <= Max(1, maxPages)
    ensures var t := Pages(Answers(client), keys, maxPages);
            && (all.Some? <==> Ends(t))
            && (all.Some? ==> client(0, FirstPage).Page?
                              && var first := client(0, FirstPage).body;
                                 all.value == first.(fields := first.fields[KeyOf(first, keys) := Many(Yielded(t))]))
  {
    var it := new PageIterator(client, keys, maxPages);
    ghost var t, left := Pages(Answers(client), keys, maxPages), it.Remaining();
    var merged, rows := None, [];
    while true
      invariant fresh(it) && it.Valid() && it.maxPages == maxPages && left == it.Remaining()
      invariant it.client == client && it.keys == keys && (merged.None? <==> it.pages == 0)
      invariant merged.Some? ==> merged.value == client(0, FirstPage).body
      invariant Ends(t) <==> Ends(left)
      invariant Yielded(t) == rows + Yielded(left)
      decreases Max(1, maxPages) - it.pages
    {
      var turn := it.MoveNext();
      match turn
      case Exhausted =>
        assert rows + [] == rows;
        var body := merged.value;
        return Some(body.(fields := body.fields[it.key := Many(rows)])), it.asked;
      case Error => return None, it.asked;
      case Given(body, _, page) =>
        if merged.None? { merged := Some(body); }
        assert left == Yield(page, it.Remaining());
        Assoc(rows, page, Yielded(it.Remaining()));
        rows, left := rows + page, it.Remaining();
    }
  }

  lemma Assoc<T>(a: seq<T>, b: seq<T>, c: seq<T>)
    ensures a + (b + c) == (a + b) + c
  {
  }

  datatype Found<T> = Row(row: T) | NoRow | LookupFailed

  method FindRow<T>(client: Client<T>, keys: seq<string>, maxPages: nat, matches: T -> bool)
    returns (found: Found<T>, ghost asked: nat)
    requires keys != []
    ensures asked <= Max(1, maxPages)
    ensures found == Search(Pages(Answers(client), keys, maxPages), matches)
  {
    var it := new PageIterator(client, keys, maxPages);
    ghost var t := Pages(Answers(client), keys, maxPages);
    while true
      invariant fresh(it) && it.Valid() && it.maxPages == maxPages
      invariant Search(t, matches) == Search(it.Remaining(), matches)
      decreases Max(1, maxPages) - it.pages
    {
      var turn := it.MoveNext();
      if turn.Exhausted? { return NoRow, it.asked; }
      if turn.Error? { return LookupFailed, it.asked; }
      for i := 0 to |turn.rows|
        invariant FirstMatch(turn.rows, matches) == FirstMatch(turn.rows[i..], matches)
      {
        assert turn.rows[i..][1..] == turn.rows[i + 1..];
        if matches(turn.rows[i]) { return Row(turn.rows[i]), it.asked; }
      }
    }
  }

  function FirstMatch<T>(rows: seq<T>, matches: T -> bool): (r: Option<T>)
    ensures r.None? <==> forall i :: 0 <= i < |rows| ==> !matches(rows[i])
    ensures r.Some? ==> exists i :: 0 <= i < |rows| && rows[i] == r.value && matches(rows[i])
                                    && forall j :: 0 <= j < i ==> !matches(rows[j])
  {
    if rows == [] then None
    else if matches(rows[0]) then Some(rows[0])
    else
      var r := FirstMatch(rows[1..], matches);
      assert forall i :: 1 <= i < |rows| ==> rows[i] == rows[1..][i - 1];
      r
  }

  function Search<T>(t: Trace<T>, matches: T -> bool): Found<T> {
    match t
    case Stop => NoRow
    case Fail => LookupFailed
    case Yield(rows, rest) =>
      var m := FirstMatch(rows, matches);
      if m.Some? then Row(m.value) else Search(rest, matches)
  }

  // ── What they promise ───────────────────────────────────────────────────────

  lemma {:induction false} FirstOfConcat<T>(a: seq<T>, b: seq<T>, matches: T -> bool)
    ensures FirstMatch(a + b, matches) ==
              if FirstMatch(a, matches).Some? then FirstMatch(a, matches) else FirstMatch(b, matches)
  {
    if a == [] {
      assert a + b == b;
    } else {
      assert (a + b)[1..] == a[1..] + b;
      FirstOfConcat(a[1..], b, matches);
    }
  }

  // find_row is the first match among everything that came before the end or the first
  // failure: a later failing page cannot hide a row an earlier page returned, and
  // "no such row" is said only after every page was read.
  lemma {:induction false} SearchIsFirstMatch<T>(t: Trace<T>, matches: T -> bool)
    ensures Search(t, matches) ==
              match FirstMatch(Yielded(t), matches)
              case Some(row) => Row(row)
              case None => if Ends(t) then NoRow else LookupFailed
  {
    match t
    case Stop | Fail =>
    case Yield(rows, rest) =>
      SearchIsFirstMatch(rest, matches);
      FirstOfConcat(rows, Yielded(rest), matches);
  }

  // A row list as the callers get it: what is there, one row or many, in its order.
  lemma RowsMeans<T>(f: Field<T>, i: nat)
    ensures |Rows(f)| == (if f.Many? then |f.rows| else if f.One? then 1 else 0)
    ensures i < |Rows(f)| ==> Rows(f)[i] == if f.One? then f.row else f.rows[i]
  {
  }

  // The page says that another follows, and how to ask for it.
  predicate Continues<T>(page: Reply<T>) {
    page.Page? && (page.cont == "F" || page.cont == "M") && (!White(page.body.fk) || !White(page.body.nk))
  }

  // Nothing but white space, if anything.
  predicate White(s: string) {
    forall i :: 0 <= i < |s| ==> s[i] == ' ' || s[i] == '\t' || s[i] == '\n' || s[i] == '\r'
  }

  // A complete inquiry of n pages: every page but the last says more follow and carries
  // a key for the next, every page has the rows under the first page's key.
  ghost predicate Complete<T>(answers: nat -> Reply<T>, key: string, n: nat) {
    && n > 0
    && (forall i :: 0 <= i < n ==> answers(i).Page?)
    && (forall i :: 0 <= i < n - 1 ==> Continues(answers(i)))
    && answers(n - 1).cont != "F" && answers(n - 1).cont != "M"
    && (forall i :: 0 < i < n ==> key in answers(i).body.fields && !answers(i).body.fields[key].Absent?)
  }

  function RowsFrom<T>(answers: nat -> Reply<T>, key: string, i: nat, n: nat): seq<T>
    requires i <= n && forall k :: i <= k < n ==> answers(k).Page?
    decreases n - i
  {
    if i == n then [] else Rows(Get(answers(i).body, key)) + RowsFrom(answers, key, i + 1, n)
  }

  lemma {:induction false} RestEnds<T>(answers: nat -> Reply<T>, key: string, maxPages: nat, pages: nat, n: nat)
    requires 0 < pages <= n <= Max(pages, maxPages) && Complete(answers, key, n)
    ensures Ends(Rest(answers, key, maxPages, pages))
    ensures Yielded(Rest(answers, key, maxPages, pages)) == RowsFrom(answers, key, pages, n)
    decreases n - pages
  {
    assert answers(pages - 1).Page?;
    if pages < n {
      assert answers(pages).Page? && !Get(answers(pages).body, key).Absent?;
      RestEnds(answers, key, maxPages, pages + 1, n);
    }
  }

  lemma {:induction false} RestIsComplete<T>(answers: nat -> Reply<T>, key: string, maxPages: nat, pages: nat)
    returns (n: nat)
    requires pages > 0 && answers(pages - 1).Page? && Ends(Rest(answers, key, maxPages, pages))
    ensures pages <= n <= Max(pages, maxPages)
    ensures forall i :: pages - 1 <= i < n ==> answers(i).Page?
    ensures forall i :: pages - 1 <= i < n - 1 ==> answers(i).cont in MORE && HasNextKey(answers(i).body)
    ensures answers(n - 1).cont !in MORE
    ensures forall i :: pages <= i < n ==> !Get(answers(i).body, key).Absent?
    decreases maxPages - pages
  {
    if answers(pages - 1).cont !in MORE {
      n := pages;
    } else {
      n := RestIsComplete(answers, key, maxPages, pages + 1);
    }
  }

  // get_all_pages succeeds exactly on a complete inquiry of at most max_pages pages, and
  // then returns every page's rows in order. The key is the first candidate the first
  // page carries, or the first candidate if it carries none and nothing follows.
  lemma SucceedsIffComplete<T>(answers: nat -> Reply<T>, keys: seq<string>, maxPages: nat)
    requires keys != []
    ensures answers(0).Raised? ==> Pages(answers, keys, maxPages) == Fail
    ensures answers(0).Page? ==>
            var chosen := ChooseKey(answers(0).body, keys);
            var key := KeyOf(answers(0).body, keys);
            Ends(Pages(answers, keys, maxPages)) <==>
              (chosen.Some? || (answers(0).cont != "F" && answers(0).cont != "M"))
              && exists n: nat :: n <= Max(1, maxPages) && Complete(answers, key, n)
  {
    if answers(0).Raised? { return; }
    var chosen := ChooseKey(answers(0).body, keys);
    var key := KeyOf(answers(0).body, keys);
    if Ends(Pages(answers, keys, maxPages)) {
      var n := RestIsComplete(answers, key, maxPages, 1);
      assert Complete(answers, key, n);
    }
    if (chosen.Some? || answers(0).cont !in MORE)
       && exists n: nat :: n <= Max(1, maxPages) && Complete(answers, key, n)
    {
      var n: nat :| n <= Max(1, maxPages) && Complete(answers, key, n);
      RestEnds(answers, key, maxPages, 1, n);
    }
  }

  lemma ReturnsEveryPage<T>(answers: nat -> Reply<T>, keys: seq<string>, maxPages: nat, n: nat)
    requires keys != [] && answers(0).Page? && Ends(Pages(answers, keys, maxPages))
    requires Complete(answers, KeyOf(answers(0).body, keys), n) && n <= Max(1, maxPages)
    ensures Yielded(Pages(answers, keys, maxPages)) == RowsFrom(answers, KeyOf(answers(0).body, keys), 0, n)
  {
    RestEnds(answers, KeyOf(answers(0).body, keys), maxPages, 1, n);
  }
}
