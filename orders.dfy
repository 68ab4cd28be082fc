/** Orders listed newest first: the order-history view of the storefront and
    the order list of the admin console both sort a copy with
    `(a, b) => new Date(b.date) - new Date(a.date)`. The sort is stable, so
    orders with the same date keep their stored order; the insertion sort
    below places an earlier order before every later one of equal date. */
module Orders {
  import opened Seqs
  import opened Records

  predicate NewestFirst(s: seq<Order>) {
    forall i, j :: 0 <= i < j < |s| ==> s[i].date >= s[j].date
  }

  /** Inserts `o` before the first order of `s` that is not newer than it. */
  function InsertByDate(o: Order, s: seq<Order>): (r: seq<Order>)
    ensures multiset(r) == multiset(s) + multiset{o}
    ensures r[0] == o || (s != [] && r[0] == s[0])
  {
    if s == [] || s[0].date <= o.date then [o] + s
    else
      assert s == [s[0]] + s[1..];
      [s[0]] + InsertByDate(o, s[1..])
  }

  lemma {:induction false} InsertNewestFirst(o: Order, s: seq<Order>)
    requires NewestFirst(s)
    ensures NewestFirst(InsertByDate(o, s))
  {
    if s != [] && s[0].date > o.date {
      var rest := InsertByDate(o, s[1..]);
      InsertNewestFirst(o, s[1..]);
      var r := [s[0]] + rest;
      assert InsertByDate(o, s) == r;
      assert s[0].date >= rest[0].date;
      forall i, j | 0 <= i < j < |r| ensures r[i].date >= r[j].date {
        if i > 0 {
          assert r[i] == rest[i - 1];
        } else {
          assert rest[0].date >= rest[j - 1].date;
        }
      }
    }
  }

  /** The orders of `s`, newest first. */
  function SortByDateDesc(s: seq<Order>): (r: seq<Order>)
    ensures multiset(r) == multiset(s)
  {
    if s == [] then []
    else
      assert s == [s[0]] + s[1..];
      InsertByDate(s[0], SortByDateDesc(s[1..]))
  }

  lemma {:induction false} SortNewestFirst(s: seq<Order>)
    ensures NewestFirst(SortByDateDesc(s))
  {
    if s != [] {
      SortNewestFirst(s[1..]);
      InsertNewestFirst(s[0], SortByDateDesc(s[1..]));
    }
  }

  /** A sorted copy holds exactly the orders of the original. */
  lemma SortKeepsOrders(s: seq<Order>)
    ensures |SortByDateDesc(s)| == |s|
    ensures forall o :: o in SortByDateDesc(s) <==> o in s
  {
    var r := SortByDateDesc(s);
    assert |multiset(r)| == |multiset(s)|;
    forall o ensures o in r <==> o in s {
      assert o in r <==> o in multiset(r);
      assert o in s <==> o in multiset(s);
    }
  }

  function DatedOn(date: int): Order -> bool {
    (o: Order) => o.date == date
  }

  lemma {:induction false} InsertStable(o: Order, s: seq<Order>, date: int)
    ensures Filter(InsertByDate(o, s), DatedOn(date)) ==
      (if o.date == date then [o] else []) + Filter(s, DatedOn(date))
  {
    var f := DatedOn(date);
    if s == [] || s[0].date <= o.date {
      FilterCons(o, s, f);
    } else {
      var rest := InsertByDate(o, s[1..]);
      var head := if f(s[0]) then [s[0]] else [];
      var mine := if f(o) then [o] else [];
      calc {
        Filter(InsertByDate(o, s), f);
        Filter([s[0]] + rest, f);
        { FilterCons(s[0], rest, f); }
        head + Filter(rest, f);
        { InsertStable(o, s[1..], date); }
        head + (mine + Filter(s[1..], f));
        { // `o` is kept only when it has the date, and then the newer `s[0]` is not
          if f(o) { assert head == []; } }
        mine + (head + Filter(s[1..], f));
        { FilterCons(s[0], s[1..], f); assert s == [s[0]] + s[1..]; }
        mine + Filter(s, f);
      }
    }
  }

  /** The sort is stable: the orders placed on any one date appear in the
      sorted copy in the same relative order as in the stored array. */
  lemma {:induction false} SortStable(s: seq<Order>, date: int)
    ensures Filter(SortByDateDesc(s), DatedOn(date)) == Filter(s, DatedOn(date))
  {
    if s != [] {
      SortStable(s[1..], date);
      InsertStable(s[0], SortByDateDesc(s[1..]), date);
    }
  }

  /** Stability, for every date at once. */
  lemma SortStableAll(s: seq<Order>)
    ensures forall d :: Filter(SortByDateDesc(s), DatedOn(d)) == Filter(s, DatedOn(d))
  {
    forall d ensures Filter(SortByDateDesc(s), DatedOn(d)) == Filter(s, DatedOn(d)) {
      SortStable(s, d);
    }
  }
}
