/** SQL over small tables: WHERE, a first-row lookup, ORDER BY and LIMIT on a table in scan order. */
module Tables {
  import opened Prelude

  /** WHERE, keeping scan order. */
  function Filter<T(!new)>(s: seq<T>, p: T -> bool): (r: seq<T>)
    ensures |r| <= |s|
  {
    if s == [] then []
    else if p(s[0]) then [s[0]] + Filter(s[1..], p)
    else Filter(s[1..], p)
  }

  /** A WHERE returns exactly the rows that satisfy it. */
  lemma {:induction false} FilterHas<T(!new)>(s: seq<T>, p: T -> bool)
    ensures forall x :: x in Filter(s, p) <==> x in s && p(x)
  {
    if s != [] {
      FilterHas(s[1..], p);
      assert forall x :: x in s <==> x == s[0] || x in s[1..];
    }
  }

  /** The positions below `n` whose rows satisfy the condition. */
  ghost function Chosen<T(!new)>(s: seq<T>, p: T -> bool, n: nat): set<nat>
    requires n <= |s|
  {
    set i: nat | i < n && p(s[i])
  }

  lemma ChosenNext<T(!new)>(s: seq<T>, p: T -> bool, n: nat)
    requires n < |s|
    ensures |Chosen(s, p, n + 1)| == |Chosen(s, p, n)| + if p(s[n]) then 1 else 0
  {
    assert Chosen(s, p, n + 1) == Chosen(s, p, n) + if p(s[n]) then {n} else {};
  }

  lemma {:induction false} ChosenTail<T(!new)>(s: seq<T>, p: T -> bool, n: nat)
    requires n < |s|
    ensures |Chosen(s, p, n + 1)| == |Chosen(s[1..], p, n)| + if p(s[0]) then 1 else 0
  {
    hide Chosen;
    ChosenNext(s, p, n);
    if n == 0 {
      assert Chosen(s, p, 0) == {} && Chosen(s[1..], p, 0) == {} by { NoneChosen(s, p); }
    } else {
      ChosenTail(s, p, n - 1);
      ChosenNext(s[1..], p, n - 1);
    }
  }

  lemma NoneChosen<T(!new)>(s: seq<T>, p: T -> bool)
    requires s != []
    ensures Chosen(s, p, 0) == {} && Chosen(s[1..], p, 0) == {}
  {
  }

  /** And as many as there are. */
  lemma {:induction false} FilterCount<T(!new)>(s: seq<T>, p: T -> bool)
    ensures |Filter(s, p)| == |Chosen(s, p, |s|)|
  {
    if s == [] {
      assert Chosen(s, p, 0) == {};
    } else {
      FilterCount(s[1..], p);
      ChosenTail(s, p, |s| - 1);
    }
  }

  /** `fetchone` */
  function First<T(!new)>(s: seq<T>, p: T -> bool): (r: Option<T>)
    ensures r.Some? ==> r.value in s && p(r.value)
    ensures r == None <==> forall x :: x in s ==> !p(x)
  {
    var rows := Filter(s, p);
    FilterHas(s, p);
    assert rows != [] ==> rows[0] in rows;
    if rows == [] then None else Some(rows[0])
  }

  /** A condition that implies an earlier one does not notice it. */
  lemma {:induction false} FilterTwice<T(!new)>(s: seq<T>, p: T -> bool, q: T -> bool)
    requires forall x :: x in s && q(x) ==> p(x)
    ensures Filter(Filter(s, p), q) == Filter(s, q)
  {
    if s != [] {
      FilterTwice(s[1..], p, q);
      if p(s[0]) {
        assert ([s[0]] + Filter(s[1..], p))[1..] == Filter(s[1..], p);
      }
    }
  }

  lemma {:induction false} FilterBoth<T(!new)>(s: seq<T>, p: T -> bool, q: T -> bool, both: T -> bool)
    requires forall x :: x in s ==> (both(x) <==> p(x) && q(x))
    ensures Filter(Filter(s, p), q) == Filter(s, both)
  {
    if s != [] {
      FilterBoth(s[1..], p, q, both);
      if p(s[0]) {
        assert ([s[0]] + Filter(s[1..], p))[1..] == Filter(s[1..], p);
      }
    }
  }

  /** Conditions that agree on a table's rows select the same of them. */
  lemma {:induction false} FilterAgrees<T(!new)>(s: seq<T>, p: T -> bool, q: T -> bool)
    requires forall x :: x in s ==> p(x) == q(x)
    ensures Filter(s, p) == Filter(s, q)
  {
    if s != [] {
      FilterAgrees(s[1..], p, q);
    }
  }

  lemma FilterHead<T(!new)>(x: T, s: seq<T>, p: T -> bool)
    ensures Filter([x] + s, p) == (if p(x) then [x] else []) + Filter(s, p)
  {
    assert ([x] + s)[1..] == s;
  }

  lemma {:induction false} FilterAppend<T(!new)>(a: seq<T>, b: seq<T>, p: T -> bool)
    ensures Filter(a + b, p) == Filter(a, p) + Filter(b, p)
  {
    if a == [] {
      assert a + b == b;
    } else {
      var x, rest := a[0], a[1..];
      FilterAppend(rest, b, p);
      hide Filter;
      FilterHead(x, rest, p);
      FilterHead(x, rest + b, p);
      assert a == [x] + rest && a + b == [x] + (rest + b);
    }
  }

  lemma {:induction false} FilterAll<T(!new)>(s: seq<T>, p: T -> bool)
    ensures Filter(s, p) == s <==> forall x :: x in s ==> p(x)
    ensures |Filter(s, p)| == |s| <==> forall x :: x in s ==> p(x)
  {
    if s != [] {
      FilterAll(s[1..], p);
      assert forall x :: x in s <==> x == s[0] || x in s[1..];
      assert s == [s[0]] + s[1..];
    }
  }

  /** LIMIT */
  function Take<T(!new)>(s: seq<T>, n: nat): (r: seq<T>)
    ensures |r| == if n < |s| then n else |s|
    ensures r <= s
  {
    if n < |s| then s[..n] else s
  }

  lemma FilterNone<T(!new)>(s: seq<T>, p: T -> bool)
    ensures Filter(s, p) == [] <==> forall x :: x in s ==> !p(x)
  {
    var rows := Filter(s, p);
    FilterHas(s, p);
    if rows != [] { assert rows[0] in rows; }
  }

  lemma TakeWhole<T(!new)>(f: seq<T>, b: seq<T>, n: nat)
    requires |f| <= n
    ensures f == Take(f + b, n) <==> b == [] || |f| == n
  {
    if b == [] {
      assert f + b == f;
    } else if |f| == n {
      assert (f + b)[..n] == f;
    }
  }

  lemma TakeSplits<T(!new)>(s: seq<T>, n: nat)
    ensures s == Take(s, n) + s[|Take(s, n)|..]
    ensures s[|Take(s, n)|..] != [] ==> |Take(s, n)| == n
  {
  }

  /** Limiting before filtering gives what filtering before limiting gives exactly when the filter
      drops nothing inside the limit or keeps nothing beyond it. */
  lemma TakeThenFilter<T(!new)>(s: seq<T>, n: nat, p: T -> bool)
    ensures Filter(Take(s, n), p) <= Filter(s, p)
    ensures Filter(Take(s, n), p) == Take(Filter(s, p), n)
      <==> (forall x :: x in Take(s, n) ==> p(x)) || (forall x :: x in s[|Take(s, n)|..] ==> !p(x))
  {
    hide Filter, Take;
    var front, back := Take(s, n), s[|Take(s, n)|..];
    TakeSplits(s, n);
    FilterAppend(front, back, p);
    FilterAll(front, p);
    FilterNone(back, p);
    TakeWhole(Filter(front, p), Filter(back, p), n);
    if back == [] { assert Filter(back, p) == []; }
  }

  // ---------------------------------------------------------------- ORDER BY

  ghost predicate IsOrder<T(!new)>(le: (T, T) -> bool)
  {
    && (forall a, b :: le(a, b) || le(b, a))
    && (forall a, b, c :: le(a, b) && le(b, c) ==> le(a, c))
  }

  ghost predicate Sorted<T(!new)>(s: seq<T>, le: (T, T) -> bool)
  {
    forall i, j :: 0 <= i < j < |s| ==> le(s[i], s[j])
  }

  function Insert<T(!new)>(x: T, s: seq<T>, le: (T, T) -> bool): (r: seq<T>)
    ensures multiset(r) == multiset(s) + multiset{x}
  {
    if s == [] || le(x, s[0]) then [x] + s
    else
      assert s == [s[0]] + s[1..];
      [s[0]] + Insert(x, s[1..], le)
  }

  /** Rows with equal keys stay in scan order. */
  function Sort<T(!new)>(s: seq<T>, le: (T, T) -> bool): (r: seq<T>)
    ensures multiset(r) == multiset(s)
  {
    if s == [] then []
    else
      assert s == [s[0]] + s[1..];
      Insert(s[0], Sort(s[1..], le), le)
  }

  lemma SameElements<T(!new)>(a: seq<T>, b: seq<T>)
    requires multiset(a) == multiset(b)
    ensures forall x :: x in a <==> x in b
    ensures |a| == |b|
  {
    assert |multiset(a)| == |multiset(b)|;
    forall x ensures x in a <==> x in b {
      assert x in multiset(a) <==> x in multiset(b);
    }
  }

  lemma SortedHead<T(!new)>(x: T, s: seq<T>, le: (T, T) -> bool)
    requires Sorted(s, le) && forall y :: y in s ==> le(x, y)
    ensures Sorted([x] + s, le)
  {
    var r := [x] + s;
    forall i, j | 0 <= i < j < |r| ensures le(r[i], r[j]) {
      assert r[j] == s[j - 1] && s[j - 1] in s;
      if i > 0 { assert r[i] == s[i - 1]; }
    }
  }

  lemma SortedTail<T(!new)>(s: seq<T>, le: (T, T) -> bool)
    requires Sorted(s, le) && s != []
    ensures Sorted(s[1..], le) && forall y :: y in s[1..] ==> le(s[0], y)
  {
  }

  lemma InsertHas<T(!new)>(x: T, s: seq<T>, le: (T, T) -> bool, y: T)
    requires y in Insert(x, s, le)
    ensures y == x || y in s
  {
    assert y in multiset(Insert(x, s, le));
  }

  lemma {:induction false} InsertSorted<T(!new)>(x: T, s: seq<T>, le: (T, T) -> bool)
    requires IsOrder(le) && Sorted(s, le)
    ensures Sorted(Insert(x, s, le), le)
  {
    if s == [] {
      assert Insert(x, s, le) == [x];
    } else {
      SortedTail(s, le);
      hide Sorted;
      if le(x, s[0]) {
        assert forall y :: y in s ==> y == s[0] || y in s[1..];
        SortedHead(x, s, le);
      } else {
        InsertSorted(x, s[1..], le);
        var tail := Insert(x, s[1..], le);
        forall y | y in tail ensures le(s[0], y) { InsertHas(x, s[1..], le, y); }
        SortedHead(s[0], tail, le);
      }
    }
  }

  lemma {:induction false} SortSorted<T(!new)>(s: seq<T>, le: (T, T) -> bool)
    requires IsOrder(le)
    ensures Sorted(Sort(s, le), le)
  {
    if s != [] {
      SortSorted(s[1..], le);
      InsertSorted(s[0], Sort(s[1..], le), le);
    }
  }

  /** WHERE, ORDER BY and LIMIT together. */
  function Select<T(!new)>(s: seq<T>, p: T -> bool, le: (T, T) -> bool, n: nat): seq<T>
  {
    Take(Sort(Filter(s, p), le), n)
  }

  /** `r` is a page of the rows `wanted`: in order, as many as the limit allows, and leaving out only rows
      that come no earlier than any it holds. */
  ghost predicate IsPage<T(!new)>(r: seq<T>, wanted: seq<T>, le: (T, T) -> bool, n: nat)
  {
    && Sorted(r, le)
    && |r| == (if n < |wanted| then n else |wanted|)
    && (forall x :: x in r ==> x in wanted)
    && (forall x, y :: x in wanted && x !in r && y in r ==> le(y, x))
  }

  lemma TakeIsPage<T(!new)>(all: seq<T>, le: (T, T) -> bool, n: nat)
    requires Sorted(all, le)
    ensures IsPage(Take(all, n), all, le, n)
  {
    var r := Take(all, n);
    forall x, y | x in all && x !in r && y in r ensures le(y, x) {
      var i :| 0 <= i < |all| && all[i] == x;
      var j :| 0 <= j < |r| && r[j] == y;
      assert i >= |r| && all[j] == y;
    }
  }

  /** What WHERE, ORDER BY and LIMIT return together. */
  lemma SelectExact<T(!new)>(s: seq<T>, p: T -> bool, le: (T, T) -> bool, n: nat)
    requires IsOrder(le)
    ensures IsPage(Select(s, p, le, n), Filter(s, p), le, n)
  {
    var rows := Filter(s, p);
    var all := Sort(rows, le);
    SortSorted(rows, le);
    SameElements(all, rows);
    TakeIsPage(all, le, n);
    hide Sorted, Sort, Filter;
  }
}
