/** The values the EasyBudget views compute with: a snapshot of one Core Data
    `Transaction` as a value, the (year, month) key that groups and filters it,
    and Swift's order-preserving `filter` over a sequence of such values. */
module Records {

  datatype Option<T> = None | Some(value: T) {
    /** Swift's `x ?? default`. */
    function GetOr(default: T): T {
      if Some? then value else default
    }
  }

  /** A calendar day; the time of day plays no part in the app's logic. */
  datatype Date = Date(year: int, month: int, day: int)

  /** `Calendar.dateComponents([.year, .month], from:)`: the month bucket of a date. */
  datatype Month = Month(year: int, month: int)

  function MonthOf(d: Date): Month {
    Month(d.year, d.month)
  }

  /** `d1 > d2` on the first instants of two months: lexicographic on (year, month). */
  predicate Newer(a: Month, b: Month) {
    a.year > b.year || (a.year == b.year && a.month > b.month)
  }

  /** A fetched transaction. `id` stands for the managed object's identity, `kind`
      for its optional `type` string and `category` for `toCategory?.name`, which
      is absent both for an uncategorized transaction and for a nameless category. */
  datatype Transaction = Transaction(
    id: nat,
    amount: real,
    date: Date,
    note: Option<string>,
    kind: Option<string>,
    category: Option<string>)

  /** The first element of a non-empty sequence is one of its elements. */
  lemma HeadIsMember<T>(s: seq<T>)
    ensures s != [] ==> s[0] in s
  {
  }

  /** `xs` can be obtained from `ys` by deleting elements: its order is theirs. */
  ghost predicate Subsequence<T>(xs: seq<T>, ys: seq<T>)
    decreases |ys|
  {
    if ys == [] then xs == []
    else (xs != [] && xs[0] == ys[0] && Subsequence(xs[1..], ys[1..])) || Subsequence(xs, ys[1..])
  }

  lemma {:induction false} SubsequenceMultiset<T>(xs: seq<T>, ys: seq<T>)
    requires Subsequence(xs, ys)
    ensures multiset(xs) <= multiset(ys)
    decreases |ys|
  {
    if ys != [] {
      assert ys == [ys[0]] + ys[1..];
      if xs != [] && xs[0] == ys[0] && Subsequence(xs[1..], ys[1..]) {
        SubsequenceMultiset(xs[1..], ys[1..]);
        assert xs == [xs[0]] + xs[1..];
      } else {
        SubsequenceMultiset(xs, ys[1..]);
      }
    }
  }

  lemma {:induction false} SubsequenceTransitive<T>(xs: seq<T>, ys: seq<T>, zs: seq<T>)
    requires Subsequence(xs, ys) && Subsequence(ys, zs)
    ensures Subsequence(xs, zs)
    decreases |zs|
  {
    if zs == [] {
    } else if ys != [] && ys[0] == zs[0] && Subsequence(ys[1..], zs[1..]) {
      if xs != [] && xs[0] == ys[0] && Subsequence(xs[1..], ys[1..]) {
        SubsequenceTransitive(xs[1..], ys[1..], zs[1..]);
      } else {
        SubsequenceTransitive(xs, ys[1..], zs[1..]);
      }
    } else {
      SubsequenceTransitive(xs, ys, zs[1..]);
    }
  }

  /** Swift's `xs.filter(p)`: the elements satisfying `p`, in their order, each as
      often as in `xs`. */
  function Where<T(!new)>(xs: seq<T>, p: T -> bool): (r: seq<T>)
    ensures Subsequence(r, xs)
    ensures forall i :: 0 <= i < |r| ==> p(r[i])
    ensures forall x :: p(x) ==> multiset(r)[x] == multiset(xs)[x]
    ensures |r| <= |xs|
  {
    if xs == [] then []
    else
      assert xs == [xs[0]] + xs[1..];
      if p(xs[0]) then [xs[0]] + Where(xs[1..], p) else Where(xs[1..], p)
  }

  /** Filtering decides the first element, then filters the rest. */
  lemma WhereCons<T(!new)>(x: T, xs: seq<T>, p: T -> bool)
    ensures Where([x] + xs, p) == if p(x) then [x] + Where(xs, p) else Where(xs, p)
  {
    assert ([x] + xs)[1..] == xs;
  }

  /** An element is kept exactly when it occurs in `xs` and satisfies `p`. */
  lemma WhereMember<T(!new)>(xs: seq<T>, p: T -> bool, x: T)
    ensures x in Where(xs, p) <==> x in xs && p(x)
  {
    var r := Where(xs, p);
    if x in r {
      var i :| 0 <= i < |r| && r[i] == x;
      assert p(x);
      assert multiset(r)[x] > 0;
    }
    if x in xs && p(x) {
      assert multiset(xs)[x] > 0;
    }
  }

  /** The three facts `Where` promises determine its result: any subsequence of
      `xs` made of elements satisfying `p` that keeps every such element is it. */
  lemma {:induction false} WhereIsUnique<T(!new)>(xs: seq<T>, p: T -> bool, r: seq<T>)
    requires Subsequence(r, xs)
    requires forall i :: 0 <= i < |r| ==> p(r[i])
    requires forall x :: p(x) ==> multiset(r)[x] == multiset(xs)[x]
    ensures r == Where(xs, p)
    decreases |xs|
  {
    if xs != [] {
      var x := xs[0];
      assert xs == [x] + xs[1..];
      if r != [] && r[0] == x && Subsequence(r[1..], xs[1..]) {
        assert r == [x] + r[1..];
        assert p(r[0]);
        forall y | p(y) ensures multiset(r[1..])[y] == multiset(xs[1..])[y] {
          assert multiset(r) == multiset{x} + multiset(r[1..]);
          assert multiset(xs) == multiset{x} + multiset(xs[1..]);
        }
        WhereIsUnique(xs[1..], p, r[1..]);
      } else {
        assert Subsequence(r, xs[1..]);
        SubsequenceMultiset(r, xs[1..]);
        if p(x) {
          assert false;
        }
        forall y | p(y) ensures multiset(r)[y] == multiset(xs[1..])[y] {
          assert y != x;
          assert multiset(xs) == multiset{x} + multiset(xs[1..]);
        }
        WhereIsUnique(xs[1..], p, r);
      }
    }
  }

  /** Filtering depends only on which elements the predicate keeps. */
  lemma {:induction false} WhereCongruent<T(!new)>(xs: seq<T>, p: T -> bool, q: T -> bool)
    requires forall i :: 0 <= i < |xs| ==> p(xs[i]) == q(xs[i])
    ensures Where(xs, p) == Where(xs, q)
  {
    if xs != [] {
      WhereCongruent(xs[1..], p, q);
    }
  }

  /** Filtering by `p` and then by `q` is filtering once by their conjunction `pq`. */
  lemma {:induction false} WhereWhere<T(!new)>(xs: seq<T>, p: T -> bool, q: T -> bool, pq: T -> bool)
    requires forall x :: pq(x) == (p(x) && q(x))
    ensures Where(Where(xs, p), q) == Where(xs, pq)
  {
    if xs != [] {
      WhereWhere(xs[1..], p, q, pq);
      assert xs == [xs[0]] + xs[1..];
      if p(xs[0]) {
        assert Where(xs, p) == [xs[0]] + Where(xs[1..], p);
        assert Where(xs, p)[1..] == Where(xs[1..], p);
      }
    }
  }
}
