/** Month buckets: `Dictionary(grouping:by:)` keyed by each transaction's
    (year, month), and the bucket keys sorted newest first, as both the
    dashboard and the transaction list build them. */
module Grouping {
  import opened Records

  /** The month of every transaction, in input order. */
  function Months(ts: seq<Transaction>): (ms: seq<Month>)
    ensures |ms| == |ts|
    ensures forall i :: 0 <= i < |ts| ==> ms[i] == MonthOf(ts[i].date)
  {
    if ts == [] then [] else [MonthOf(ts[0].date)] + Months(ts[1..])
  }

  /** Strictly newest first: no month twice, no month out of order. */
  ghost predicate Descending(ms: seq<Month>) {
    forall i, j :: 0 <= i < j < |ms| ==> Newer(ms[i], ms[j])
  }

  /** Adds `m` to a strictly descending list unless it is already there. */
  function InsertMonth(m: Month, ms: seq<Month>): (r: seq<Month>)
    requires Descending(ms)
    ensures Descending(r)
    ensures forall x :: x in r <==> x == m || x in ms
  {
    if ms == [] then [m]
    else if m == ms[0] then ms
    else if Newer(m, ms[0]) then [m] + ms
    else
      var rest := InsertMonth(m, ms[1..]);
      assert forall x :: x in rest ==> Newer(ms[0], x) by {
        forall x | x in rest ensures Newer(ms[0], x) {
          if x != m {
            var j :| 0 <= j < |ms[1..]| && ms[1..][j] == x;
            assert ms[j + 1] == x;
          }
        }
      }
      [ms[0]] + rest
  }

  /** `Array(Set(ms)).sorted { d1 > d2 }`: every month of `ms` once, newest first. */
  function SortedDescending(ms: seq<Month>): (r: seq<Month>)
    ensures Descending(r)
    ensures forall x :: x in r <==> x in ms
  {
    if ms == [] then [] else InsertMonth(ms[0], SortedDescending(ms[1..]))
  }

  /** A strictly descending list is fixed by its elements, so `SortedDescending`
      is the one newest-first enumeration of a set of months. */
  lemma {:induction false} DescendingUnique(a: seq<Month>, b: seq<Month>)
    requires Descending(a) && Descending(b)
    requires forall x :: x in a <==> x in b
    ensures a == b
  {
    if a != [] && b != [] {
      assert a[0] in a && b[0] in b;
      assert b[0] in a && a[0] in b;
      var i :| 0 <= i < |a| && a[i] == b[0];
      var j :| 0 <= j < |b| && b[j] == a[0];
      assert a[0] == b[0];
      forall x ensures x in a[1..] <==> x in b[1..] {
        if x in a[1..] {
          var i :| 0 <= i < |a[1..]| && a[1..][i] == x;
          assert Newer(a[0], a[i + 1]);
          assert x in a && x in b;
          var j :| 0 <= j < |b| && b[j] == x;
          assert b[1..][j - 1] == x;
        }
        if x in b[1..] {
          var j :| 0 <= j < |b[1..]| && b[1..][j] == x;
          assert Newer(b[0], b[j + 1]);
          assert x in b && x in a;
          var i :| 0 <= i < |a| && a[i] == x;
          assert a[1..][i - 1] == x;
        }
      }
      DescendingUnique(a[1..], b[1..]);
      assert a == [a[0]] + a[1..] && b == [b[0]] + b[1..];
    } else {
      HeadIsMember(a);
      HeadIsMember(b);
    }
  }

  /** Whether a transaction falls in month `k`. */
  function MonthIs(k: Month): Transaction -> bool {
    (t: Transaction) => MonthOf(t.date) == k
  }

  /** The transactions of month `k`, in input order. */
  function InMonth(ts: seq<Transaction>, k: Month): seq<Transaction> {
    Where(ts, MonthIs(k))
  }

  /** A month has an empty bucket exactly when no transaction falls in it. */
  lemma {:induction false} InMonthEmpty(ts: seq<Transaction>, k: Month)
    ensures InMonth(ts, k) == [] <==> k !in Months(ts)
  {
    if ts != [] {
      InMonthEmpty(ts[1..], k);
      assert Months(ts) == [MonthOf(ts[0].date)] + Months(ts[1..]);
    }
  }

  /** `Dictionary(grouping: ts) { month of $0.date }`: one key per month that
      occurs, and under it that month's transactions in input order. */
  function GroupByMonth(ts: seq<Transaction>): (g: map<Month, seq<Transaction>>)
    ensures forall k :: k in g <==> k in Months(ts)
    ensures forall k :: k in g ==> g[k] == InMonth(ts, k) && g[k] != []
  {
    if ts == [] then map[]
    else
      var g := GroupByMonth(ts[1..]);
      var k := MonthOf(ts[0].date);
      assert Months(ts) == [k] + Months(ts[1..]);
      InMonthEmpty(ts[1..], k);
      g[k := [ts[0]] + (if k in g then g[k] else [])]
  }

  /** One `Section` of the list: a month header and the rows under it. */
  datatype Section = Section(key: Month, rows: seq<Transaction>)

  /** `ForEach(keys) { key in Section { ForEach(g[key] ?? []) } }`. */
  function SectionsOf(g: map<Month, seq<Transaction>>, keys: seq<Month>): (r: seq<Section>)
    ensures |r| == |keys|
    ensures forall i :: 0 <= i < |r| ==>
      r[i].key == keys[i] && r[i].rows == (if keys[i] in g then g[keys[i]] else [])
  {
    if keys == [] then []
    else [Section(keys[0], if keys[0] in g then g[keys[0]] else [])] + SectionsOf(g, keys[1..])
  }

  /** The grouped list: the dictionary's keys sorted newest first (the keys are the
      months that occur, so sorting them yields `SortedDescending(Months(ts))`),
      each with its bucket. */
  function Sections(ts: seq<Transaction>): (r: seq<Section>)
    ensures forall i, j :: 0 <= i < j < |r| ==> Newer(r[i].key, r[j].key)
    ensures forall k :: k in Months(ts) <==> exists i :: 0 <= i < |r| && r[i].key == k
    ensures forall i :: 0 <= i < |r| ==> r[i].rows == InMonth(ts, r[i].key) && r[i].rows != []
  {
    SortedSectionsFacts(ts);
    SectionsOf(GroupByMonth(ts), SortedDescending(Months(ts)))
  }

  lemma SortedSectionsFacts(ts: seq<Transaction>)
    ensures var r := SectionsOf(GroupByMonth(ts), SortedDescending(Months(ts)));
      && (forall i, j :: 0 <= i < j < |r| ==> Newer(r[i].key, r[j].key))
      && (forall k :: k in Months(ts) <==> exists i :: 0 <= i < |r| && r[i].key == k)
      && (forall i :: 0 <= i < |r| ==> r[i].rows == InMonth(ts, r[i].key) && r[i].rows != [])
  {
    var g := GroupByMonth(ts);
    var keys := SortedDescending(Months(ts));
    SectionKeys(g, keys, Months(ts));
    SectionRows(ts, g, keys);
  }

  lemma SectionKeys(g: map<Month, seq<Transaction>>, keys: seq<Month>, ms: seq<Month>)
    requires Descending(keys)
    requires forall x :: x in keys <==> x in ms
    ensures var r := SectionsOf(g, keys);
      && (forall i, j :: 0 <= i < j < |r| ==> Newer(r[i].key, r[j].key))
      && (forall k :: k in ms <==> exists i :: 0 <= i < |r| && r[i].key == k)
  {
    var r := SectionsOf(g, keys);
    forall k ensures k in ms <==> exists i :: 0 <= i < |r| && r[i].key == k {
      if k in ms {
        assert k in keys;
        var i :| 0 <= i < |keys| && keys[i] == k;
        assert r[i].key == k;
      }
      if exists i :: 0 <= i < |r| && r[i].key == k {
        var i :| 0 <= i < |r| && r[i].key == k;
        assert keys[i] in keys;
      }
    }
  }

  lemma SectionRows(ts: seq<Transaction>, g: map<Month, seq<Transaction>>, keys: seq<Month>)
    requires g == GroupByMonth(ts)
    requires forall x :: x in keys <==> x in Months(ts)
    ensures var r := SectionsOf(g, keys);
      forall i :: 0 <= i < |r| ==> r[i].rows == InMonth(ts, r[i].key) && r[i].rows != []
  {
    var r := SectionsOf(g, keys);
    forall i | 0 <= i < |r| ensures r[i].rows == InMonth(ts, r[i].key) && r[i].rows != [] {
      assert keys[i] in keys;
    }
  }

  /** All rows of all sections, top to bottom. */
  function Flatten(ss: seq<Section>): seq<Transaction> {
    if ss == [] then [] else ss[0].rows + Flatten(ss[1..])
  }

  /** Every transaction lands in exactly one section, the one of its own month,
      and the rows of a section keep their input order. */
  lemma SectionOfRow(ts: seq<Transaction>, t: Transaction)
    requires t in ts
    ensures var r := Sections(ts);
      && (exists i :: 0 <= i < |r| && t in r[i].rows)
      && (forall i :: 0 <= i < |r| ==> (t in r[i].rows <==> r[i].key == MonthOf(t.date)))
      && (forall i :: 0 <= i < |r| ==> Subsequence(r[i].rows, ts))
  {
    RowInBuckets(ts, Sections(ts), t);
  }

  /** `SectionOfRow` for any list of sections with the keys and rows `Sections`
      promises. */
  lemma RowInBuckets(ts: seq<Transaction>, r: seq<Section>, t: Transaction)
    requires t in ts
    requires forall k :: k in Months(ts) <==> exists i :: 0 <= i < |r| && r[i].key == k
    requires forall i :: 0 <= i < |r| ==> r[i].rows == InMonth(ts, r[i].key)
    ensures exists i :: 0 <= i < |r| && t in r[i].rows
    ensures forall i :: 0 <= i < |r| ==> (t in r[i].rows <==> r[i].key == MonthOf(t.date))
    ensures forall i :: 0 <= i < |r| ==> Subsequence(r[i].rows, ts)
  {
    var k := MonthOf(t.date);
    var n :| 0 <= n < |ts| && ts[n] == t;
    assert Months(ts)[n] == k;
    assert k in Months(ts);
    forall j | 0 <= j < |r| ensures t in r[j].rows <==> r[j].key == k {
      WhereMember(ts, MonthIs(r[j].key), t);
    }
  }

  /** Concatenating the buckets of distinct months `ks` gives, with the same
      multiplicities, exactly the transactions whose month is one of `ks`. */
  lemma {:induction false} BucketsCount(ts: seq<Transaction>, g: map<Month, seq<Transaction>>, ks: seq<Month>, t: Transaction)
    requires forall i, j :: 0 <= i < j < |ks| ==> ks[i] != ks[j]
    requires forall k :: k in ks ==> k in g && g[k] == InMonth(ts, k)
    ensures multiset(Flatten(SectionsOf(g, ks)))[t] == if MonthOf(t.date) in ks then multiset(ts)[t] else 0
  {
    if ks != [] {
      var ss := SectionsOf(g, ks);
      assert ss[1..] == SectionsOf(g, ks[1..]);
      BucketsCount(ts, g, ks[1..], t);
      assert multiset(Flatten(ss)) == multiset(ss[0].rows) + multiset(Flatten(ss[1..]));
      var b := InMonth(ts, ks[0]);
      if MonthOf(t.date) == ks[0] {
        assert ks[0] !in ks[1..];
      } else {
        assert t !in b;
      }
    }
  }

  /** The sections together hold every transaction exactly as often as the input
      does: no row is dropped and none is shown twice. */
  lemma SectionsArePermutation(ts: seq<Transaction>)
    ensures multiset(Flatten(Sections(ts))) == multiset(ts)
  {
    var g := GroupByMonth(ts);
    var keys := SortedDescending(Months(ts));
    forall t ensures multiset(Flatten(Sections(ts)))[t] == multiset(ts)[t] {
      BucketsCount(ts, g, keys, t);
      if t in ts {
        var n :| 0 <= n < |ts| && ts[n] == t;
        assert Months(ts)[n] == MonthOf(t.date);
      }
    }
  }

  /** No section exactly when there is no transaction. */
  lemma SectionsEmpty(ts: seq<Transaction>)
    ensures Sections(ts) == [] <==> ts == []
  {
    if ts != [] {
      assert MonthOf(ts[0].date) in Months(ts);
    }
  }
}
