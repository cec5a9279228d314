/** `DashboardView`: the three filter facets, the conjunctive filter, the income
    and expense totals with the balance, and the filtered list grouped by month. */
module Dashboard {
  import opened Records
  import opened Text
  import opened Grouping

  const Income := "Income"
  const Expenses := "Expenses"

  /** The three picker selections; `None` is the "All" tag of a picker. */
  datatype Selection = Selection(month: Option<Month>, category: Option<string>, kind: Option<string>)

  const All := Selection(None, None, None)

  // ---------------------------------------------------------------- facets

  /** `availableMonths`: the month of every transaction, each once, newest first. */
  function AvailableMonths(ts: seq<Transaction>): (r: seq<Month>)
    ensures forall k :: k in r <==> exists i :: 0 <= i < |ts| && MonthOf(ts[i].date) == k
    ensures forall i, j :: 0 <= i < j < |r| ==> Newer(r[i], r[j])
    ensures forall i, j :: 0 <= i < j < |r| ==> r[i] != r[j]
  {
    var r := SortedDescending(Months(ts));
    assert forall k :: k in Months(ts) <==> exists i :: 0 <= i < |ts| && MonthOf(ts[i].date) == k by {
      forall k ensures k in Months(ts) <==> exists i :: 0 <= i < |ts| && MonthOf(ts[i].date) == k {
        if exists i :: 0 <= i < |ts| && MonthOf(ts[i].date) == k {
          var i :| 0 <= i < |ts| && MonthOf(ts[i].date) == k;
          assert Months(ts)[i] == k;
        }
      }
    }
    r
  }

  /** `compactMap { $0.toCategory?.name }`. */
  function CategoryNames(ts: seq<Transaction>): (ns: seq<string>)
    ensures forall n :: n in ns <==> exists i :: 0 <= i < |ts| && ts[i].category == Some(n)
  {
    if ts == [] then []
    else
      var rest := CategoryNames(ts[1..]);
      assert forall n ::
        (exists i :: 0 <= i < |ts[1..]| && ts[1..][i].category == Some(n)) <==> (exists i :: 1 <= i < |ts| && ts[i].category == Some(n)) by {
        forall n ensures (exists i :: 0 <= i < |ts[1..]| && ts[1..][i].category == Some(n))
          <==> (exists i :: 1 <= i < |ts| && ts[i].category == Some(n)) {
          if exists i :: 1 <= i < |ts| && ts[i].category == Some(n) {
            var i :| 1 <= i < |ts| && ts[i].category == Some(n);
            assert ts[1..][i - 1] == ts[i];
          }
        }
      }
      (if ts[0].category.Some? then [ts[0].category.value] else []) + rest
  }

  /** `compactMap { $0.type }`. */
  function TypeNames(ts: seq<Transaction>): (ns: seq<string>)
    ensures forall n :: n in ns <==> exists i :: 0 <= i < |ts| && ts[i].kind == Some(n)
  {
    if ts == [] then []
    else
      var rest := TypeNames(ts[1..]);
      assert forall n ::
        (exists i :: 0 <= i < |ts[1..]| && ts[1..][i].kind == Some(n)) <==> (exists i :: 1 <= i < |ts| && ts[i].kind == Some(n)) by {
        forall n ensures (exists i :: 0 <= i < |ts[1..]| && ts[1..][i].kind == Some(n))
          <==> (exists i :: 1 <= i < |ts| && ts[i].kind == Some(n)) {
          if exists i :: 1 <= i < |ts| && ts[i].kind == Some(n) {
            var i :| 1 <= i < |ts| && ts[i].kind == Some(n);
            assert ts[1..][i - 1] == ts[i];
          }
        }
      }
      (if ts[0].kind.Some? then [ts[0].kind.value] else []) + rest
  }

  /** `availableCategories`: the names of the categories in use, each once, in
      ascending order; an uncategorized transaction contributes nothing. Names
      differing only in case stay distinct. */
  function AvailableCategories(ts: seq<Transaction>): (r: seq<string>)
    ensures forall n :: n in r <==> exists i :: 0 <= i < |ts| && ts[i].category == Some(n)
    ensures Ascending(r)
    ensures forall i, j :: 0 <= i < j < |r| ==> r[i] != r[j]
  {
    SortedDistinct(CategoryNames(ts))
  }

  /** `availableTypes`: the type strings in use, each once, in ascending order. */
  function AvailableTypes(ts: seq<Transaction>): (r: seq<string>)
    ensures forall n :: n in r <==> exists i :: 0 <= i < |ts| && ts[i].kind == Some(n)
    ensures Ascending(r)
    ensures forall i, j :: 0 <= i < j < |r| ==> r[i] != r[j]
  {
    SortedDistinct(TypeNames(ts))
  }

  // ---------------------------------------------------------------- filter

  /** The body of the `filteredTransactions` closure: each chosen dimension must
      agree; a chosen category never agrees with a missing one. */
  predicate Matches(s: Selection, t: Transaction) {
    && (s.month.None? || s.month == Some(MonthOf(t.date)))
    && (s.category.None? || s.category == t.category)
    && (s.kind.None? || s.kind == t.kind)
  }

  function MatchesOf(s: Selection): Transaction -> bool {
    (t: Transaction) => Matches(s, t)
  }

  /** `filteredTransactions`: the matching transactions, in fetch order, none
      dropped. */
  function Filtered(ts: seq<Transaction>, s: Selection): (r: seq<Transaction>)
    ensures Subsequence(r, ts)
    ensures forall i :: 0 <= i < |r| ==> Matches(s, r[i])
    ensures forall t :: Matches(s, t) ==> multiset(r)[t] == multiset(ts)[t]
    ensures s.category.Some? ==> forall i :: 0 <= i < |r| ==> r[i].category.Some?
  {
    Where(ts, MatchesOf(s))
  }

  /** With every picker on "All" the filter lets everything through. */
  lemma {:induction false} FilterAllIsIdentity(ts: seq<Transaction>)
    ensures Filtered(ts, All) == ts
  {
    if ts != [] {
      FilterAllIsIdentity(ts[1..]);
      assert ts == [ts[0]] + ts[1..];
    }
  }

  /** Filtering an already filtered list again changes nothing. */
  lemma FilterIdempotent(ts: seq<Transaction>, s: Selection)
    ensures Filtered(Filtered(ts, s), s) == Filtered(ts, s)
  {
    WhereWhere(ts, MatchesOf(s), MatchesOf(s), MatchesOf(s));
  }

  /** The filter selects something exactly when some transaction matches. */
  lemma FilteredNonEmpty(ts: seq<Transaction>, s: Selection)
    ensures Filtered(ts, s) != [] <==> exists i :: 0 <= i < |ts| && Matches(s, ts[i])
  {
    var r := Filtered(ts, s);
    if r != [] {
      WhereMember(ts, MatchesOf(s), r[0]);
      var i :| 0 <= i < |ts| && ts[i] == r[0];
    }
    if exists i :: 0 <= i < |ts| && Matches(s, ts[i]) {
      var i :| 0 <= i < |ts| && Matches(s, ts[i]);
      WhereMember(ts, MatchesOf(s), ts[i]);
    }
  }

  /** A month picked on its own selects something exactly when it is one of
      the months offered: a stale month yields an empty list, not an error. */
  lemma MonthSelectionNonEmpty(ts: seq<Transaction>, k: Month)
    ensures Filtered(ts, Selection(Some(k), None, None)) != [] <==> k in AvailableMonths(ts)
  {
    FilteredNonEmpty(ts, Selection(Some(k), None, None));
  }

  /** Likewise for a category name picked on its own. */
  lemma CategorySelectionNonEmpty(ts: seq<Transaction>, c: string)
    ensures Filtered(ts, Selection(None, Some(c), None)) != [] <==> c in AvailableCategories(ts)
  {
    FilteredNonEmpty(ts, Selection(None, Some(c), None));
  }

  /** Likewise for a type string picked on its own. */
  lemma TypeSelectionNonEmpty(ts: seq<Transaction>, y: string)
    ensures Filtered(ts, Selection(None, None, Some(y))) != [] <==> y in AvailableTypes(ts)
  {
    FilteredNonEmpty(ts, Selection(None, None, Some(y)));
  }

  /** Picking a month alone shows exactly that month's bucket. */
  lemma MonthSelectionIsBucket(ts: seq<Transaction>, k: Month)
    ensures Filtered(ts, Selection(Some(k), None, None)) == InMonth(ts, k)
  {
    WhereCongruent(ts, MatchesOf(Selection(Some(k), None, None)), MonthIs(k));
  }

  // ---------------------------------------------------------------- totals

  /** `map { $0.amount }.reduce(0, +)`, summed exactly. */
  function SumAmounts(ts: seq<Transaction>): (r: real)
    ensures ts == [] ==> r == 0.0
    ensures (forall i :: 0 <= i < |ts| ==> ts[i].amount >= 0.0) ==> r >= 0.0
  {
    if ts == [] then 0.0 else ts[0].amount + SumAmounts(ts[1..])
  }

  function KindIs(kind: string): Transaction -> bool {
    (t: Transaction) => t.kind == Some(kind)
  }

  /** `filter { $0.type == kind }`: the rows typed exactly `kind`, in order, each
      as often as in `ts`; a missing type equals no kind. */
  function OfKind(ts: seq<Transaction>, kind: string): (r: seq<Transaction>)
    ensures Subsequence(r, ts)
    ensures forall i :: 0 <= i < |r| ==> r[i].kind == Some(kind)
    ensures forall t: Transaction :: t.kind == Some(kind) ==> multiset(r)[t] == multiset(ts)[t]
  {
    Where(ts, KindIs(kind))
  }

  /** `totalIncome`. */
  function TotalIncome(ts: seq<Transaction>, s: Selection): (r: real)
    ensures Filtered(ts, s) == [] ==> r == 0.0
  {
    SumAmounts(OfKind(Filtered(ts, s), Income))
  }

  /** `totalExpenses`. */
  function TotalExpenses(ts: seq<Transaction>, s: Selection): (r: real)
    ensures Filtered(ts, s) == [] ==> r == 0.0
  {
    SumAmounts(OfKind(Filtered(ts, s), Expenses))
  }

  /** The figure shown after "Balance:": income minus expenses, which is the
      signed net of the filtered transactions. */
  function Balance(ts: seq<Transaction>, s: Selection): (r: real)
    ensures r == Net(Filtered(ts, s))
  {
    KindsNet(Filtered(ts, s));
    TotalIncome(ts, s) - TotalExpenses(ts, s)
  }

  /** What one transaction adds to the total of `kind` under selection `s`. */
  function Contribution(t: Transaction, s: Selection, kind: string): real {
    if Matches(s, t) && t.kind == Some(kind) then t.amount else 0.0
  }

  /** The total of `kind`, transaction by transaction, without filtering first. */
  function ContributionSum(ts: seq<Transaction>, s: Selection, kind: string): real {
    if ts == [] then 0.0 else Contribution(ts[0], s, kind) + ContributionSum(ts[1..], s, kind)
  }

  /** What one transaction does to the balance: plus an income, minus an
      expense, nothing for any other type string. */
  function Signed(t: Transaction): real {
    if t.kind == Some(Income) then t.amount
    else if t.kind == Some(Expenses) then -t.amount
    else 0.0
  }

  function Net(ts: seq<Transaction>): real {
    if ts == [] then 0.0 else Signed(ts[0]) + Net(ts[1..])
  }

  /** Filtering, then filtering by type, then summing is the sum of the single
      contributions. */
  lemma {:induction false} TotalIsContributionSum(ts: seq<Transaction>, s: Selection, kind: string)
    ensures SumAmounts(OfKind(Filtered(ts, s), kind)) == ContributionSum(ts, s, kind)
  {
    if ts != [] {
      var x, rest := ts[0], ts[1..];
      var f := Filtered(rest, s);
      assert Filtered(ts, s) == if Matches(s, x) then [x] + f else f by {
        assert ts == [x] + rest;
        WhereCons(x, rest, MatchesOf(s));
      }
      TotalIsContributionSum(rest, s, kind);
      if Matches(s, x) {
        SumOfKindCons(x, f, kind);
      }
    }
  }

  /** The total of one kind over a list with first element `x`: the amount of
      `x` when it has that kind, plus the total of the rest. */
  lemma SumOfKindCons(x: Transaction, f: seq<Transaction>, kind: string)
    ensures SumAmounts(OfKind([x] + f, kind))
      == (if x.kind == Some(kind) then x.amount else 0.0) + SumAmounts(OfKind(f, kind))
  {
    WhereCons(x, f, KindIs(kind));
    if x.kind == Some(kind) {
      assert ([x] + OfKind(f, kind))[1..] == OfKind(f, kind);
    }
  }

  lemma {:induction false} KindsNet(fs: seq<Transaction>)
    ensures SumAmounts(OfKind(fs, Income)) - SumAmounts(OfKind(fs, Expenses)) == Net(fs)
  {
    if fs != [] {
      KindsNet(fs[1..]);
      var x := fs[0];
      assert fs == [x] + fs[1..];
      SumOfKindCons(x, fs[1..], Income);
      SumOfKindCons(x, fs[1..], Expenses);
    }
  }

  /** The contribution sum of two lists laid end to end is the sum of theirs. */
  lemma {:induction false} ContributionSumConcat(a: seq<Transaction>, b: seq<Transaction>, s: Selection, kind: string)
    ensures ContributionSum(a + b, s, kind) == ContributionSum(a, s, kind) + ContributionSum(b, s, kind)
  {
    if a == [] {
      assert a + b == b;
    } else {
      assert (a + b)[1..] == a[1..] + b;
      ContributionSumConcat(a[1..], b, s, kind);
    }
  }

  /** A transaction inserted anywhere into the fetched list (the date sort puts
      a new one wherever its date falls) moves the income total by its amount
      when it matches and is typed exactly "Income", the expense total likewise
      for "Expenses", and neither total for any other type ("Outcome", a
      missing type). */
  lemma AddedTransactionEffect(ts: seq<Transaction>, k: nat, t: Transaction, s: Selection)
    requires k <= |ts|
    ensures TotalIncome(ts[..k] + [t] + ts[k..], s) == TotalIncome(ts, s)
      + (if Matches(s, t) && t.kind == Some(Income) then t.amount else 0.0)
    ensures TotalExpenses(ts[..k] + [t] + ts[k..], s) == TotalExpenses(ts, s)
      + (if Matches(s, t) && t.kind == Some(Expenses) then t.amount else 0.0)
  {
    InsertedContribution(ts, k, t, s, Income);
    InsertedContribution(ts, k, t, s, Expenses);
  }

  /** One kind's total after inserting `t` at position `k`. */
  lemma InsertedContribution(ts: seq<Transaction>, k: nat, t: Transaction, s: Selection, kind: string)
    requires k <= |ts|
    ensures SumAmounts(OfKind(Filtered(ts[..k] + [t] + ts[k..], s), kind))
      == SumAmounts(OfKind(Filtered(ts, s), kind)) + Contribution(t, s, kind)
  {
    var u := ts[..k] + [t] + ts[k..];
    assert ContributionSum(u, s, kind) == ContributionSum(ts, s, kind) + Contribution(t, s, kind) by {
      assert ts[..k] + ts[k..] == ts;
      ContributionSumSplice(ts[..k], t, ts[k..], s, kind);
    }
    TotalIsContributionSum(u, s, kind);
    TotalIsContributionSum(ts, s, kind);
  }

  /** Splicing `t` between `a` and `b` adds its contribution. */
  lemma ContributionSumSplice(a: seq<Transaction>, t: Transaction, b: seq<Transaction>, s: Selection, kind: string)
    ensures ContributionSum(a + [t] + b, s, kind) == ContributionSum(a + b, s, kind) + Contribution(t, s, kind)
  {
    ContributionSumConcat(a + [t], b, s, kind);
    ContributionSumConcat(a, [t], s, kind);
    ContributionSumConcat(a, b, s, kind);
    assert ContributionSum([t], s, kind) == Contribution(t, s, kind);
  }

  // ---------------------------------------------------------------- list

  /** `filteredGrouped` with its keys sorted newest first. */
  function FilteredSections(ts: seq<Transaction>, s: Selection): (r: seq<Section>)
    ensures forall i, j :: 0 <= i < j < |r| ==> Newer(r[i].key, r[j].key)
    ensures forall i :: 0 <= i < |r| ==> r[i].rows != []
    ensures forall i, t :: 0 <= i < |r| && t in r[i].rows ==> MonthOf(t.date) == r[i].key && Matches(s, t)
  {
    SectionRowsMatch(ts, s);
    Sections(Filtered(ts, s))
  }

  lemma SectionRowsMatch(ts: seq<Transaction>, s: Selection)
    ensures var r := Sections(Filtered(ts, s));
      forall i, t :: 0 <= i < |r| && t in r[i].rows ==> MonthOf(t.date) == r[i].key && Matches(s, t)
  {
    var f := Filtered(ts, s);
    var r := Sections(f);
    forall i, t | 0 <= i < |r| && t in r[i].rows ensures MonthOf(t.date) == r[i].key && Matches(s, t) {
      WhereMember(f, MonthIs(r[i].key), t);
      WhereMember(ts, MatchesOf(s), t);
    }
  }

  /** Every filtered transaction is shown exactly once, in the section of its own
      month, and a section keeps the order of the filtered list and so of the
      list the view was given. */
  lemma FilteredSectionsCover(ts: seq<Transaction>, s: Selection)
    ensures multiset(Flatten(FilteredSections(ts, s))) == multiset(Filtered(ts, s))
    ensures forall t :: t in Filtered(ts, s) ==> forall i :: 0 <= i < |FilteredSections(ts, s)| ==>
      (t in FilteredSections(ts, s)[i].rows <==> FilteredSections(ts, s)[i].key == MonthOf(t.date))
    ensures forall i :: 0 <= i < |FilteredSections(ts, s)| ==>
      Subsequence(FilteredSections(ts, s)[i].rows, Filtered(ts, s))
    ensures forall i :: 0 <= i < |FilteredSections(ts, s)| ==>
      Subsequence(FilteredSections(ts, s)[i].rows, ts)
  {
    var f := Filtered(ts, s);
    SectionsArePermutation(f);
    forall t | t in f ensures forall i :: 0 <= i < |Sections(f)| ==> (t in Sections(f)[i].rows <==> Sections(f)[i].key == MonthOf(t.date)) {
      SectionOfRow(f, t);
    }
    forall i | 0 <= i < |Sections(f)| ensures Subsequence(Sections(f)[i].rows, f) {
    }
    forall i | 0 <= i < |Sections(f)| ensures Subsequence(Sections(f)[i].rows, ts) {
      SubsequenceTransitive(Sections(f)[i].rows, f, ts);
    }
  }

  /** With no month picked, a section shows what picking its month would show. */
  lemma SectionIsMonthSelection(ts: seq<Transaction>, s: Selection, i: nat)
    requires s.month.None?
    requires i < |FilteredSections(ts, s)|
    ensures FilteredSections(ts, s)[i].rows
      == Filtered(ts, Selection(Some(FilteredSections(ts, s)[i].key), s.category, s.kind))
  {
    BucketOfFiltered(ts, s, FilteredSections(ts, s)[i].key);
  }

  lemma BucketOfFiltered(ts: seq<Transaction>, s: Selection, k: Month)
    requires s.month.None?
    ensures InMonth(Filtered(ts, s), k) == Filtered(ts, Selection(Some(k), s.category, s.kind))
  {
    var s' := Selection(Some(k), s.category, s.kind);
    assert forall t :: MatchesOf(s')(t) == (MatchesOf(s)(t) && MonthIs(k)(t));
    WhereWhere(ts, MatchesOf(s), MonthIs(k), MatchesOf(s'));
  }

  /** "History is empty" is shown exactly when there is no section to show. */
  lemma EmptyStateIffNoSections(ts: seq<Transaction>, s: Selection)
    ensures Filtered(ts, s) == [] <==> FilteredSections(ts, s) == []
  {
    SectionsEmpty(Filtered(ts, s));
  }
}
