/** `TransactionListView`: the whole, unfiltered history grouped by month, the
    empty state, and the index the delete swipe hands to `onDelete`. */
module TransactionList {
  import opened Records
  import opened Grouping

  /** What the view's body shows. */
  datatype Screen = EmptyHistory | History(sections: seq<Section>)

  /** `if transactions.isEmpty { "History is empty" } else { List { sections } }`.
      The list shows every transaction exactly once, under its own month. */
  function Body(ts: seq<Transaction>): (r: Screen)
    ensures r.EmptyHistory? <==> ts == []
    ensures r.History? ==> r.sections != [] && multiset(Flatten(r.sections)) == multiset(ts)
  {
    SectionsEmpty(ts);
    SectionsArePermutation(ts);
    if ts == [] then EmptyHistory else History(Sections(ts))
  }

  /** `transactions.firstIndex(of: tx)`: the first position of `tx` in the whole list. */
  function FirstIndex(ts: seq<Transaction>, tx: Transaction): (r: Option<nat>)
    ensures r.None? <==> tx !in ts
    ensures r.Some? ==> r.value < |ts| && ts[r.value] == tx
    ensures r.Some? ==> forall j :: 0 <= j < r.value ==> ts[j] != tx
  {
    if ts == [] then None
    else if ts[0] == tx then Some(0)
    else
      match FirstIndex(ts[1..], tx)
      case None => None
      case Some(i) => Some(i + 1)
  }

  /** The trailing swipe's Delete button: the `IndexSet` passed to `onDelete`, or
      `None` when `onDelete` is not called. The index is a position in the whole
      fetched list, not in the row's section. */
  function DeleteRequest(ts: seq<Transaction>, tx: Transaction): (r: Option<set<nat>>)
    ensures r.None? <==> tx !in ts
    ensures r.Some? ==> exists i ::
      0 <= i < |ts| && r.value == {i} && ts[i] == tx && (forall j :: 0 <= j < i ==> ts[j] != tx)
  {
    match FirstIndex(ts, tx)
    case None => None
    case Some(i) => Some({i})
  }

  /** Distinct managed objects: no transaction occurs twice in a fetch. */
  ghost predicate Distinct(ts: seq<Transaction>) {
    forall i, j :: 0 <= i < j < |ts| ==> ts[i].id != ts[j].id
  }

  /** Deleting any row shown in any section calls `onDelete` with the one position
      that row has in the whole list. */
  lemma DeleteShownRow(ts: seq<Transaction>, i: nat, p: nat)
    requires Distinct(ts)
    requires i < |Sections(ts)| && p < |Sections(ts)[i].rows|
    ensures var row := Sections(ts)[i].rows[p];
      exists n :: 0 <= n < |ts| && ts[n] == row && DeleteRequest(ts, row) == Some({n})
        && forall m :: 0 <= m < |ts| && ts[m] == row ==> m == n
  {
    var row := Sections(ts)[i].rows[p];
    WhereMember(ts, MonthIs(Sections(ts)[i].key), row);
    var n := FirstIndex(ts, row).value;
    assert DeleteRequest(ts, row) == Some({n});
  }
}
