/** `AddTransactionView`: the form that inserts a new transaction. Unlike the
    edit form it checks nothing: an amount that does not parse is stored as
    zero, commas are not turned into points, and the form is not cleared. */
module AddTransaction {
  import opened Records
  import opened Text
  import opened Entities
  import EditTransaction
  import Dashboard

  /** The two tags of this form's type picker; the second is not the dashboard's
      "Expenses". */
  const Kinds: seq<string> := ["Income", "Outcome"]

  /** `Double(amount) ?? 0.0`, with `parse` standing for `Double(_)`. */
  function StoredAmount(amountText: string, parse: string -> Option<real>): (r: real)
    ensures parse(amountText).None? ==> r == 0.0
    ensures parse(amountText).Some? ==> r == parse(amountText).value
  {
    parse(amountText).GetOr(0.0)
  }

  /** Whether Save creates a category: add-new-category mode with a non-empty
      name. Only emptiness is checked; a name of spaces or a duplicate passes. */
  predicate CreatesCategory(adding: bool, newName: string) {
    adding && newName != []
  }

  /** Where the two forms part: a name of whitespace only creates a category
      here exactly when it is not empty, while the edit form rejects every such
      name whatever the other fields hold. Picking an existing category never
      creates one. */
  lemma SpacesMakeACategory(n: string, amountText: string, note: string,
                            names: seq<Option<string>>, parse: string -> Option<real>)
    requires IsBlank(n)
    ensures CreatesCategory(true, n) <==> n != []
    ensures !CreatesCategory(false, n)
    ensures !EditTransaction.Validate(amountText, note, true, n, names, parse).Accept?
  {
    EditTransaction.ValidateOutcomes(amountText, note, true, n, names, parse);
  }

  /** A transaction saved with the "Outcome" tag is neither an income nor an
      expense to the dashboard: wherever the date sort places its snapshot, both
      totals stay as they were. */
  lemma OutcomeCountsInNeitherTotal(e: TransactionEntity, id: nat, now: Date,
                                    ts: seq<Transaction>, k: nat, s: Dashboard.Selection)
    requires e.kind == Some("Outcome") && k <= |ts|
    ensures Dashboard.TotalIncome(ts[..k] + [Snapshot(e, id, now)] + ts[k..], s)
         == Dashboard.TotalIncome(ts, s)
    ensures Dashboard.TotalExpenses(ts[..k] + [Snapshot(e, id, now)] + ts[k..], s)
         == Dashboard.TotalExpenses(ts, s)
  {
    Dashboard.AddedTransactionEffect(ts, k, Snapshot(e, id, now), s);
  }

  /** The form's state and the context it inserts into. */
  class AddTransactionView {
    const context: Context
    var amount: string
    var note: string
    var kind: string
    var date: Date
    var selectedCategory: CategoryEntity?
    var isAddingNewCategory: bool
    var newCategoryName: string

    /** The type field only ever holds one of the picker's tags. */
    ghost predicate Valid()
      reads this
    {
      kind in Kinds
    }

    /** The `@State` initial values; `now` stands for `Date()`. */
    constructor (context: Context, now: Date)
      ensures Valid()
      ensures this.context == context
      ensures amount == "" && note == "" && kind == "Income" && date == now
      ensures selectedCategory == null && !isAddingNewCategory && newCategoryName == ""
    {
      this.context := context;
      amount, note, kind, date := "", "", "Income", now;
      selectedCategory, isAddingNewCategory, newCategoryName := null, false, "";
    }

    /** The type picker. */
    method PickKind(k: string)
      requires k in Kinds
      modifies this`kind
      ensures Valid() && kind == k
    {
      kind := k;
    }

    /** The category picker's setter: `nil` ("Add New Category") turns on the
        name field, a category turns it off. */
    method PickCategory(c: CategoryEntity?)
      modifies this`selectedCategory, this`isAddingNewCategory
      ensures selectedCategory == c
      ensures isAddingNewCategory <==> c == null
    {
      selectedCategory := c;
      isAddingNewCategory := c == null;
    }

    /** The Save button: a new transaction holding the form's values is
        inserted, with a new category named exactly as typed when one is being
        added, and otherwise the selected category (possibly none). The form
        itself keeps its fields. */
    method Save(parse: string -> Option<real>) returns (tx: TransactionEntity)
      requires Valid()
      modifies context
      ensures Valid()
      ensures fresh(tx) && context.transactions == old(context.transactions) + [tx]
      ensures tx.amount == StoredAmount(amount, parse)
      ensures tx.date == Some(date) && tx.note == Some(note) && tx.kind == Some(kind)
      ensures tx.kind == Some("Income") || tx.kind == Some("Outcome")
      ensures CreatesCategory(isAddingNewCategory, newCategoryName) ==>
        && tx.category != null && fresh(tx.category)
        && tx.category.name == Some(newCategoryName)
        && context.categories == old(context.categories) + [tx.category]
      ensures !CreatesCategory(isAddingNewCategory, newCategoryName) ==>
        tx.category == selectedCategory && context.categories == old(context.categories)
    {
      tx := context.InsertTransaction();
      tx.amount := StoredAmount(amount, parse);
      tx.date := Some(date);
      tx.note := Some(note);
      tx.kind := Some(kind);
      if isAddingNewCategory && newCategoryName != [] {
        var c := context.InsertCategory(newCategoryName);
        tx.category := c;
      } else {
        tx.category := selectedCategory;
      }
    }
  }

  /** Saving with "Outcome" picked: the new transaction is inserted, yet it moves
      neither dashboard total. */
  method SaveOutcome(view: AddTransactionView, parse: string -> Option<real>,
                     ts: seq<Transaction>, k: nat, s: Dashboard.Selection, id: nat, now: Date)
    returns (tx: TransactionEntity)
    requires view.Valid() && view.kind == "Outcome" && k <= |ts|
    modifies view.context
    ensures fresh(tx) && view.context.transactions == old(view.context.transactions) + [tx]
    ensures Dashboard.TotalIncome(ts[..k] + [Snapshot(tx, id, now)] + ts[k..], s)
         == Dashboard.TotalIncome(ts, s)
    ensures Dashboard.TotalExpenses(ts[..k] + [Snapshot(tx, id, now)] + ts[k..], s)
         == Dashboard.TotalExpenses(ts, s)
  {
    tx := view.Save(parse);
    OutcomeCountsInNeitherTotal(tx, id, now, ts, k, s);
  }

  /** Pressing Save twice inserts two distinct transactions with the same values:
      nothing stops a double entry. */
  method SaveTwice(view: AddTransactionView, parse: string -> Option<real>)
    returns (first: TransactionEntity, second: TransactionEntity)
    requires view.Valid()
    modifies view.context
    ensures first != second
    ensures view.context.transactions == old(view.context.transactions) + [first, second]
    ensures first.amount == second.amount && first.note == second.note
    ensures first.date == second.date && first.kind == second.kind
  {
    first := view.Save(parse);
    second := view.Save(parse);
  }
}
