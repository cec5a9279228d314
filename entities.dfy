/** The Core Data objects the forms change in place: categories, transactions,
    and the managed object context into which new ones are inserted. */
module Entities {
  import opened Records

  /** A `Category` managed object. Nothing in the views renames a category once
      it is created, so its name is fixed at creation. */
  class CategoryEntity {
    const name: Option<string>

    /** `Category(context:)` followed by `name = ...`. */
    constructor (name: string)
      ensures this.name == Some(name)
    {
      this.name := Some(name);
    }
  }

  /** A `Transaction` managed object; `kind` is its `type` attribute. */
  class TransactionEntity {
    var amount: real
    var date: Option<Date>
    var note: Option<string>
    var kind: Option<string>
    var category: CategoryEntity?

    /** `Transaction(context:)`: every attribute at its default. */
    constructor ()
      ensures amount == 0.0 && date.None? && note.None? && kind.None? && category == null
    {
      amount, date, note, kind, category := 0.0, None, None, None, null;
    }
  }

  /** The names of the categories as the form's `categories` fetch sees them. */
  function Names(cs: seq<CategoryEntity>): (ns: seq<Option<string>>)
    ensures |ns| == |cs|
    ensures forall i :: 0 <= i < |cs| ==> ns[i] == cs[i].name
  {
    if cs == [] then [] else [cs[0].name] + Names(cs[1..])
  }

  /** The value the fetch hands the dashboard for `e`: `id` stands for the
      object's identity, a missing date reads as `now` (`date ?? Date()`), and the
      category is `toCategory?.name`. */
  function Snapshot(e: TransactionEntity, id: nat, now: Date): Transaction
    reads e
  {
    Transaction(id, e.amount, e.date.GetOr(now), e.note, e.kind,
                if e.category == null then None else e.category.name)
  }

  /** The managed object context: the objects inserted into it, oldest first. */
  class Context {
    var transactions: seq<TransactionEntity>
    var categories: seq<CategoryEntity>

    constructor (transactions: seq<TransactionEntity>, categories: seq<CategoryEntity>)
      ensures this.transactions == transactions && this.categories == categories
    {
      this.transactions, this.categories := transactions, categories;
    }

    /** A new `Category` named `name`, inserted into the context. */
    method InsertCategory(name: string) returns (c: CategoryEntity)
      modifies this`categories
      ensures fresh(c) && c.name == Some(name)
      ensures categories == old(categories) + [c]
    {
      c := new CategoryEntity(name);
      categories := categories + [c];
    }

    /** A new `Transaction` with default attributes, inserted into the context. */
    method InsertTransaction() returns (t: TransactionEntity)
      modifies this`transactions
      ensures fresh(t)
      ensures t.amount == 0.0 && t.date.None? && t.note.None? && t.kind.None? && t.category == null
      ensures transactions == old(transactions) + [t]
    {
      t := new TransactionEntity();
      transactions := transactions + [t];
    }
  }
}
