/** `EditTransactionView`: the form that loads a transaction, validates the edit
    and writes it back. */
module EditTransaction {
  import opened Records
  import opened Text
  import opened Entities

  const InvalidAmount := "Please enter a valid amount."
  const EmptyNote := "Note cannot be empty."
  const EmptyCategoryName := "Category name cannot be empty."
  const CategoryExists := "This category already exists."

  /** The two tags of the form's type picker. */
  const Kinds: seq<string> := ["Income", "Expenses"]

  /** Whether some stored name equals `name` once both are lowered. A category
      without a name never matches. */
  predicate NameTaken(names: seq<Option<string>>, name: string) {
    exists i :: 0 <= i < |names| && names[i].Some? && Lowercased(names[i].value) == Lowercased(name)
  }

  /** The outcome of the Save button's checks. */
  datatype Verdict = Accept(amount: real) | Reject(message: string)

  /** Whether `amountText`, with its commas turned into points, parses to a
      positive number. */
  predicate AmountOk(amountText: string, parse: string -> Option<real>) {
    var p := parse(CommasToDots(amountText));
    p.Some? && p.value > 0.0
  }

  /** The Save button's guards in the order it runs them: the first that fails
      alone chooses the alert; when none fails the parsed amount is stored. */
  function Validate(amountText: string, note: string, adding: bool, newName: string,
                    names: seq<Option<string>>, parse: string -> Option<real>): (v: Verdict)
    ensures v.Accept? ==> v.amount > 0.0
  {
    var p := parse(CommasToDots(amountText));
    if p.None? || p.value <= 0.0 then Reject(InvalidAmount)
    else if IsBlank(note) then Reject(EmptyNote)
    else if adding && IsBlank(newName) then Reject(EmptyCategoryName)
    else if adding && NameTaken(names, Trim(newName)) then Reject(CategoryExists)
    else Accept(p.value)
  }

  /** Each alert is raised exactly when the guards before it pass and its own
      fails; the edit is accepted exactly when every guard passes, and then the
      stored amount is the parsed one. */
  lemma ValidateOutcomes(amountText: string, note: string, adding: bool, newName: string,
                         names: seq<Option<string>>, parse: string -> Option<real>)
    ensures var v := Validate(amountText, note, adding, newName, names, parse);
      && (v == Reject(InvalidAmount) <==> !AmountOk(amountText, parse))
      && (v == Reject(EmptyNote) <==> AmountOk(amountText, parse) && IsBlank(note))
      && (v == Reject(EmptyCategoryName) <==>
            AmountOk(amountText, parse) && !IsBlank(note) && adding && IsBlank(newName))
      && (v == Reject(CategoryExists) <==>
            AmountOk(amountText, parse) && !IsBlank(note) && adding && !IsBlank(newName)
            && NameTaken(names, Trim(newName)))
      && (v.Accept? <==>
            AmountOk(amountText, parse) && !IsBlank(note)
            && (adding ==> !IsBlank(newName) && !NameTaken(names, Trim(newName))))
      && (v.Accept? ==> Some(v.amount) == parse(CommasToDots(amountText)))
  {
  }

  /** Every rejection carries one of the four alert messages. */
  lemma RejectionMessages(amountText: string, note: string, adding: bool, newName: string,
                          names: seq<Option<string>>, parse: string -> Option<real>)
    ensures var v := Validate(amountText, note, adding, newName, names, parse);
      v.Reject? ==> v.message in [InvalidAmount, EmptyNote, EmptyCategoryName, CategoryExists]
  {
  }

  /** Outside add-new-category mode the category name plays no part. */
  lemma NameIgnoredWhenPicking(amountText: string, note: string, newName: string, newName': string,
                               names: seq<Option<string>>, names': seq<Option<string>>,
                               parse: string -> Option<real>)
    ensures Validate(amountText, note, false, newName, names, parse)
         == Validate(amountText, note, false, newName', names', parse)
  {
  }

  /** A typed name is a duplicate exactly when some stored name differs from it
      at most in the case of its letters. */
  lemma NameTakenIffCaseVariant(names: seq<Option<string>>, name: string)
    ensures NameTaken(names, name) <==>
      exists i :: 0 <= i < |names| && names[i].Some? && SameIgnoringCase(names[i].value, name)
  {
    forall i | 0 <= i < |names| && names[i].Some? {
      LowercasedEqualIff(names[i].value, name);
    }
  }

  /** The duplicate check ignores the case of the typed name: two spellings that
      differ only in case are both duplicates or neither is. */
  lemma DuplicateIgnoresCase(names: seq<Option<string>>, a: string, b: string)
    requires SameIgnoringCase(a, b)
    ensures NameTaken(names, a) <==> NameTaken(names, b)
  {
    LowercasedEqualIff(a, b);
  }

  /** The stored name is compared untrimmed: a category saved with leading
      whitespace `w` (which Save keeps) trims to the typed name `n`, yet does not
      stop a second category `n`. */
  lemma PaddedNameIsNoDuplicate(w: string, n: string)
    requires w != [] && forall i :: 0 <= i < |w| ==> IsWhitespace(w[i])
    requires Trim(n) == n
    ensures Trim(w + n) == Trim(n)
    ensures !NameTaken([Some(w + n)], Trim(n))
  {
    DropLeadingPadded(w, n);
    if n != [] {
      assert !IsWhitespace(n[0]);
      assert DropLeading(n) == n;
    } else {
      assert w + n == w;
    }
    LengthsDiffer(w + n, n);
  }

  /** Lowering keeps lengths, so names of different lengths never match. */
  lemma LengthsDiffer(stored: string, name: string)
    requires |stored| != |name|
    ensures !NameTaken([Some(stored)], name)
  {
    assert |Lowercased(stored)| != |Lowercased(name)|;
  }

  /** The form's state and the objects it edits. */
  class EditTransactionView {
    const transaction: TransactionEntity
    const context: Context
    var note: string
    var amount: string
    var date: Date
    var kind: string
    var selectedCategory: CategoryEntity?
    var isAddingNewCategory: bool
    var newCategoryName: string
    var showAlert: bool
    var alertMessage: string
    /** Whether `dismiss()` has closed the sheet. */
    var dismissed: bool

    /** The `@State` initial values; `now` stands for `Date()`. */
    constructor (transaction: TransactionEntity, context: Context, now: Date)
      ensures this.transaction == transaction && this.context == context
      ensures note == "" && amount == "" && date == now && kind == "Income"
      ensures selectedCategory == null && !isAddingNewCategory && newCategoryName == ""
      ensures !showAlert && alertMessage == "" && !dismissed
    {
      this.transaction, this.context := transaction, context;
      note, amount, date, kind := "", "", now, "Income";
      selectedCategory, isAddingNewCategory, newCategoryName := null, false, "";
      showAlert, alertMessage, dismissed := false, "", false;
    }

    /** `onAppear`: the fields are loaded from the transaction; `now` stands for
        `Date()` and `format` for `String(format: "%.2f", _)`. The form opens in
        add-new-category mode exactly when the transaction has no category. */
    method Appear(now: Date, format: real -> string)
      modifies this`note, this`amount, this`date, this`kind, this`selectedCategory, this`isAddingNewCategory
      ensures note == transaction.note.GetOr("")
      ensures amount == format(transaction.amount)
      ensures date == transaction.date.GetOr(now)
      ensures kind == transaction.kind.GetOr("Income")
      ensures selectedCategory == transaction.category
      ensures isAddingNewCategory <==> transaction.category == null
    {
      note := transaction.note.GetOr("");
      amount := format(transaction.amount);
      date := transaction.date.GetOr(now);
      kind := transaction.kind.GetOr("Income");
      selectedCategory := transaction.category;
      isAddingNewCategory := transaction.category == null;
    }

    /** The category picker's setter: choosing "Add New Category" (`nil`) turns
        on the name field, choosing a category turns it off. */
    method PickCategory(c: CategoryEntity?)
      modifies this`selectedCategory, this`isAddingNewCategory
      ensures selectedCategory == c
      ensures isAddingNewCategory <==> c == null
    {
      selectedCategory := c;
      isAddingNewCategory := c == null;
    }

    /** The type picker: only its two tags can be chosen. */
    method PickKind(k: string)
      requires k in Kinds
      modifies this`kind
      ensures kind == k && (kind == "Income" || kind == "Expenses")
    {
      kind := k;
    }

    /** The toolbar's Cancel: the sheet closes and nothing is written. */
    method Cancel()
      modifies this`dismissed
      ensures dismissed
    {
      dismissed := true;
    }

    /** A failed guard's alert: the message is shown and nothing else changes. */
    method Alert(message: string)
      modifies this`showAlert, this`alertMessage
      ensures showAlert && alertMessage == message
    {
      alertMessage := message;
      showAlert := true;
    }

    /** The write-back once every guard has passed: the transaction receives the
        form's values, a new category keeps its name as typed (untrimmed), and
        the sheet closes. */
    method Commit(value: real)
      modifies this`dismissed, transaction, context`categories
      ensures dismissed
      ensures transaction.amount == value && transaction.note == Some(note)
      ensures transaction.date == Some(date) && transaction.kind == Some(kind)
      ensures isAddingNewCategory ==>
        && transaction.category != null && fresh(transaction.category)
        && transaction.category.name == Some(newCategoryName)
        && context.categories == old(context.categories) + [transaction.category]
      ensures !isAddingNewCategory ==>
        transaction.category == selectedCategory && context.categories == old(context.categories)
    {
      if isAddingNewCategory {
        var c := context.InsertCategory(newCategoryName);
        transaction.category := c;
      } else {
        transaction.category := selectedCategory;
      }
      transaction.amount := value;
      transaction.note := Some(note);
      transaction.date := Some(date);
      transaction.kind := Some(kind);
      dismissed := true;
    }

    /** The Save button: `Validate` runs its guards on the form's fields and the
        names of the categories stored before the press. A rejection shows its
        alert and changes nothing else; an acceptance writes the edit back. */
    method Save(parse: string -> Option<real>)
      modifies this`showAlert, this`alertMessage, this`dismissed, transaction, context`categories
      ensures var v := Validate(amount, note, isAddingNewCategory, newCategoryName,
                                old(Names(context.categories)), parse);
        && (v.Reject? ==>
              showAlert && alertMessage == v.message && dismissed == old(dismissed)
              && unchanged(transaction) && context.categories == old(context.categories))
        && (v.Accept? ==>
              dismissed && showAlert == old(showAlert) && alertMessage == old(alertMessage)
              && transaction.amount == v.amount && transaction.note == Some(note)
              && transaction.date == Some(date) && transaction.kind == Some(kind)
              && (isAddingNewCategory ==>
                    && transaction.category != null && fresh(transaction.category)
                    && transaction.category.name == Some(newCategoryName)
                    && context.categories == old(context.categories) + [transaction.category])
              && (!isAddingNewCategory ==>
                    transaction.category == selectedCategory
                    && context.categories == old(context.categories)))
    {
      var v := Validate(amount, note, isAddingNewCategory, newCategoryName,
                        Names(context.categories), parse);
      if v.Reject? {
        Alert(v.message);
        return;
      }
      Commit(v.amount);
    }
  }
}
