# EasyBudget — a verified model of the budget views

EasyBudget is a SwiftUI app that keeps personal income and expense
transactions in Core Data. This project models the logic inside its views:

- **Dashboard** (`DashboardView`): the month, category and type facets offered
  by the three pickers, the conjunctive filter, the income and expense totals
  and the balance, and the filtered list grouped into month sections, newest
  month first.
- **Transaction list** (`TransactionListView`): the whole history grouped the
  same way, the "History is empty" state, and the index the Delete swipe hands
  to `onDelete`.
- **Edit form** (`EditTransactionView`): loading a transaction into the form,
  the category picker, and the Save button's ordered guards (amount, note,
  category name, duplicate category) with their alerts, or the write-back.
- **Add form** (`AddTransactionView`): the unchecked Save that inserts a new
  transaction and possibly a new category.
- **Profile** (`ProfileSection`): Save and Cancel of the profile draft, the
  loaded photo, and the choice of picture that `ProfileImage` draws.

Pure computations (facets, filter, totals, grouping, validation) are Dafny
functions over immutable values. A fetched transaction is the `Records.Transaction`
value. Objects that the forms change in place are classes: `Entities.TransactionEntity`,
`Entities.CategoryEntity`, `Entities.Context` (the managed object context, with the objects
inserted into it), `Profile.User`, and one class per form holding its `@State`
fields.

Three behaviours of the code that the model keeps:

- The dashboard sums the type string `"Expenses"`. The edit form offers
  `"Income"` and `"Expenses"`, but the add form offers `"Income"` and
  `"Outcome"`, so a transaction added as `"Outcome"` counts in neither total
  (`AddTransaction.SaveOutcome`).
- A month section lists its transactions in the order of the list the view is
  given. The rows are not sorted again inside a section.
- The edit form trims the new category name only for its checks. It stores the
  name as typed, and it compares against stored names without trimming them
  (`EditTransaction.PaddedNameIsNoDuplicate`).

## Model

| member | source | states |
|---|---|---|
| Records.Where | EasyBudget/DashboardView.swift:31-39 | Swift's `filter`: the kept elements keep their order (a subsequence of the input), all satisfy the predicate, and each satisfying element keeps its multiplicity |
| Records.WhereMember | EasyBudget/DashboardView.swift:31-39 | an element survives the filter exactly when it is in the input and satisfies the predicate |
| Records.WhereIsUnique | EasyBudget/DashboardView.swift:31-39 | an order-preserving selection of exactly the satisfying elements is unique, so it is the filter's result |
| Records.WhereWhere | EasyBudget/DashboardView.swift:41-47 | filtering by `p` and then by `q` equals filtering once by their conjunction |
| Records.WhereCongruent | EasyBudget/DashboardView.swift:31-39 | predicates that agree on the input's elements filter it the same way |
| Records.WhereCons | EasyBudget/DashboardView.swift:31-39 | filtering a list decides its first element, then filters the rest |
| Records.SubsequenceMultiset | EasyBudget/DashboardView.swift:31-39 | a subsequence holds no element more often than the sequence it comes from |
| Records.SubsequenceTransitive | EasyBudget/DashboardView.swift:146-148 | a subsequence of a subsequence is a subsequence |
| Records.MonthOf | EasyBudget/DashboardView.swift:33 | the (year, month) components of a date |
| Records.Newer | EasyBudget/DashboardView.swift:17-19 | `d1 > d2` on the first days of two months: a later year, or the same year and a later month |
| Text.PrecedesIrreflexive | EasyBudget/DashboardView.swift:23-29 | the string order used by `sorted()` is irreflexive |
| Text.PrecedesTransitive | EasyBudget/DashboardView.swift:23-29 | the string order is transitive |
| Text.PrecedesTotal | EasyBudget/DashboardView.swift:23-29 | any two different strings are ordered one way or the other |
| Text.InsertName | EasyBudget/DashboardView.swift:23-29 | inserting a name into a strictly ascending list keeps it strictly ascending and adds exactly that name |
| Text.SortedDistinct | EasyBudget/DashboardView.swift:23-29 | `Array(Set(ns)).sorted()`: every name of the input once, strictly ascending, no duplicates |
| Text.AscendingUnique | EasyBudget/DashboardView.swift:23-29 | two strictly ascending lists with the same names are equal, so the sorted facet is determined by its set of names |
| Text.Precedes | EasyBudget/DashboardView.swift:24 | Swift's `<` on strings as lexicographic order on characters, a proper prefix first |
| Text.DropLeading | EasyBudget/EditTransactionView.swift:68 | the result is a suffix of the input; everything dropped is whitespace and the result does not start with whitespace |
| Text.DropTrailing | EasyBudget/EditTransactionView.swift:75 | the result is a prefix of the input; everything dropped is whitespace and the result does not end with whitespace |
| Text.Trim | EasyBudget/EditTransactionView.swift:68 | `trimmingCharacters(in: .whitespaces)`: a slice `s[a..b]` with only whitespace outside it, empty exactly when every character is whitespace, otherwise starting and ending with non-whitespace |
| Text.TrimmedIsInnerSlice | EasyBudget/EditTransactionView.swift:75-76 | cutting leading and then trailing whitespace leaves the slice between the first and last non-whitespace characters, empty exactly when the name is all whitespace |
| Text.InnerSlice | EasyBudget/EditTransactionView.swift:75 | `r` is the slice `s[a..b]` and every character outside it is whitespace |
| Text.DropLeadingPadded | EasyBudget/EditTransactionView.swift:75 | whitespace put in front of a string is cut off again by trimming |
| Text.IsWhitespace | EasyBudget/EditTransactionView.swift:68 | the `.whitespaces` character set: tab and the Unicode space separators, no line breaks |
| Text.IsBlank | EasyBudget/EditTransactionView.swift:68 | `trimmingCharacters(in: .whitespaces).isEmpty` holds exactly when every character is whitespace |
| Text.LowerChar | EasyBudget/EditTransactionView.swift:82 | `lowercased()` on one character: a capital `A`-`Z` becomes its small letter (code point plus 32), any other character stays, and no capital is left |
| Text.Lowercased | EasyBudget/EditTransactionView.swift:82 | `lowercased()`: same length, each character lowered as `LowerChar` does, so every capital becomes its small letter, every other character stays, and no capital is left |
| Text.CaseMates | EasyBudget/EditTransactionView.swift:82 | two characters that are equal, or a capital and its small letter |
| Text.SameIgnoringCase | EasyBudget/EditTransactionView.swift:82 | two strings of equal length that are case mates position by position |
| Text.LowerCharEqualIff | EasyBudget/EditTransactionView.swift:82 | two characters lower to the same character exactly when they are case mates |
| Text.LowercasedEqualIff | EasyBudget/EditTransactionView.swift:82 | two strings lower to the same string exactly when they differ at most in the case of their letters |
| Text.CommasToDots | EasyBudget/EditTransactionView.swift:61 | `replacingOccurrences(of: ",", with: ".")`: same length, no comma left, every comma replaced by a point and nothing else changed |
| Grouping.Months | EasyBudget/DashboardView.swift:15 | the (year, month) key of each transaction, in input order |
| Grouping.InsertMonth | EasyBudget/DashboardView.swift:16-20 | inserting a month into a strictly newest-first list keeps it strictly newest first and adds exactly that month |
| Grouping.SortedDescending | EasyBudget/DashboardView.swift:14-21 | the set of months sorted with `d1 > d2`: strictly newest first, exactly the input's months |
| Grouping.DescendingUnique | EasyBudget/TransactionListView.swift:39-43 | two strictly newest-first lists of the same months are equal, so the sorted dictionary keys are determined by the key set |
| Grouping.InMonthEmpty | EasyBudget/TransactionListView.swift:14-18 | a month's bucket is empty exactly when no transaction falls in that month |
| Grouping.InMonth | EasyBudget/DashboardView.swift:49-52 | one month's bucket: the transactions of that month, in input order |
| Grouping.GroupByMonth | EasyBudget/TransactionListView.swift:14-18 | `Dictionary(grouping:by:)` on the month key: its keys are exactly the months that occur, and each holds that month's transactions, in input order and never empty |
| Grouping.SectionsOf | EasyBudget/TransactionListView.swift:48 | one section per key, in key order, each with its bucket or `[]` for a missing key (`groupedTransactions[key] ?? []`) |
| Grouping.Sections | EasyBudget/TransactionListView.swift:38-48 | the grouped list: section keys strictly newest first, exactly the months that occur, each section holding its month's transactions and never empty |
| Grouping.SortedSectionsFacts | EasyBudget/TransactionListView.swift:39-48 | the sorted keys paired with the dictionary give the section facts above |
| Grouping.SectionKeys | EasyBudget/TransactionListView.swift:39-43 | the section keys are strictly newest first and cover exactly the months that occur |
| Grouping.SectionRows | EasyBudget/TransactionListView.swift:48 | each section's rows are its month's transactions and are not empty |
| Grouping.SectionOfRow | EasyBudget/TransactionListView.swift:38-48 | every transaction appears in exactly the section of its own month, and each section keeps input order |
| Grouping.RowInBuckets | EasyBudget/TransactionListView.swift:38-48 | for any sections keyed by exactly the occurring months and holding their buckets: a row is in some section, in exactly the one of its month, and each section keeps input order |
| Grouping.BucketsCount | EasyBudget/TransactionListView.swift:38-48 | concatenating the buckets of distinct keys holds each transaction exactly as often as the input when its month is among the keys, otherwise not at all |
| Grouping.SectionsArePermutation | EasyBudget/TransactionListView.swift:38-48 | all sections together are a permutation of the input: nothing dropped or duplicated |
| Grouping.SectionsEmpty | EasyBudget/TransactionListView.swift:28-38 | there are no sections exactly when there are no transactions |
| Dashboard.AvailableMonths | EasyBudget/DashboardView.swift:14-21 | `availableMonths`: exactly the months of the transactions, each once, strictly newest first |
| Dashboard.CategoryNames | EasyBudget/DashboardView.swift:24 | `compactMap { $0.toCategory?.name }`: exactly the names of the categories in use |
| Dashboard.TypeNames | EasyBudget/DashboardView.swift:28 | `compactMap { $0.type }`: exactly the type strings in use |
| Dashboard.AvailableCategories | EasyBudget/DashboardView.swift:23-25 | `availableCategories`: exactly the category names in use, each once, ascending |
| Dashboard.AvailableTypes | EasyBudget/DashboardView.swift:27-29 | `availableTypes`: exactly the type strings in use, each once, ascending |
| Dashboard.Filtered | EasyBudget/DashboardView.swift:31-39 | `filteredTransactions`: a subsequence of the fetch, every row matches each chosen month, category and type, every matching row is kept as often as fetched, and a chosen category drops uncategorized rows |
| Dashboard.FilterAllIsIdentity | EasyBudget/DashboardView.swift:10-12 | with all three pickers on "All" the filter keeps everything |
| Dashboard.FilterIdempotent | EasyBudget/DashboardView.swift:31-39 | filtering the filtered list again changes nothing |
| Dashboard.FilteredNonEmpty | EasyBudget/DashboardView.swift:31-39 | the filtered list is non-empty exactly when some transaction matches |
| Dashboard.MonthSelectionNonEmpty | EasyBudget/DashboardView.swift:101-106 | a month picked alone selects something exactly when it is among the offered months |
| Dashboard.CategorySelectionNonEmpty | EasyBudget/DashboardView.swift:113-118 | a category picked alone selects something exactly when it is among the offered categories |
| Dashboard.TypeSelectionNonEmpty | EasyBudget/DashboardView.swift:125-130 | a type picked alone selects something exactly when it is among the offered types |
| Dashboard.MonthSelectionIsBucket | EasyBudget/DashboardView.swift:31-53 | picking a month alone shows exactly that month's bucket of `groupedTransactions` |
| Dashboard.Matches | EasyBudget/DashboardView.swift:33-37 | a transaction passes the filter when each picker is on "All" or equals its month, its category name or its type |
| Dashboard.MatchesOf | EasyBudget/DashboardView.swift:32-38 | the closure handed to `filter` |
| Dashboard.SumAmounts | EasyBudget/DashboardView.swift:42 | `reduce(0, +)` over amounts: zero for no rows, non-negative when every amount is |
| Dashboard.OfKind | EasyBudget/DashboardView.swift:42 | `filter { $0.type == kind }`: a subsequence whose rows are all typed exactly `kind`, keeping every such row as often as given |
| Dashboard.SumOfKindCons | EasyBudget/DashboardView.swift:42 | the total of a kind over a list grows by its first row's amount exactly when that row has the kind |
| Dashboard.TotalIncome | EasyBudget/DashboardView.swift:41-43 | `totalIncome` is zero when nothing is selected |
| Dashboard.TotalExpenses | EasyBudget/DashboardView.swift:45-47 | `totalExpenses` is zero when nothing is selected |
| Dashboard.Balance | EasyBudget/DashboardView.swift:66 | the figure after "Balance:" is the filtered rows' net: plus each "Income", minus each "Expenses", nothing for other types |
| Dashboard.TotalIsContributionSum | EasyBudget/DashboardView.swift:41-47 | filter, type filter and sum equal the sum of each transaction's own contribution |
| Dashboard.KindsNet | EasyBudget/DashboardView.swift:41-47 | income sum minus expense sum is the net of the rows |
| Dashboard.ContributionSumConcat | EasyBudget/DashboardView.swift:41-47 | a total over two lists laid end to end is the sum of their totals |
| Dashboard.ContributionSumSplice | EasyBudget/DashboardView.swift:41-47 | splicing one row into a list adds that row's contribution to the total |
| Dashboard.InsertedContribution | EasyBudget/DashboardView.swift:41-47 | one kind's total after inserting a row at any position grows by that row's contribution |
| Dashboard.AddedTransactionEffect | EasyBudget/DashboardView.swift:5-8 | a transaction inserted at any position of the date-sorted fetch moves the income total only if it matches and is typed exactly "Income", the expense total only if typed exactly "Expenses", and neither total for "Outcome" or a missing type |
| Dashboard.FilteredSections | EasyBudget/DashboardView.swift:146-160 | `filteredGrouped` with sorted keys: keys strictly newest first, no empty section, every row in its own month and matching the selection |
| Dashboard.SectionRowsMatch | EasyBudget/DashboardView.swift:146-160 | each row of a filtered section is in the section's month and matches the selection |
| Dashboard.FilteredSectionsCover | EasyBudget/DashboardView.swift:146-160 | the filtered sections are a permutation of the filtered rows, each row sits only in its own month's section, and each section keeps the order of the filtered rows and of the fetch |
| Dashboard.SectionIsMonthSelection | EasyBudget/DashboardView.swift:146-160 | with no month picked, a section shows exactly what picking its month would show |
| Dashboard.BucketOfFiltered | EasyBudget/DashboardView.swift:146-148 | a month's bucket of the filtered rows equals filtering with that month chosen as well |
| Dashboard.EmptyStateIffNoSections | EasyBudget/DashboardView.swift:136-146 | "History is empty" shows exactly when there is no section to show |
| TransactionList.Body | EasyBudget/TransactionListView.swift:27-48 | the empty state shows exactly when there are no transactions; otherwise the sections are non-empty and show every transaction exactly once |
| TransactionList.FirstIndex | EasyBudget/TransactionListView.swift:83 | `firstIndex(of:)`: absent exactly when the transaction is not in the list, otherwise the first position holding it |
| TransactionList.DeleteRequest | EasyBudget/TransactionListView.swift:82-85 | the swipe calls `onDelete` with the single first position of the row in the whole list, and not at all for a row not in it |
| TransactionList.DeleteShownRow | EasyBudget/TransactionListView.swift:81-89 | deleting any shown row requests the one position that row has in the whole list, not its position in its section |
| Entities.Names | EasyBudget/EditTransactionView.swift:10-13 | the fetched categories' names, position by position |
| Entities.Snapshot | EasyBudget/DashboardView.swift:33-36 | the value the dashboard reads from a transaction object: amount, note, type, `date ?? Date()` and `toCategory?.name` |
| Entities.CategoryEntity.constructor | EasyBudget/EditTransactionView.swift:88-89 | a new category holds the given name |
| Entities.TransactionEntity.constructor | EasyBudget/AddTransactionView.swift:53 | a new transaction has every attribute at its default |
| Entities.Context.InsertCategory | EasyBudget/EditTransactionView.swift:88-89 | a fresh category named as given is appended to the context |
| Entities.Context.InsertTransaction | EasyBudget/AddTransactionView.swift:53 | a fresh default transaction is appended to the context |
| EditTransaction.Validate | EasyBudget/EditTransactionView.swift:60-87 | an accepted edit has a positive amount |
| EditTransaction.ValidateOutcomes | EasyBudget/EditTransactionView.swift:60-87 | each alert is raised exactly when the guards before it pass and its own fails; acceptance exactly when all pass, and then the amount is the parse of the comma-normalised text |
| EditTransaction.RejectionMessages | EasyBudget/EditTransactionView.swift:63-83 | every rejection carries one of the four alert texts |
| EditTransaction.NameTaken | EasyBudget/EditTransactionView.swift:82 | `categories.contains { $0.name?.lowercased() == name.lowercased() }`, a nameless category never matching |
| EditTransaction.AmountOk | EasyBudget/EditTransactionView.swift:61-62 | the comma-normalised text parses to a number greater than zero |
| EditTransaction.NameIgnoredWhenPicking | EasyBudget/EditTransactionView.swift:74-93 | outside add-new-category mode neither the typed name nor the stored categories affect the outcome |
| EditTransaction.DuplicateIgnoresCase | EasyBudget/EditTransactionView.swift:82 | typed names that differ only in the case of their letters are duplicates of the same categories |
| EditTransaction.NameTakenIffCaseVariant | EasyBudget/EditTransactionView.swift:82 | a typed name is a duplicate exactly when some stored name differs from it at most in the case of its letters |
| EditTransaction.PaddedNameIsNoDuplicate | EasyBudget/EditTransactionView.swift:75-89 | for any whitespace prefix `w` and trimmed name `n`, the stored `w + n` trims to `n` yet does not block a new category `n`: stored names are compared untrimmed |
| EditTransaction.LengthsDiffer | EasyBudget/EditTransactionView.swift:82 | a stored name of another length never matches, as lowering keeps length |
| EditTransaction.EditTransactionView.constructor | EasyBudget/EditTransactionView.swift:15-25 | the form's `@State` initial values |
| EditTransaction.EditTransactionView.Appear | EasyBudget/EditTransactionView.swift:112-119 | `onAppear` loads note (or ""), formatted amount, date (or now), type (or "Income") and category, and turns on add-new-category mode exactly when the transaction has no category |
| EditTransaction.EditTransactionView.PickCategory | EasyBudget/EditTransactionView.swift:44-49 | the picker setter stores the choice and turns on add-new-category mode exactly for `nil` |
| EditTransaction.EditTransactionView.PickKind | EasyBudget/EditTransactionView.swift:31-34 | the type picker holds "Income" or "Expenses" |
| EditTransaction.EditTransactionView.Cancel | EasyBudget/EditTransactionView.swift:107-109 | Cancel closes the sheet and writes nothing |
| EditTransaction.EditTransactionView.Alert | EasyBudget/EditTransactionView.swift:63-64 | a failed guard sets the alert message and shows the alert |
| EditTransaction.EditTransactionView.Commit | EasyBudget/EditTransactionView.swift:88-101 | the write-back stores amount, note, date and type, links a fresh category named as typed or the selected one, and closes the sheet |
| EditTransaction.EditTransactionView.Save | EasyBudget/EditTransactionView.swift:60-102 | Save follows `Validate` on the stored category names: a rejection shows its message and leaves the transaction and categories unchanged; an acceptance writes every field, creates the category with its untrimmed name only in add-new-category mode, and dismisses |
| AddTransaction.StoredAmount | EasyBudget/AddTransactionView.swift:54 | `Double(amount) ?? 0.0`: the parsed number, or zero when the text does not parse |
| AddTransaction.SpacesMakeACategory | EasyBudget/AddTransactionView.swift:59 | for every all-whitespace name: the add form creates a category exactly when the name is not empty, never while picking, and the edit form rejects that name whatever else is typed |
| AddTransaction.CreatesCategory | EasyBudget/AddTransactionView.swift:59 | `isAddingNewCategory && !newCategoryName.isEmpty` |
| AddTransaction.OutcomeCountsInNeitherTotal | EasyBudget/AddTransactionView.swift:57 | a transaction typed "Outcome", inserted anywhere into the dashboard's list, leaves both totals unchanged |
| AddTransaction.AddTransactionView.constructor | EasyBudget/AddTransactionView.swift:6-18 | the form's initial values, type "Income" |
| AddTransaction.AddTransactionView.PickKind | EasyBudget/AddTransactionView.swift:22-25 | the type picker holds "Income" or "Outcome" |
| AddTransaction.AddTransactionView.PickCategory | EasyBudget/AddTransactionView.swift:35-40 | the picker setter stores the choice and turns on add-new-category mode exactly for `nil` |
| AddTransaction.AddTransactionView.Save | EasyBudget/AddTransactionView.swift:52-68 | Save appends one fresh transaction with the parsed-or-zero amount, the form's date, note and type ("Income" or "Outcome"), and either a fresh category named as typed (add mode, non-empty name) or the selected category |
| AddTransaction.SaveTwice | EasyBudget/AddTransactionView.swift:52-68 | two presses insert two distinct transactions with the same values: nothing prevents a double entry |
| AddTransaction.SaveOutcome | EasyBudget/AddTransactionView.swift:52-68 | saving with "Outcome" picked inserts a fresh transaction that moves neither dashboard total, wherever it is placed |
| Profile.ProfileImage | EasyBudget/ProfileSection.swift:89-99 | the draft while editing, the stored picture otherwise; a photo exactly when that source exists and decodes, the placeholder otherwise |
| Profile.EditingShowsDraft | EasyBudget/ProfileSection.swift:43 | while editing the stored picture plays no part |
| Profile.ViewingShowsStored | EasyBudget/ProfileSection.swift:54 | outside editing the draft plays no part |
| Profile.DisplayName | EasyBudget/ProfileSection.swift:72 | the user's name, or "Jan Kowalski" when there is none |
| Profile.User.constructor | EasyBudget/ProfileSection.swift:6 | a user with the given name and picture |
| Profile.ProfileSection.constructor | EasyBudget/ProfileSection.swift:6-11 | the users and the five bindings handed in by the caller |
| Profile.ProfileSection.Save | EasyBudget/ProfileSection.swift:18-24 | with a first user, its name and picture become the draft and editing ends; with none, editing goes on |
| Profile.ProfileSection.Cancel | EasyBudget/ProfileSection.swift:27-33 | with a first user, the draft reloads from it (a missing name as ""), the picked photo is cleared and editing ends; with none, nothing changes |
| Profile.ProfileSection.PhotoLoaded | EasyBudget/ProfileSection.swift:45-51 | loaded bytes become the draft picture and keep editing on; a failed load changes nothing |
| Profile.ProfileSection.TapImage | EasyBudget/ProfileSection.swift:55 | tapping the picture opens it full screen |
| Profile.ProfileSection.SaveThenCancel | EasyBudget/ProfileSection.swift:18-33 | Cancel right after Save leaves the draft name and picture as they were |
| Profile.ProfileSection.SaveKeepsPicture | EasyBudget/ProfileSection.swift:18-24 | after Save, the picture shown outside editing is the one shown while editing |

## Left out

- Dates are `(year, month, day)` values. `Calendar`, time zones and `DateFormatter` (`monthYearString`) are not modelled. The `tx.date ?? Date()` fallback is taken once, in `Entities.Snapshot`, with `now` a parameter; the filter and the grouping work on values that always have a date.
- Amounts are exact reals. `Float`/`Double` rounding and the `%.2f` formatting are left out. The parsers `Float(_)` and `Double(_)`, the formatter and `UIImage(data:)` are function parameters.
- String order is code-point order. Whitespace is the `.whitespaces` set written out, and `lowercased()` maps only the ASCII capitals. Unicode case mapping and normalisation are not modelled.
- `viewContext.save()` and its ignored errors are not modelled: inserting into the context is the model's persistence. Fetch requests are sequences in fetch order. `Persistence.swift` is not part of this model.
- The `onDelete` handler is supplied by whatever view shows the list, which is not modelled. The long press, the edit sheet and the detail overlay are not part of this model. `TransactionList.DeleteRequest` stops at the index it passes.
- The async `loadTransferable` is reduced to its result: `Profile.ProfileSection.PhotoLoaded` receives the loaded bytes, or none. The photo picker's UI is left out.
- SwiftUI layout, colours, fonts and alert titles are left out.
- Dashboard.TotalIncome: its own contract states only the empty case; its value is stated by `Dashboard.TotalIsContributionSum`, `Dashboard.Balance` and `Dashboard.AddedTransactionEffect`.
- Dashboard.TotalExpenses: likewise, its own contract states only the empty case; its value is stated by the same lemmas.
- EditTransaction.Validate: its own contract states only that an accepted amount is positive; the guard order is stated by `EditTransaction.ValidateOutcomes`.
- EditTransaction.EditTransactionView.Save: it runs the guards through `Validate`, not as separate statements. The outcome is the same, and `Validate` keeps the source's check order.
