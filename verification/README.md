# Group store model

A Dafny model of the client-side state container of the household
shared-expense ledger (`src/store/group.ts`). The store holds six slices:
the current group id, and the lists of groups, members, expense
categories, recurring expenses and settlement payments. Its actions are
modelled as pure functions from one immutable `GroupStore` value to the
next:

- replace setters (`SetCurrentGroup`, `SetGroups`, `SetMembers`,
  `SetCategories`, `SetExpenses`, `SetPayments`) overwrite one slice;
- appenders (`AddGroup`, `AddMember`, `AddExpense`) put one element at the
  end of a slice;
- updaters (`UpdateMember`, `UpdateExpense`) replace every element whose
  `id` equals the target by the shallow merge `{ ...m, ...data }` of a
  partial record;
- removers (`RemoveMember`, `RemoveExpense`) drop every element with the
  target `id`.

Files:

- `wrappers.dfy` — `Option`.
- `records.dfy` — the entity records, the `Partial<T>` patches (one
  `Option` per key, `None` meaning the key is absent) and the shallow merge.
- `keyed_lists.dfy` — the generic append / update-by-key / remove-by-key
  list operations and their order, subsequence and idempotence lemmas.
- `group_store.dfy` — the store state, one function per action, an `Action`
  dispatcher and the lemmas relating actions.

## Model

| member | source | states |
|---|---|---|
| Records.MergeMember | src/store/group.ts:98 | every key present in the patch is taken from the patch, every absent key from the original member |
| Records.MergeExpense | src/store/group.ts:105 | every key present in the patch is taken from the patch, every absent key from the original expense |
| Records.MergeMemberEmpty | src/store/group.ts:98 | spreading an empty patch over a member yields the member |
| Records.MergeMemberFull | src/store/group.ts:98 | a patch carrying every declared key replaces every declared key of the member |
| Records.MergeMemberIdempotent | src/store/group.ts:98 | spreading the same patch twice equals spreading it once |
| Records.MergeExpenseEmpty | src/store/group.ts:105 | spreading an empty patch over an expense yields the expense |
| Records.MergeExpenseFull | src/store/group.ts:105 | a patch carrying every declared key replaces every declared key of the expense |
| Records.MergeExpenseIdempotent | src/store/group.ts:105 | spreading the same patch twice equals spreading it once |
| KeyedLists.Append | src/store/group.ts:95-96 | the result is one longer, its prefix is the old list and its last element is the new one |
| KeyedLists.UpdateWhere | src/store/group.ts:98 | length is kept; elements with another key are unchanged, elements with the key are mapped |
| KeyedLists.RemoveWhere | src/store/group.ts:101 | no element with the key remains, every element with another key is kept, nothing new appears, and the result is a subsequence of the input |
| KeyedLists.UpdateAbsentIsIdentity | src/store/group.ts:98 | an update on a key no element carries returns the list unchanged |
| KeyedLists.RemoveAbsentIsIdentity | src/store/group.ts:101 | a removal of a key no element carries returns the list unchanged |
| KeyedLists.RemoveIdempotent | src/store/group.ts:101 | filtering out the same key twice equals filtering it out once |
| KeyedLists.RemoveConcat | src/store/group.ts:101 | filtering a concatenation is concatenating the filtered parts |
| KeyedLists.RemoveKeepsCount | src/store/group.ts:101 | an element whose key differs from the removed one occurs in the result exactly as many times as in the input |
| KeyedLists.RemoveKeepsCounts | src/store/group.ts:101 | every value whose key differs from the removed one keeps its number of occurrences |
| KeyedLists.RemoveUndoesAppend | src/store/group.ts:96-101 | removing the key of an element just appended, when no earlier element carried it, gives back the list before the append |
| KeyedLists.RemoveShrinksIffPresent | src/store/group.ts:101 | the result is shorter than the input exactly when some element carries the key |
| KeyedLists.RemoveLandsAtRank | src/store/group.ts:101 | a kept element appears in the result at the index equal to the number of kept elements before it |
| KeyedLists.KeptRankGrows | src/store/group.ts:101 | a kept element raises the number of kept elements counted before every later index |
| KeyedLists.RemoveKeepsOrder | src/store/group.ts:101 | two kept elements keep their relative order in the result |
| Store.SetCurrentGroup | src/store/group.ts:88 | the current group id becomes the argument and no other slice changes |
| Store.SetGroups | src/store/group.ts:89 | the groups slice becomes the argument and no other slice changes |
| Store.SetMembers | src/store/group.ts:90 | the members slice becomes the argument and no other slice changes |
| Store.SetCategories | src/store/group.ts:91 | the categories slice becomes the argument and no other slice changes |
| Store.SetExpenses | src/store/group.ts:92 | the expenses slice becomes the argument and no other slice changes |
| Store.SetPayments | src/store/group.ts:93 | the payments slice becomes the argument and no other slice changes |
| Store.AddGroup | src/store/group.ts:95 | groups grows by one, the old groups form its prefix, the new group is last; nothing else changes |
| Store.AddMember | src/store/group.ts:96 | members grows by one, the old members form its prefix, the new member is last; nothing else changes |
| Store.AddExpense | src/store/group.ts:103 | expenses grows by one, the old expenses form its prefix, the new expense is last; nothing else changes |
| Store.UpdateMember | src/store/group.ts:97-99 | members keeps its length and order; members with another id are identical at the same index; members with the id become the merge with the patch; nothing else changes |
| Store.UpdateExpense | src/store/group.ts:104-106 | expenses keeps its length and order; expenses with another id are identical at the same index; expenses with the id become the merge with the patch; nothing else changes |
| Store.RemoveMember | src/store/group.ts:100-102 | no member with the id remains; every other member is kept with all its copies, since its number of occurrences is unchanged; the result is a subsequence of the old members; nothing else changes |
| Store.RemoveExpense | src/store/group.ts:107-109 | no expense with the id remains; every other expense is kept with all its copies, since its number of occurrences is unchanged; the result is a subsequence of the old expenses; nothing else changes |
| Store.UpdateMemberAbsent | src/store/group.ts:97-99 | updating an id no member carries leaves the store unchanged |
| Store.UpdateExpenseAbsent | src/store/group.ts:104-106 | updating an id no expense carries leaves the store unchanged |
| Store.UpdateMemberIdempotent | src/store/group.ts:97-99 | applying the same member update twice equals applying it once, even when the patch rewrites the id |
| Store.UpdateExpenseIdempotent | src/store/group.ts:104-106 | applying the same expense update twice equals applying it once |
| Store.RemoveMemberIdempotent | src/store/group.ts:100-102 | removing the same member id twice equals removing it once |
| Store.RemoveExpenseIdempotent | src/store/group.ts:107-109 | removing the same expense id twice equals removing it once |
| Store.RemoveMemberAbsent | src/store/group.ts:100-102 | removing an id no member carries leaves the store unchanged |
| Store.RemoveExpenseAbsent | src/store/group.ts:107-109 | removing an id no expense carries leaves the store unchanged |
| Store.RemoveMemberKeepsOrder | src/store/group.ts:100-102 | two members with other ids at indices i < j of the old list appear at indices a < b of the result, so their relative order is kept |
| Store.RemoveExpenseKeepsOrder | src/store/group.ts:107-109 | two expenses with other ids at indices i < j of the old list appear at indices a < b of the result, so their relative order is kept |
| Store.RemoveUndoesAddMember | src/store/group.ts:96-102 | adding a member with a fresh id and then removing that id restores the store |
| Store.RemoveUndoesAddExpense | src/store/group.ts:103-109 | adding an expense with a fresh id and then removing that id restores the store |
| Store.UpdateAfterRemoveMember | src/store/group.ts:97-102 | after a member id is removed, updating that id changes nothing |
| Store.UpdateAfterRemoveExpense | src/store/group.ts:104-109 | after an expense id is removed, updating that id changes nothing |
| Store.ApplyOnlyChanges | src/store/group.ts:88-109 | every action changes only the one slice it names |
| Store.RunOnlyChanges | src/store/group.ts:88-109 | any sequence of actions that all name one slice leaves every other slice unchanged |

## Left out

- The zustand `create` wrapper and the `persist` middleware (src/store/group.ts:78-79, 111-113): library code, plus browser localStorage I/O. The store's `set` is modelled as returning the next state value; subscribers and re-rendering are not modelled. States and lists are compared by value, not by reference: `map`, `filter` and spread always allocate a new array or object, so a lemma saying an action leaves the store unchanged, or that two action sequences give equal stores, means equal contents.
- The initial state (src/store/group.ts:81-86) is the constant `Store.Initial`; it carries no contract.
- A patch key present with the value `undefined` overwrites the field with `undefined` in JavaScript; the model has no `undefined`, so such a key is written as absent (`None`) or, for the nullable and optional fields, as `Some(None)`.
- Records and patches are modelled by their declared keys only (src/store/group.ts:4-52, 71, 74). At run time the stored objects carry more keys. Members come from database rows and carry `createdAt` (src/db/schema.ts:28). Categories carry `createdAt` too (src/db/schema.ts:37). Expenses carry `startMonth`, `startYear`, `endMonth`, `endYear`, `createdAt`, `updatedAt` (src/db/schema.ts:50-55) and `isActiveForMonth`. A spread `{ ...m, ...data }` passes such keys through, and every other action passes them through unchanged, because no action reads them. So `MergeMemberFull` and `MergeExpenseFull` replace every declared key, while undeclared keys of the original record survive. Run-time values may also lack declared keys: a group added after creation has no `createdAt` or `updatedAt`. `Date` values that arrive through JSON are strings. None of these cases has a counterpart in the model.
- `Date` fields are integer timestamps and the floating-point numbers `amount`, `quotaPercent` and `amountPaid` are `real`. The JavaScript numbers `frequencyValue`, `dayOfMonth` and the payment's `month` and `year` (src/store/group.ts:35-36, 47-48) are `int` stand-ins, so fractional values or `NaN` in those fields have no counterpart in the model. The store never computes on any of these fields.
- KeyedLists.RemoveWhere: its own contract says that each kept element still occurs in the result, not how often. Keeping every copy is proved separately by `KeyedLists.RemoveKeepsCount`, because the multiset clause on the recursive function itself costs too much to prove. `Store.RemoveMember` and `Store.RemoveExpense` state the count in their contracts.
- The API route handlers, React pages and database schema are not part of this model: they are session lookups, id generation, hashing, database access and UI.
- The monthly settlement computation (frequency normalisation, activity windows, quota allocation, recurring-payment upsert) is not in the store and is not part of this model.
