/** The client-side group store: six state slices and the actions that
    replace, append to, update in or remove from them. Each action is the
    state-to-state function that the store's `set` applies. */
module Store {
  import opened Wrappers
  import opened Records
  import opened KeyedLists

  datatype GroupStore = GroupStore(
    currentGroupId: Option<Id>,
    groups: seq<Group>,
    members: seq<GroupMember>,
    categories: seq<ExpenseCategory>,
    expenses: seq<RecurringExpense>,
    payments: seq<Payment>)

  /** The store before any action: no current group and every list empty. */
  const Initial := GroupStore(None, [], [], [], [], [])

  datatype Slice = CurrentGroupSlice | GroupsSlice | MembersSlice | CategoriesSlice | ExpensesSlice | PaymentsSlice

  /** `after` agrees with `before` on every slice other than `s`. */
  predicate OnlyChanged(before: GroupStore, after: GroupStore, s: Slice) {
    && (s != CurrentGroupSlice ==> after.currentGroupId == before.currentGroupId)
    && (s != GroupsSlice ==> after.groups == before.groups)
    && (s != MembersSlice ==> after.members == before.members)
    && (s != CategoriesSlice ==> after.categories == before.categories)
    && (s != ExpensesSlice ==> after.expenses == before.expenses)
    && (s != PaymentsSlice ==> after.payments == before.payments)
  }

  // Replace setters

  function SetCurrentGroup(st: GroupStore, id: Option<Id>): (r: GroupStore)
    ensures r.currentGroupId == id
    ensures OnlyChanged(st, r, CurrentGroupSlice)
  {
    st.(currentGroupId := id)
  }

  function SetGroups(st: GroupStore, groups: seq<Group>): (r: GroupStore)
    ensures r.groups == groups
    ensures OnlyChanged(st, r, GroupsSlice)
  {
    st.(groups := groups)
  }

  function SetMembers(st: GroupStore, members: seq<GroupMember>): (r: GroupStore)
    ensures r.members == members
    ensures OnlyChanged(st, r, MembersSlice)
  {
    st.(members := members)
  }

  function SetCategories(st: GroupStore, categories: seq<ExpenseCategory>): (r: GroupStore)
    ensures r.categories == categories
    ensures OnlyChanged(st, r, CategoriesSlice)
  {
    st.(categories := categories)
  }

  function SetExpenses(st: GroupStore, expenses: seq<RecurringExpense>): (r: GroupStore)
    ensures r.expenses == expenses
    ensures OnlyChanged(st, r, ExpensesSlice)
  {
    st.(expenses := expenses)
  }

  function SetPayments(st: GroupStore, payments: seq<Payment>): (r: GroupStore)
    ensures r.payments == payments
    ensures OnlyChanged(st, r, PaymentsSlice)
  {
    st.(payments := payments)
  }

  // Appenders

  function AddGroup(st: GroupStore, group: Group): (r: GroupStore)
    ensures |r.groups| == |st.groups| + 1
    ensures r.groups[..|st.groups|] == st.groups
    ensures r.groups[|st.groups|] == group
    ensures OnlyChanged(st, r, GroupsSlice)
  {
    st.(groups := Append(st.groups, group))
  }

  function AddMember(st: GroupStore, member: GroupMember): (r: GroupStore)
    ensures |r.members| == |st.members| + 1
    ensures r.members[..|st.members|] == st.members
    ensures r.members[|st.members|] == member
    ensures OnlyChanged(st, r, MembersSlice)
  {
    st.(members := Append(st.members, member))
  }

  function AddExpense(st: GroupStore, expense: RecurringExpense): (r: GroupStore)
    ensures |r.expenses| == |st.expenses| + 1
    ensures r.expenses[..|st.expenses|] == st.expenses
    ensures r.expenses[|st.expenses|] == expense
    ensures OnlyChanged(st, r, ExpensesSlice)
  {
    st.(expenses := Append(st.expenses, expense))
  }

  // Updaters

  /** Every member whose id is `id` becomes `{ ...m, ...data }`; the list keeps
      its length and order and every other member stays as it was. */
  function UpdateMember(st: GroupStore, id: Id, data: MemberPatch): (r: GroupStore)
    ensures |r.members| == |st.members|
    ensures forall i :: 0 <= i < |st.members| && st.members[i].id != id ==>
              r.members[i] == st.members[i]
    ensures forall i :: 0 <= i < |st.members| && st.members[i].id == id ==>
              r.members[i] == MergeMember(st.members[i], data)
    ensures OnlyChanged(st, r, MembersSlice)
  {
    st.(members := UpdateWhere(st.members, MemberKey, id, m => MergeMember(m, data)))
  }

  /** Every expense whose id is `id` becomes `{ ...e, ...data }`. */
  function UpdateExpense(st: GroupStore, id: Id, data: ExpensePatch): (r: GroupStore)
    ensures |r.expenses| == |st.expenses|
    ensures forall i :: 0 <= i < |st.expenses| && st.expenses[i].id != id ==>
              r.expenses[i] == st.expenses[i]
    ensures forall i :: 0 <= i < |st.expenses| && st.expenses[i].id == id ==>
              r.expenses[i] == MergeExpense(st.expenses[i], data)
    ensures OnlyChanged(st, r, ExpensesSlice)
  {
    st.(expenses := UpdateWhere(st.expenses, ExpenseKey, id, e => MergeExpense(e, data)))
  }

  // Removers

  /** Drops every member whose id is `id` and keeps the others in order. */
  function RemoveMember(st: GroupStore, id: Id): (r: GroupStore)
    ensures forall i :: 0 <= i < |r.members| ==> r.members[i].id != id
    ensures forall i :: 0 <= i < |st.members| && st.members[i].id != id ==>
              st.members[i] in r.members
    ensures forall i :: 0 <= i < |r.members| ==> r.members[i] in st.members
    ensures forall m: GroupMember {:trigger multiset(r.members)[m]} :: m.id != id ==> multiset(r.members)[m] == multiset(st.members)[m]
    ensures IsSubsequence(r.members, st.members)
    ensures OnlyChanged(st, r, MembersSlice)
  {
    RemoveKeepsCounts(st.members, MemberKey, id);
    st.(members := RemoveWhere(st.members, MemberKey, id))
  }

  /** Drops every expense whose id is `id` and keeps the others in order. */
  function RemoveExpense(st: GroupStore, id: Id): (r: GroupStore)
    ensures forall i :: 0 <= i < |r.expenses| ==> r.expenses[i].id != id
    ensures forall i :: 0 <= i < |st.expenses| && st.expenses[i].id != id ==>
              st.expenses[i] in r.expenses
    ensures forall i :: 0 <= i < |r.expenses| ==> r.expenses[i] in st.expenses
    ensures forall e: RecurringExpense {:trigger multiset(r.expenses)[e]} :: e.id != id ==> multiset(r.expenses)[e] == multiset(st.expenses)[e]
    ensures IsSubsequence(r.expenses, st.expenses)
    ensures OnlyChanged(st, r, ExpensesSlice)
  {
    RemoveKeepsCounts(st.expenses, ExpenseKey, id);
    st.(expenses := RemoveWhere(st.expenses, ExpenseKey, id))
  }

  // Properties relating actions

  /** An update on an id that no member carries changes nothing. */
  lemma UpdateMemberAbsent(st: GroupStore, id: Id, data: MemberPatch)
    requires forall i :: 0 <= i < |st.members| ==> st.members[i].id != id
    ensures UpdateMember(st, id, data) == st
  {
  }

  /** An update on an id that no expense carries changes nothing. */
  lemma UpdateExpenseAbsent(st: GroupStore, id: Id, data: ExpensePatch)
    requires forall i :: 0 <= i < |st.expenses| ==> st.expenses[i].id != id
    ensures UpdateExpense(st, id, data) == st
  {
  }

  /** Applying the same member update twice is applying it once, even when the
      patch changes the id itself. */
  lemma UpdateMemberIdempotent(st: GroupStore, id: Id, data: MemberPatch)
    ensures UpdateMember(UpdateMember(st, id, data), id, data) == UpdateMember(st, id, data)
  {
  }

  /** Applying the same expense update twice is applying it once. */
  lemma UpdateExpenseIdempotent(st: GroupStore, id: Id, data: ExpensePatch)
    ensures UpdateExpense(UpdateExpense(st, id, data), id, data) == UpdateExpense(st, id, data)
  {
  }

  /** Removing the same member id twice is removing it once. */
  lemma RemoveMemberIdempotent(st: GroupStore, id: Id)
    ensures RemoveMember(RemoveMember(st, id), id) == RemoveMember(st, id)
  {
    RemoveIdempotent(st.members, MemberKey, id);
  }

  /** Removing the same expense id twice is removing it once. */
  lemma RemoveExpenseIdempotent(st: GroupStore, id: Id)
    ensures RemoveExpense(RemoveExpense(st, id), id) == RemoveExpense(st, id)
  {
    RemoveIdempotent(st.expenses, ExpenseKey, id);
  }

  /** Removing an id that no member carries changes nothing. */
  lemma RemoveMemberAbsent(st: GroupStore, id: Id)
    requires forall i :: 0 <= i < |st.members| ==> st.members[i].id != id
    ensures RemoveMember(st, id) == st
  {
    RemoveAbsentIsIdentity(st.members, MemberKey, id);
  }

  /** Removing an id that no expense carries changes nothing. */
  lemma RemoveExpenseAbsent(st: GroupStore, id: Id)
    requires forall i :: 0 <= i < |st.expenses| ==> st.expenses[i].id != id
    ensures RemoveExpense(st, id) == st
  {
    RemoveAbsentIsIdentity(st.expenses, ExpenseKey, id);
  }

  /** Two members with ids other than `id` keep their relative order when
      `id` is removed: each lands at the number of kept members before it. */
  lemma RemoveMemberKeepsOrder(st: GroupStore, id: Id, i: nat, j: nat)
    requires i < j < |st.members|
    requires st.members[i].id != id && st.members[j].id != id
    ensures exists a, b :: 0 <= a < b < |RemoveMember(st, id).members| &&
              RemoveMember(st, id).members[a] == st.members[i] &&
              RemoveMember(st, id).members[b] == st.members[j]
  {
    RemoveKeepsOrder(st.members, MemberKey, id, i, j);
    var a, b := KeptRank(st.members, MemberKey, id, i), KeptRank(st.members, MemberKey, id, j);
    assert RemoveMember(st, id).members[a] == st.members[i] && RemoveMember(st, id).members[b] == st.members[j];
  }

  /** Two expenses with ids other than `id` keep their relative order when
      `id` is removed: each lands at the number of kept expenses before it. */
  lemma RemoveExpenseKeepsOrder(st: GroupStore, id: Id, i: nat, j: nat)
    requires i < j < |st.expenses|
    requires st.expenses[i].id != id && st.expenses[j].id != id
    ensures exists a, b :: 0 <= a < b < |RemoveExpense(st, id).expenses| &&
              RemoveExpense(st, id).expenses[a] == st.expenses[i] &&
              RemoveExpense(st, id).expenses[b] == st.expenses[j]
  {
    RemoveKeepsOrder(st.expenses, ExpenseKey, id, i, j);
    var a, b := KeptRank(st.expenses, ExpenseKey, id, i), KeptRank(st.expenses, ExpenseKey, id, j);
    assert RemoveExpense(st, id).expenses[a] == st.expenses[i] && RemoveExpense(st, id).expenses[b] == st.expenses[j];
  }

  /** Removing the id of a member just added, when no earlier member carried
      it, restores the store. */
  lemma RemoveUndoesAddMember(st: GroupStore, member: GroupMember)
    requires forall i :: 0 <= i < |st.members| ==> st.members[i].id != member.id
    ensures RemoveMember(AddMember(st, member), member.id) == st
  {
    RemoveUndoesAppend(st.members, member, MemberKey);
  }

  /** Removing the id of an expense just added, when no earlier expense
      carried it, restores the store. */
  lemma RemoveUndoesAddExpense(st: GroupStore, expense: RecurringExpense)
    requires forall i :: 0 <= i < |st.expenses| ==> st.expenses[i].id != expense.id
    ensures RemoveExpense(AddExpense(st, expense), expense.id) == st
  {
    RemoveUndoesAppend(st.expenses, expense, ExpenseKey);
  }

  /** Once a member id has been removed, updating it changes nothing. */
  lemma UpdateAfterRemoveMember(st: GroupStore, id: Id, data: MemberPatch)
    ensures UpdateMember(RemoveMember(st, id), id, data) == RemoveMember(st, id)
  {
  }

  /** Once an expense id has been removed, updating it changes nothing. */
  lemma UpdateAfterRemoveExpense(st: GroupStore, id: Id, data: ExpensePatch)
    ensures UpdateExpense(RemoveExpense(st, id), id, data) == RemoveExpense(st, id)
  {
  }

  // The store as a whole: one action at a time

  datatype Action =
    | SetCurrentGroupAction(id: Option<Id>)
    | SetGroupsAction(groups: seq<Group>)
    | SetMembersAction(members: seq<GroupMember>)
    | SetCategoriesAction(categories: seq<ExpenseCategory>)
    | SetExpensesAction(expenses: seq<RecurringExpense>)
    | SetPaymentsAction(payments: seq<Payment>)
    | AddGroupAction(group: Group)
    | AddMemberAction(member: GroupMember)
    | UpdateMemberAction(memberId: Id, memberPatch: MemberPatch)
    | RemoveMemberAction(memberId: Id)
    | AddExpenseAction(expense: RecurringExpense)
    | UpdateExpenseAction(expenseId: Id, expensePatch: ExpensePatch)
    | RemoveExpenseAction(expenseId: Id)

  /** The one slice an action writes. */
  function Touches(a: Action): (r: Slice) {
    match a
    case SetCurrentGroupAction(_) => CurrentGroupSlice
    case SetGroupsAction(_) => GroupsSlice
    case AddGroupAction(_) => GroupsSlice
    case SetMembersAction(_) => MembersSlice
    case AddMemberAction(_) => MembersSlice
    case UpdateMemberAction(_, _) => MembersSlice
    case RemoveMemberAction(_) => MembersSlice
    case SetCategoriesAction(_) => CategoriesSlice
    case SetExpensesAction(_) => ExpensesSlice
    case AddExpenseAction(_) => ExpensesSlice
    case UpdateExpenseAction(_, _) => ExpensesSlice
    case RemoveExpenseAction(_) => ExpensesSlice
    case SetPaymentsAction(_) => PaymentsSlice
  }

  /** Dispatches an action to its reducer. */
  function Apply(st: GroupStore, a: Action): (r: GroupStore) {
    match a
    case SetCurrentGroupAction(id) => SetCurrentGroup(st, id)
    case SetGroupsAction(gs) => SetGroups(st, gs)
    case SetMembersAction(ms) => SetMembers(st, ms)
    case SetCategoriesAction(cs) => SetCategories(st, cs)
    case SetExpensesAction(es) => SetExpenses(st, es)
    case SetPaymentsAction(ps) => SetPayments(st, ps)
    case AddGroupAction(g) => AddGroup(st, g)
    case AddMemberAction(m) => AddMember(st, m)
    case UpdateMemberAction(id, data) => UpdateMember(st, id, data)
    case RemoveMemberAction(id) => RemoveMember(st, id)
    case AddExpenseAction(e) => AddExpense(st, e)
    case UpdateExpenseAction(id, data) => UpdateExpense(st, id, data)
    case RemoveExpenseAction(id) => RemoveExpense(st, id)
  }

  /** Every action changes only the one slice it names. */
  lemma ApplyOnlyChanges(st: GroupStore, a: Action)
    ensures OnlyChanged(st, Apply(st, a), Touches(a))
  {
  }

  /** Applies the actions in order. */
  function Run(st: GroupStore, actions: seq<Action>): (r: GroupStore)
    decreases |actions|
  {
    if |actions| == 0 then st else Run(Apply(st, actions[0]), actions[1..])
  }

  /** A run of actions that all write the same slice leaves every other slice
      as it was. */
  lemma {:induction false} RunOnlyChanges(st: GroupStore, actions: seq<Action>, s: Slice)
    requires forall i :: 0 <= i < |actions| ==> Touches(actions[i]) == s
    ensures OnlyChanged(st, Run(st, actions), s)
    decreases |actions|
  {
    if |actions| > 0 {
      ApplyOnlyChanges(st, actions[0]);
      RunOnlyChanges(Apply(st, actions[0]), actions[1..], s);
    }
  }
}
