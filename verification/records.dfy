/** The entities the client-side group store holds, and the shallow merge
    `{ ...record, ...patch }` that its updaters apply to them. */
module Records {
  import opened Wrappers

  type Id = string

  /** A JavaScript `Date`; the store only carries it and never computes on it. */
  type Timestamp = int

  datatype Group = Group(
    id: Id,
    name: string,
    ownerId: Id,
    createdAt: Timestamp,
    updatedAt: Timestamp)

  /** `quotaPercent` is a floating-point number in the program; the store
      never does arithmetic on it, so `real` only stands in for it. */
  datatype GroupMember = GroupMember(
    id: Id,
    groupId: Id,
    userId: Option<Id>,
    name: string,
    quotaPercent: real)

  datatype ExpenseCategory = ExpenseCategory(
    id: Id,
    groupId: Id,
    name: string,
    icon: string,
    color: string)

  datatype FrequencyType = Weekly | Monthly | Yearly | Days | Months

  /** `categoryId` and `dayOfMonth` are nullable; `category` and
      `monthlyAmount` are optional keys. Both kinds are `Option` here. */
  datatype RecurringExpense = RecurringExpense(
    id: Id,
    groupId: Id,
    categoryId: Option<Id>,
    name: string,
    amount: real,
    frequencyType: FrequencyType,
    frequencyValue: int,
    dayOfMonth: Option<int>,
    isActive: bool,
    category: Option<ExpenseCategory>,
    monthlyAmount: Option<real>)

  datatype Payment = Payment(
    id: Id,
    groupId: Id,
    memberId: Id,
    expenseId: Option<Id>,
    month: int,
    year: int,
    amountPaid: real,
    isConfirmed: bool,
    confirmedAt: Option<Timestamp>)

  /** `Partial<GroupMember>`: `None` means the key is absent from the patch.
      A nullable field takes `Some(None)` to set it to `null`. */
  datatype MemberPatch = MemberPatch(
    id: Option<Id>,
    groupId: Option<Id>,
    userId: Option<Option<Id>>,
    name: Option<string>,
    quotaPercent: Option<real>)

  /** `Partial<RecurringExpense>`, keyed like `MemberPatch`. */
  datatype ExpensePatch = ExpensePatch(
    id: Option<Id>,
    groupId: Option<Id>,
    categoryId: Option<Option<Id>>,
    name: Option<string>,
    amount: Option<real>,
    frequencyType: Option<FrequencyType>,
    frequencyValue: Option<int>,
    dayOfMonth: Option<Option<int>>,
    isActive: Option<bool>,
    category: Option<Option<ExpenseCategory>>,
    monthlyAmount: Option<Option<real>>)

  const EmptyMemberPatch := MemberPatch(None, None, None, None, None)

  const EmptyExpensePatch :=
    ExpensePatch(None, None, None, None, None, None, None, None, None, None, None)

  function MemberKey(m: GroupMember): (r: Id) { m.id }

  function ExpenseKey(e: RecurringExpense): (r: Id) { e.id }

  /** `{ ...m, ...data }`: every key present in `data` wins, every absent key
      keeps the value `m` had. */
  function MergeMember(m: GroupMember, data: MemberPatch): (r: GroupMember)
    ensures data.id.Some? ==> r.id == data.id.value
    ensures data.id.None? ==> r.id == m.id
    ensures data.groupId.Some? ==> r.groupId == data.groupId.value
    ensures data.groupId.None? ==> r.groupId == m.groupId
    ensures data.userId.Some? ==> r.userId == data.userId.value
    ensures data.userId.None? ==> r.userId == m.userId
    ensures data.name.Some? ==> r.name == data.name.value
    ensures data.name.None? ==> r.name == m.name
    ensures data.quotaPercent.Some? ==> r.quotaPercent == data.quotaPercent.value
    ensures data.quotaPercent.None? ==> r.quotaPercent == m.quotaPercent
  {
    GroupMember(
      data.id.ValueOr(m.id),
      data.groupId.ValueOr(m.groupId),
      data.userId.ValueOr(m.userId),
      data.name.ValueOr(m.name),
      data.quotaPercent.ValueOr(m.quotaPercent))
  }

  /** `{ ...e, ...data }` on a recurring expense. */
  function MergeExpense(e: RecurringExpense, data: ExpensePatch): (r: RecurringExpense)
    ensures data.id.Some? ==> r.id == data.id.value
    ensures data.id.None? ==> r.id == e.id
    ensures data.groupId.Some? ==> r.groupId == data.groupId.value
    ensures data.groupId.None? ==> r.groupId == e.groupId
    ensures data.categoryId.Some? ==> r.categoryId == data.categoryId.value
    ensures data.categoryId.None? ==> r.categoryId == e.categoryId
    ensures data.name.Some? ==> r.name == data.name.value
    ensures data.name.None? ==> r.name == e.name
    ensures data.amount.Some? ==> r.amount == data.amount.value
    ensures data.amount.None? ==> r.amount == e.amount
    ensures data.frequencyType.Some? ==> r.frequencyType == data.frequencyType.value
    ensures data.frequencyType.None? ==> r.frequencyType == e.frequencyType
    ensures data.frequencyValue.Some? ==> r.frequencyValue == data.frequencyValue.value
    ensures data.frequencyValue.None? ==> r.frequencyValue == e.frequencyValue
    ensures data.dayOfMonth.Some? ==> r.dayOfMonth == data.dayOfMonth.value
    ensures data.dayOfMonth.None? ==> r.dayOfMonth == e.dayOfMonth
    ensures data.isActive.Some? ==> r.isActive == data.isActive.value
    ensures data.isActive.None? ==> r.isActive == e.isActive
    ensures data.category.Some? ==> r.category == data.category.value
    ensures data.category.None? ==> r.category == e.category
    ensures data.monthlyAmount.Some? ==> r.monthlyAmount == data.monthlyAmount.value
    ensures data.monthlyAmount.None? ==> r.monthlyAmount == e.monthlyAmount
  {
    RecurringExpense(
      data.id.ValueOr(e.id),
      data.groupId.ValueOr(e.groupId),
      data.categoryId.ValueOr(e.categoryId),
      data.name.ValueOr(e.name),
      data.amount.ValueOr(e.amount),
      data.frequencyType.ValueOr(e.frequencyType),
      data.frequencyValue.ValueOr(e.frequencyValue),
      data.dayOfMonth.ValueOr(e.dayOfMonth),
      data.isActive.ValueOr(e.isActive),
      data.category.ValueOr(e.category),
      data.monthlyAmount.ValueOr(e.monthlyAmount))
  }

  /** The patch that carries every key of `m`. */
  function FullMemberPatch(m: GroupMember): (r: MemberPatch) {
    MemberPatch(Some(m.id), Some(m.groupId), Some(m.userId), Some(m.name), Some(m.quotaPercent))
  }

  /** The patch that carries every key of `e`. */
  function FullExpensePatch(e: RecurringExpense): (r: ExpensePatch) {
    ExpensePatch(Some(e.id), Some(e.groupId), Some(e.categoryId), Some(e.name), Some(e.amount),
                 Some(e.frequencyType), Some(e.frequencyValue), Some(e.dayOfMonth),
                 Some(e.isActive), Some(e.category), Some(e.monthlyAmount))
  }

  /** Spreading an empty object changes nothing. */
  lemma MergeMemberEmpty(m: GroupMember)
    ensures MergeMember(m, EmptyMemberPatch) == m
  {
  }

  lemma MergeExpenseEmpty(e: RecurringExpense)
    ensures MergeExpense(e, EmptyExpensePatch) == e
  {
  }

  /** A patch carrying every declared key replaces every declared key of the record. */
  lemma MergeMemberFull(m: GroupMember, n: GroupMember)
    ensures MergeMember(m, FullMemberPatch(n)) == n
  {
  }

  lemma MergeExpenseFull(e: RecurringExpense, n: RecurringExpense)
    ensures MergeExpense(e, FullExpensePatch(n)) == n
  {
  }

  /** Spreading the same patch twice is spreading it once. */
  lemma MergeMemberIdempotent(m: GroupMember, data: MemberPatch)
    ensures MergeMember(MergeMember(m, data), data) == MergeMember(m, data)
  {
  }

  lemma MergeExpenseIdempotent(e: RecurringExpense, data: ExpensePatch)
    ensures MergeExpense(MergeExpense(e, data), data) == MergeExpense(e, data)
  {
  }
}
