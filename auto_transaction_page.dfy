/** The helpers of the recurring-rules page: the add handler and its form
    reset, the defaults filled in when the edit form opens, and the filter
    form mapping. */
module AutoTransactionPage {
  import opened Common
  import opened Text
  import opened Query
  import opened Forms
  import opened AutoTransactions
  import TransactionPage
  import Transactions

  /** The add form: `CreateTransactionDto` of the recurring-rule slice. */
  datatype RuleForm = RuleForm(name: string, amount: int, categoryId: Option<string>,
                               transactionTypeId: int, recurringFrequencyId: int, startDate: string)

  const DefaultTypeId := 2
  const DefaultFrequencyId := 0

  /** The form as the page first shows it, and as it is reset after an add;
      `now` stands for `new Date().toISOString()`. */
  function BlankForm(now: string): (form: RuleForm)
    ensures form.name == "" && form.amount == 0 && form.categoryId == None
    ensures form.transactionTypeId == DefaultTypeId && form.recurringFrequencyId == DefaultFrequencyId
    ensures form.startDate == now
  {
    RuleForm("", 0, None, DefaultTypeId, DefaultFrequencyId, now)
  }

  /** `handleAdd`: the form is sent with `categoryId: null`; after success
      every field is reset, the start date to the current time. */
  function HandleAdd(form: RuleForm, now: string): (r: Step<RuleForm, RuleForm>)
    ensures r.Ignored? <==> IsBlank(form.name) || form.amount <= 0
    ensures r.Submitted? ==> r.dto == form.(categoryId := None) && r.after == BlankForm(now)
  {
    if !AddAllowed(form.name, form.amount) then Ignored
    else Submitted(form.(categoryId := None), BlankForm(now))
  }

  /** The reset form is refused by the guard until it is filled in again. */
  lemma BlankFormIgnored(now: string, later: string)
    ensures HandleAdd(BlankForm(now), later).Ignored?
  {
  }

  /** The edit form: `EditTransaction`. */
  datatype EditRule = EditRule(id: string, name: string, amount: int, categoryId: Option<string>,
                               transactionTypeId: int, recurringFrequencyId: int, nextRunAt: string,
                               isActive: bool)

  /** `openEditModal(tx)`: `??` defaults, so only a missing field is filled in. */
  function OpenEditModal(tx: AutoTransaction): (e: EditRule)
    ensures e.id == tx.id && e.name == tx.name && e.amount == tx.amount && e.nextRunAt == tx.nextRunAt
    ensures e.categoryId == tx.categoryId
    ensures e.transactionTypeId == (if tx.txType.Some? then tx.txType.value.id else DefaultTypeId)
    ensures e.recurringFrequencyId == (if tx.frequency.Some? then tx.frequency.value.id else DefaultFrequencyId)
    ensures e.isActive == (if tx.isActive.Some? then tx.isActive.value else true)
  {
    EditRule(tx.id, tx.name, tx.amount, tx.categoryId,
             if tx.txType.Some? then tx.txType.value.id else DefaultTypeId,
             if tx.frequency.Some? then tx.frequency.value.id else DefaultFrequencyId,
             tx.nextRunAt,
             tx.isActive.GetOr(true))
  }

  /** A type id of 0 survives here, where `??` is used, but becomes 2 on the
      transactions page, where `||` is. */
  lemma ZeroTypeIdKeptOnlyHere(rule: AutoTransaction, tx: Transactions.Transaction, name: string)
    requires rule.txType == Some(Named(0, name)) && tx.txType == Some(Named(0, name))
    ensures OpenEditModal(rule).transactionTypeId == 0
    ensures TransactionPage.OpenEditModal(tx).transactionTypeId == 2
  {
  }

  /** The filter form: every field is the text the user typed. */
  datatype FilterForm = FilterForm(name: string, amountFrom: string, amountTo: string)

  /** `handleFilter`'s mapping from the form to the thunk's filters: an empty
      field is undefined, a filled name is kept as typed and a filled amount is
      read with `Number`. `fromOtherwise` and `toOtherwise` are what `Number`
      gives for amount text that is not a whole number. */
  function FiltersOf(form: FilterForm, fromOtherwise: JsNumber, toOtherwise: JsNumber): (f: Filters)
    ensures f.name.None? <==> form.name == ""
    ensures f.name.Some? ==> f.name.value == form.name
    ensures f.amountFrom.None? <==> form.amountFrom == ""
    ensures f.amountFrom.Some? ==> f.amountFrom.value == NumberOf(form.amountFrom, fromOtherwise)
    ensures f.amountTo.None? <==> form.amountTo == ""
    ensures f.amountTo.Some? ==> f.amountTo.value == NumberOf(form.amountTo, toOtherwise)
  {
    Filters(TextOrUndefined(form.name), NumberOrUndefined(form.amountFrom, fromOtherwise),
            NumberOrUndefined(form.amountTo, toOtherwise))
  }

  /** `handleFilter` followed by the query the thunk builds: an empty field
      never reaches the query. */
  method SubmitFilter(form: FilterForm, fromOtherwise: JsNumber, toOtherwise: JsNumber) returns (query: seq<Param>)
    ensures Get(query, "Name") == TextOrUndefined(form.name)
    ensures form.amountFrom == "" ==> Get(query, "AmountFrom") == None
    ensures form.amountTo == "" ==> Get(query, "AmountTo") == None
    ensures Get(query, "AmountFrom") == AmountParam(NumberOrUndefined(form.amountFrom, fromOtherwise))
    ensures Get(query, "AmountTo") == AmountParam(NumberOrUndefined(form.amountTo, toOtherwise))
    ensures KeysInOrder(query, FilterKeys)
  {
    query := FilterQuery(FiltersOf(form, fromOtherwise, toOtherwise));
  }
}
