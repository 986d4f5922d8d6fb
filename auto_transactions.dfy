/** The auto-transaction slice: the account's recurring rules, the list of
    recurrence frequencies the server offers, a loading flag and an error
    message; and the query its filter thunk sends. */
module AutoTransactions {
  import opened Common
  import opened Text
  import opened Query
  import Collections

  /** A recurring rule, with the fields the auto-transaction page reads. */
  datatype AutoTransaction = AutoTransaction(
    id: string,
    name: string,
    amount: int,
    categoryId: Option<string>,
    txType: Option<Named>,
    frequency: Option<Named>,
    nextRunAt: string,
    isActive: Option<bool>)

  function RuleId(t: AutoTransaction): string {
    t.id
  }

  // ----- response shapes and payload creators -----

  type ListBody = PagedBody<AutoTransaction>
  type EditBody = RowsBody<AutoTransaction>
  type FrequencyBody = RowsBody<Named>

  const NetworkFailure := "Ошибка сети"
  const FilterFailure := "Ошибка при фильтрации транзакций"
  const DeleteFailure := "Ошибка удаления транзакций"
  const EditFailure := "Ошибка редактирования транзакции"

  /** `getAutoTransactions` */
  function GetAutoTransactions(response: Option<ListBody>): (r: Settled<seq<AutoTransaction>>)
    ensures r.Rejected? <==> response.None?
    ensures r.Rejected? ==> r.reason == Some(NetworkFailure)
    ensures r.Fulfilled? ==> r.payload == UnwrapItems(response.value)
  {
    if response.None? then Rejected(Some(NetworkFailure)) else Fulfilled(UnwrapItems(response.value))
  }

  /** `getRecurringFrequency`: `data.data?.[0] ?? []` */
  function GetRecurringFrequency(response: Option<FrequencyBody>): (r: Settled<seq<Named>>)
    ensures r.Rejected? <==> response.None?
    ensures r.Rejected? ==> r.reason == Some(NetworkFailure)
    ensures r.Fulfilled? && First(response.value.data).None? ==> r.payload == []
    ensures r.Fulfilled? && First(response.value.data).Some? ==> r.payload == response.value.data.value[0]
  {
    if response.None? then Rejected(Some(NetworkFailure))
    else Fulfilled(First(response.value.data).GetOr([]))
  }

  /** `filterAutoTransactions` (the query itself is `FilterQuery`). */
  function FilterAutoTransactions(response: Option<ListBody>): (r: Settled<seq<AutoTransaction>>)
    ensures r.Rejected? <==> response.None?
    ensures r.Rejected? ==> r.reason == Some(FilterFailure)
    ensures r.Fulfilled? ==> r.payload == UnwrapItems(response.value)
  {
    if response.None? then Rejected(Some(FilterFailure)) else Fulfilled(UnwrapItems(response.value))
  }

  /** `addAutoTransaction`: fulfils with `res.data.data` as it is. */
  function AddAutoTransaction(response: Option<AutoTransaction>): (r: Settled<AutoTransaction>)
    ensures r.Rejected? <==> response.None?
    ensures r.Rejected? ==> r.reason == Some(NetworkFailure)
    ensures r.Fulfilled? ==> r.payload == response.value
  {
    if response.None? then Rejected(Some(NetworkFailure)) else Fulfilled(response.value)
  }

  /** `editAutoTransaction`: fulfils with `res.data.data?.[0]?.[0]`, which may be undefined. */
  function EditAutoTransaction(response: Option<EditBody>): (r: Settled<Option<AutoTransaction>>)
    ensures r.Rejected? <==> response.None?
    ensures r.Rejected? ==> r.reason == Some(EditFailure)
    ensures r.Fulfilled? ==> r.payload == UnwrapFirst(response.value)
  {
    EditedEntry(response, EditFailure)
  }

  /** `deleteAutoTransactions`: fulfils with the ids it was asked to delete. */
  function DeleteAutoTransactions(ids: seq<string>, deleted: bool): (r: Settled<seq<string>>)
    ensures r.Fulfilled? <==> deleted
    ensures r.Fulfilled? ==> r.payload == ids
    ensures r.Rejected? ==> r.reason == Some(DeleteFailure)
  {
    if deleted then Fulfilled(ids) else Rejected(Some(DeleteFailure))
  }

  // ----- the filter query -----

  datatype Filters = Filters(name: Option<string>, amountFrom: Option<JsNumber>, amountTo: Option<JsNumber>)

  const FilterKeys := ["Name", "AmountFrom", "AmountTo"]

  lemma FilterKeyRanks()
    ensures Rank("Name", FilterKeys) == 0 && Rank("AmountFrom", FilterKeys) == 1
    ensures Rank("AmountTo", FilterKeys) == 2
  {
    assert "AmountFrom" != "Name";
    assert "AmountTo" != "Name" && "AmountTo" != "AmountFrom";
  }

  /** The rule filter query: Name, AmountFrom, AmountTo, in that order, each
      exactly when truthy; no other key is ever sent. */
  method FilterQuery(f: Filters) returns (query: seq<Param>)
    ensures Get(query, "Name") == TextParam(f.name)
    ensures Get(query, "AmountFrom") == AmountParam(f.amountFrom)
    ensures Get(query, "AmountTo") == AmountParam(f.amountTo)
    ensures KeysInOrder(query, FilterKeys)
  {
    FilterKeyRanks();
    var params := new SearchParams();
    AppendWhen(params, Truthy(f.name), "Name", f.name.GetOr(""), FilterKeys, 0);
    AppendWhen(params, AmountParam(f.amountFrom).Some?, "AmountFrom", AmountParam(f.amountFrom).GetOr(""), FilterKeys, 1);
    AppendWhen(params, AmountParam(f.amountTo).Some?, "AmountTo", AmountParam(f.amountTo).GetOr(""), FilterKeys, 2);
    query := params.pairs;
  }

  // ----- the slice -----

  class AutoTransactionSlice {
    var autoTransaction: seq<AutoTransaction>
    var recurringFrequency: seq<Named>
    var loading: bool
    var error: Option<string>

    /** `initialState` */
    constructor ()
      ensures autoTransaction == [] && recurringFrequency == [] && !loading && error == None
    {
      autoTransaction, recurringFrequency, loading, error := [], [], false, None;
    }

    /** `getAutoTransactions.pending` */
    method GetPending()
      modifies this
      ensures loading && error == None
      ensures autoTransaction == old(autoTransaction) && recurringFrequency == old(recurringFrequency)
    {
      loading := true;
      error := None;
    }

    /** `getAutoTransactions.fulfilled` */
    method GetFulfilled(payload: seq<AutoTransaction>)
      modifies this
      ensures !loading && autoTransaction == payload
      ensures error == old(error) && recurringFrequency == old(recurringFrequency)
    {
      loading := false;
      autoTransaction := payload;
    }

    /** `getAutoTransactions.rejected` */
    method GetRejected(reason: Option<string>)
      modifies this
      ensures !loading && error == Some(ErrorText(reason))
      ensures autoTransaction == old(autoTransaction) && recurringFrequency == old(recurringFrequency)
    {
      loading := false;
      error := Some(ErrorText(reason));
    }

    /** `getRecurringFrequency.fulfilled`: only the frequency list changes. */
    method FrequencyFulfilled(payload: seq<Named>)
      modifies this
      ensures recurringFrequency == payload
      ensures autoTransaction == old(autoTransaction) && loading == old(loading) && error == old(error)
    {
      recurringFrequency := payload;
    }

    /** `addAutoTransaction.fulfilled`: `unshift`, newest first. */
    method AddFulfilled(t: AutoTransaction)
      modifies this
      ensures autoTransaction == [t] + old(autoTransaction)
      ensures recurringFrequency == old(recurringFrequency) && loading == old(loading) && error == old(error)
    {
      autoTransaction := [t] + autoTransaction;
    }

    /** `editAutoTransaction.fulfilled` */
    method EditFulfilled(updated: Option<AutoTransaction>)
      modifies this
      ensures updated.None? ==> autoTransaction == old(autoTransaction)
      ensures updated.Some? ==>
                autoTransaction == Collections.ReplaceFirstByKey(old(autoTransaction), RuleId, updated.value)
      ensures recurringFrequency == old(recurringFrequency) && loading == old(loading) && error == old(error)
    {
      if updated.None? {
        return;
      }
      var idx := Collections.IndexOfKey(autoTransaction, RuleId, updated.value.id);
      if idx != -1 {
        autoTransaction := autoTransaction[idx := updated.value];
      }
    }

    /** `deleteAutoTransactions.fulfilled` */
    method DeleteFulfilled(ids: seq<string>)
      modifies this
      ensures autoTransaction == Collections.WithoutKeys(old(autoTransaction), RuleId, ids)
      ensures recurringFrequency == old(recurringFrequency) && loading == old(loading) && error == old(error)
    {
      autoTransaction := Collections.WithoutKeys(autoTransaction, RuleId, ids);
    }

    /** `filterAutoTransactions.fulfilled` */
    method FilterFulfilled(payload: seq<AutoTransaction>)
      modifies this
      ensures !loading && autoTransaction == payload
      ensures error == old(error) && recurringFrequency == old(recurringFrequency)
    {
      loading := false;
      autoTransaction := payload;
    }

    /** `dispatch(getAutoTransactions())`: pending, then fulfilled or rejected. */
    method RunGetAutoTransactions(response: Option<ListBody>)
      modifies this
      ensures !loading && recurringFrequency == old(recurringFrequency)
      ensures response.Some? ==> autoTransaction == UnwrapItems(response.value) && error == None
      ensures response.None? ==> autoTransaction == old(autoTransaction) && error == Some(NetworkFailure)
    {
      GetPending();
      var settled := GetAutoTransactions(response);
      match settled {
        case Fulfilled(items) => GetFulfilled(items);
        case Rejected(reason) => GetRejected(reason);
      }
    }

    /** `dispatch(getRecurringFrequency())`: only `fulfilled` has a case. */
    method RunGetRecurringFrequency(response: Option<FrequencyBody>)
      modifies this
      ensures response.None? ==> recurringFrequency == old(recurringFrequency)
      ensures response.Some? ==> recurringFrequency == First(response.value.data).GetOr([])
      ensures autoTransaction == old(autoTransaction) && loading == old(loading) && error == old(error)
    {
      var settled := GetRecurringFrequency(response);
      if settled.Fulfilled? {
        FrequencyFulfilled(settled.payload);
      }
    }

    /** `dispatch(filterAutoTransactions(...))`: only `fulfilled` has a case,
        so a failed filter leaves the slice exactly as it was. */
    method RunFilterAutoTransactions(response: Option<ListBody>)
      modifies this
      ensures response.Some? ==> autoTransaction == UnwrapItems(response.value) && !loading
      ensures response.None? ==> autoTransaction == old(autoTransaction) && loading == old(loading)
      ensures error == old(error) && recurringFrequency == old(recurringFrequency)
    {
      var settled := FilterAutoTransactions(response);
      if settled.Fulfilled? {
        FilterFulfilled(settled.payload);
      }
    }

    /** `dispatch(addAutoTransaction(dto))` */
    method RunAddAutoTransaction(response: Option<AutoTransaction>)
      modifies this
      ensures response.Some? ==> autoTransaction == [response.value] + old(autoTransaction)
      ensures response.None? ==> autoTransaction == old(autoTransaction)
      ensures recurringFrequency == old(recurringFrequency) && loading == old(loading) && error == old(error)
    {
      var settled := AddAutoTransaction(response);
      if settled.Fulfilled? {
        AddFulfilled(settled.payload);
      }
    }

    /** `dispatch(deleteAutoTransactions(ids))` */
    method RunDeleteAutoTransactions(ids: seq<string>, deleted: bool)
      modifies this
      ensures deleted ==> autoTransaction == Collections.WithoutKeys(old(autoTransaction), RuleId, ids)
      ensures !deleted ==> autoTransaction == old(autoTransaction)
      ensures recurringFrequency == old(recurringFrequency) && loading == old(loading) && error == old(error)
    {
      var settled := DeleteAutoTransactions(ids, deleted);
      if settled.Fulfilled? {
        DeleteFulfilled(settled.payload);
      }
    }

    /** `dispatch(editAutoTransaction(dto))` */
    method RunEditAutoTransaction(response: Option<EditBody>)
      modifies this
      ensures response.None? || UnwrapFirst(response.value).None? ==> autoTransaction == old(autoTransaction)
      ensures response.Some? && UnwrapFirst(response.value).Some? ==>
                autoTransaction == Collections.ReplaceFirstByKey(old(autoTransaction), RuleId, UnwrapFirst(response.value).value)
      ensures recurringFrequency == old(recurringFrequency) && loading == old(loading) && error == old(error)
    {
      var settled := EditAutoTransaction(response);
      if settled.Fulfilled? {
        EditFulfilled(settled.payload);
      }
    }
  }
}
