/** The transaction slice: the account's one-off transactions, a loading flag
    and an error message, updated by the settled actions of the transaction
    thunks; and the query strings those thunks send. */
module Transactions {
  import opened Common
  import opened Text
  import opened Query
  import Collections

  datatype Transaction = Transaction(
    id: string,
    name: string,
    amount: Option<int>,
    currency: Option<Named>,
    description: Option<string>,
    date: string,
    txType: Option<Named>)

  function TxId(t: Transaction): string {
    t.id
  }

  // ----- response shapes and payload creators -----

  type ListBody = PagedBody<Transaction>
  type EditBody = RowsBody<Transaction>

  const NetworkFailure := "Ошибка сети"
  const FilterFailure := "Ошибка при фильтрации транзакций"
  const DeleteFailure := "Ошибка удаления транзакций"
  const EditFailure := "Ошибка редактирования транзакции"

  /** `getTransactions`: a response that did not arrive (`None`) rejects with the
      network message; any response fulfils with its unwrapped items. */
  function GetTransactions(response: Option<ListBody>): (r: Settled<seq<Transaction>>)
    ensures r.Rejected? <==> response.None?
    ensures r.Rejected? ==> r.reason == Some(NetworkFailure)
    ensures r.Fulfilled? ==> r.payload == UnwrapItems(response.value)
  {
    if response.None? then Rejected(Some(NetworkFailure)) else Fulfilled(UnwrapItems(response.value))
  }

  /** `filterTransactions` (the query itself is `FilterQuery`). */
  function FilterTransactions(response: Option<ListBody>): (r: Settled<seq<Transaction>>)
    ensures r.Rejected? <==> response.None?
    ensures r.Rejected? ==> r.reason == Some(FilterFailure)
    ensures r.Fulfilled? ==> r.payload == UnwrapItems(response.value)
  {
    if response.None? then Rejected(Some(FilterFailure)) else Fulfilled(UnwrapItems(response.value))
  }

  /** `addTransaction`: fulfils with `res.data.data` as it is. */
  function AddTransaction(response: Option<Transaction>): (r: Settled<Transaction>)
    ensures r.Rejected? <==> response.None?
    ensures r.Rejected? ==> r.reason == Some(NetworkFailure)
    ensures r.Fulfilled? ==> r.payload == response.value
  {
    if response.None? then Rejected(Some(NetworkFailure)) else Fulfilled(response.value)
  }

  /** `editTransaction`: fulfils with `res.data.data?.[0]?.[0]`, which may be undefined. */
  function EditTransaction(response: Option<EditBody>): (r: Settled<Option<Transaction>>)
    ensures r.Rejected? <==> response.None?
    ensures r.Rejected? ==> r.reason == Some(EditFailure)
    ensures r.Fulfilled? ==> r.payload == UnwrapFirst(response.value)
  {
    EditedEntry(response, EditFailure)
  }

  /** `deleteTransactions`: fulfils with the very ids it was asked to delete. */
  function DeleteTransactions(ids: seq<string>, deleted: bool): (r: Settled<seq<string>>)
    ensures r.Fulfilled? <==> deleted
    ensures r.Fulfilled? ==> r.payload == ids
    ensures r.Rejected? ==> r.reason == Some(DeleteFailure)
  {
    if deleted then Fulfilled(ids) else Rejected(Some(DeleteFailure))
  }

  /** The download name's extension: spreadsheet for id 1, comma-separated otherwise. */
  function FileExtension(documentExtensionId: int): (ext: string)
    ensures ext == "xlsx" <==> documentExtensionId == 1
    ensures ext == "xlsx" || ext == "csv"
  {
    if documentExtensionId == 1 then "xlsx" else "csv"
  }

  // ----- query strings -----

  datatype Filters = Filters(
    name: Option<string>,
    amountFrom: Option<JsNumber>,
    amountTo: Option<JsNumber>,
    dateFrom: Option<string>,
    dateTo: Option<string>)

  const FilterKeys := ["Name", "AmountFrom", "AmountTo", "DateFrom", "DateTo"]

  /** The five filter keys are distinct. */
  lemma FilterKeysDistinct()
    ensures "AmountFrom" != "Name" && "AmountTo" != "Name" && "AmountTo" != "AmountFrom"
    ensures "DateFrom" != "Name" && "DateFrom" != "AmountFrom" && "DateFrom" != "AmountTo"
    ensures "DateTo" != "Name" && "DateTo" != "AmountFrom" && "DateTo" != "AmountTo" && "DateTo" != "DateFrom"
  {
    assert |"Name"| == 4 && |"DateTo"| == 6 && |"AmountTo"| == 8 && |"DateFrom"| == 8 && |"AmountFrom"| == 10;
    assert "AmountTo"[0] != "DateFrom"[0];
  }

  lemma FilterKeyRanks()
    ensures Rank("Name", FilterKeys) == 0 && Rank("AmountFrom", FilterKeys) == 1
    ensures Rank("AmountTo", FilterKeys) == 2 && Rank("DateFrom", FilterKeys) == 3
    ensures Rank("DateTo", FilterKeys) == 4
  {
    FilterKeysDistinct();
    var rest := FilterKeys[1..];
    assert rest == ["AmountFrom", "AmountTo", "DateFrom", "DateTo"];
    assert rest[1..] == ["AmountTo", "DateFrom", "DateTo"];
    assert rest[1..][1..] == ["DateFrom", "DateTo"];
    assert rest[1..][1..][1..] == ["DateTo"];
  }

  /** The filter query: each of the five keys, in their fixed order, exactly
      when its value is truthy (so an amount bound of 0 is not sent). */
  method FilterQuery(f: Filters) returns (query: seq<Param>)
    ensures Get(query, "Name") == TextParam(f.name)
    ensures Get(query, "AmountFrom") == AmountParam(f.amountFrom)
    ensures Get(query, "AmountTo") == AmountParam(f.amountTo)
    ensures Get(query, "DateFrom") == TextParam(f.dateFrom)
    ensures Get(query, "DateTo") == TextParam(f.dateTo)
    ensures KeysInOrder(query, FilterKeys)
  {
    FilterKeysDistinct();
    FilterKeyRanks();
    var params := new SearchParams();
    AppendWhen(params, Truthy(f.name), "Name", f.name.GetOr(""), FilterKeys, 0);
    AppendWhen(params, AmountParam(f.amountFrom).Some?, "AmountFrom", AmountParam(f.amountFrom).GetOr(""), FilterKeys, 1);
    AppendWhen(params, AmountParam(f.amountTo).Some?, "AmountTo", AmountParam(f.amountTo).GetOr(""), FilterKeys, 2);
    AppendWhen(params, Truthy(f.dateFrom), "DateFrom", f.dateFrom.GetOr(""), FilterKeys, 3);
    AppendWhen(params, Truthy(f.dateTo), "DateTo", f.dateTo.GetOr(""), FilterKeys, 4);
    query := params.pairs;
  }

  datatype ExportParams = ExportParams(dateFrom: Option<string>, dateTo: Option<string>, documentExtensionId: int)

  const ExportKeys := ["DateFrom", "DateTo", "DocumentExtensionId"]

  lemma ExportKeyRanks()
    ensures Rank("DateFrom", ExportKeys) == 0 && Rank("DateTo", ExportKeys) == 1
    ensures Rank("DocumentExtensionId", ExportKeys) == 2
  {
    assert "DateTo" != "DateFrom";
    assert "DocumentExtensionId" != "DateFrom" && "DocumentExtensionId" != "DateTo";
  }

  /** The export query: the date bounds when non-empty, then always the extension id. */
  method ExportQuery(p: ExportParams) returns (query: seq<Param>)
    ensures Get(query, "DateFrom") == TextParam(p.dateFrom)
    ensures Get(query, "DateTo") == TextParam(p.dateTo)
    ensures |query| > 0 && query[|query| - 1] == ("DocumentExtensionId", IntToString(p.documentExtensionId))
    ensures KeysInOrder(query, ExportKeys)
  {
    ExportKeyRanks();
    var params := new SearchParams();
    AppendWhen(params, Truthy(p.dateFrom), "DateFrom", p.dateFrom.GetOr(""), ExportKeys, 0);
    AppendWhen(params, Truthy(p.dateTo), "DateTo", p.dateTo.GetOr(""), ExportKeys, 1);
    AppendWhen(params, true, "DocumentExtensionId", IntToString(p.documentExtensionId), ExportKeys, 2);
    query := params.pairs;
  }

  /** An amount bound of 0 is falsy, so it never reaches the query. */
  lemma ZeroAmountOmitted(f: Filters)
    requires f.amountFrom == Some(Finite(0))
    ensures AmountParam(f.amountFrom) == None
  {
  }

  // ----- the slice -----

  class TransactionSlice {
    var transactions: seq<Transaction>
    var loading: bool
    var error: Option<string>

    /** `initialState` */
    constructor ()
      ensures transactions == [] && !loading && error == None
    {
      transactions, loading, error := [], false, None;
    }

    /** `getTransactions.pending` */
    method GetPending()
      modifies this
      ensures loading && error == None
      ensures transactions == old(transactions)
    {
      loading := true;
      error := None;
    }

    /** `getTransactions.fulfilled`: the list is replaced; the error is not touched. */
    method GetFulfilled(payload: seq<Transaction>)
      modifies this
      ensures !loading && transactions == payload
      ensures error == old(error)
    {
      loading := false;
      transactions := payload;
    }

    /** `getTransactions.rejected` */
    method GetRejected(reason: Option<string>)
      modifies this
      ensures !loading && error == Some(ErrorText(reason))
      ensures transactions == old(transactions)
    {
      loading := false;
      error := Some(ErrorText(reason));
    }

    /** `addTransaction.fulfilled`: `unshift`, newest first. */
    method AddFulfilled(t: Transaction)
      modifies this
      ensures transactions == [t] + old(transactions)
      ensures loading == old(loading) && error == old(error)
    {
      transactions := [t] + transactions;
    }

    /** `deleteTransactions.fulfilled` */
    method DeleteFulfilled(ids: seq<string>)
      modifies this
      ensures transactions == Collections.WithoutKeys(old(transactions), TxId, ids)
      ensures loading == old(loading) && error == old(error)
    {
      transactions := Collections.WithoutKeys(transactions, TxId, ids);
    }

    /** `filterTransactions.fulfilled` */
    method FilterFulfilled(payload: seq<Transaction>)
      modifies this
      ensures !loading && transactions == payload
      ensures error == old(error)
    {
      loading := false;
      transactions := payload;
    }

    /** `editTransaction.fulfilled`: a missing row changes nothing; otherwise the
        first transaction with the row's id is overwritten in place. */
    method EditFulfilled(updated: Option<Transaction>)
      modifies this
      ensures updated.None? ==> transactions == old(transactions)
      ensures updated.Some? ==>
                transactions == Collections.ReplaceFirstByKey(old(transactions), TxId, updated.value)
      ensures loading == old(loading) && error == old(error)
    {
      if updated.None? {
        return;
      }
      var idx := Collections.IndexOfKey(transactions, TxId, updated.value.id);
      if idx != -1 {
        transactions := transactions[idx := updated.value];
      }
    }

    // ----- whole thunk lifecycles: pending, then the settled action -----

    /** `dispatch(getTransactions())`: afterwards the slice is idle and the error
        is cleared exactly when the list arrived. */
    method RunGetTransactions(response: Option<ListBody>)
      modifies this
      ensures !loading
      ensures response.Some? ==> transactions == UnwrapItems(response.value) && error == None
      ensures response.None? ==> transactions == old(transactions) && error == Some(NetworkFailure)
    {
      GetPending();
      var settled := GetTransactions(response);
      match settled {
        case Fulfilled(items) => GetFulfilled(items);
        case Rejected(reason) => GetRejected(reason);
      }
    }

    /** `dispatch(filterTransactions(...))`: only `fulfilled` has a case, so a
        failed filter leaves the slice exactly as it was. */
    method RunFilterTransactions(response: Option<ListBody>)
      modifies this
      ensures response.Some? ==> transactions == UnwrapItems(response.value) && !loading && error == old(error)
      ensures response.None? ==> transactions == old(transactions) && loading == old(loading) && error == old(error)
    {
      var settled := FilterTransactions(response);
      if settled.Fulfilled? {
        FilterFulfilled(settled.payload);
      }
    }

    /** `dispatch(addTransaction(dto))` */
    method RunAddTransaction(response: Option<Transaction>)
      modifies this
      ensures response.Some? ==> transactions == [response.value] + old(transactions)
      ensures response.None? ==> transactions == old(transactions)
      ensures loading == old(loading) && error == old(error)
    {
      var settled := AddTransaction(response);
      if settled.Fulfilled? {
        AddFulfilled(settled.payload);
      }
    }

    /** `dispatch(deleteTransactions(ids))` */
    method RunDeleteTransactions(ids: seq<string>, deleted: bool)
      modifies this
      ensures deleted ==> transactions == Collections.WithoutKeys(old(transactions), TxId, ids)
      ensures !deleted ==> transactions == old(transactions)
      ensures loading == old(loading) && error == old(error)
    {
      var settled := DeleteTransactions(ids, deleted);
      if settled.Fulfilled? {
        DeleteFulfilled(settled.payload);
      }
    }

    /** `dispatch(editTransaction(dto))` */
    method RunEditTransaction(response: Option<EditBody>)
      modifies this
      ensures response.None? || UnwrapFirst(response.value).None? ==> transactions == old(transactions)
      ensures response.Some? && UnwrapFirst(response.value).Some? ==>
                transactions == Collections.ReplaceFirstByKey(old(transactions), TxId, UnwrapFirst(response.value).value)
      ensures loading == old(loading) && error == old(error)
    {
      var settled := EditTransaction(response);
      if settled.Fulfilled? {
        EditFulfilled(settled.payload);
      }
    }
  }
}
