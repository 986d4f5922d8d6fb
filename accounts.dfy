/** The account slice: the user's accounts, the id of the selected one, and a
    loading flag and error message that no handled action ever changes; and the
    account thunks, three of which refuse to run without an access token. */
module Accounts {
  import opened Common
  import Collections

  datatype Account = Account(
    id: string,
    name: string,
    balance: int,
    currency: Named,
    isDefault: bool,
    userId: string)

  function AccountId(a: Account): string {
    a.id
  }

  // ----- response shapes and payload creators -----

  /** `{ data: [[account, ...]] }`; an entry may be null. */
  datatype ListBody = ListBody(data: Option<seq<seq<Option<Account>>>>)
  /** `{ data: [[account]] }` */
  type OneBody = RowsBody<Account>
  type CurrencyBody = RowsBody<Named>

  const NoToken := "Нет токена"
  const LoadFailure := "Ошибка загрузки счетов"
  const CreateFailure := "Ошибка создания счёта"
  const EditFailure := "Ошибка обновления счёта"
  const DeleteFailure := "Ошибка удаления"
  const CurrencyFailure := "Ошибка загрузки валют"

  /** `accounts.filter(a => !!a && !!a.id)`: drops null entries and entries with
      an empty id, keeping the rest in order. */
  function KeepIdentified(raw: seq<Option<Account>>): (r: seq<Account>)
    ensures |r| <= |raw|
    ensures forall j :: 0 <= j < |r| ==> r[j].id != "" && Some(r[j]) in raw
    ensures forall j :: 0 <= j < |raw| && raw[j].Some? && raw[j].value.id != "" ==> raw[j].value in r
  {
    if raw == [] then []
    else
      assert raw == [raw[0]] + raw[1..];
      (if raw[0].Some? && raw[0].value.id != "" then [raw[0].value] else []) + KeepIdentified(raw[1..])
  }

  /** The filter splits over concatenation, so the survivors keep their order. */
  lemma {:induction false} KeepIdentifiedAppend(a: seq<Option<Account>>, b: seq<Option<Account>>)
    ensures KeepIdentified(a + b) == KeepIdentified(a) + KeepIdentified(b)
  {
    if a == [] {
      assert a + b == b;
    } else {
      assert (a + b)[0] == a[0] && (a + b)[1..] == a[1..] + b;
      KeepIdentifiedAppend(a[1..], b);
    }
  }

  /** A list of identified accounts passes the filter unchanged. */
  lemma {:induction false} KeepIdentifiedNoop(accounts: seq<Account>)
    requires forall j :: 0 <= j < |accounts| ==> accounts[j].id != ""
    ensures KeepIdentified(seq(|accounts|, j requires 0 <= j < |accounts| => Some(accounts[j]))) == accounts
  {
    if accounts != [] {
      var raw := seq(|accounts|, j requires 0 <= j < |accounts| => Some(accounts[j]));
      var tail := seq(|accounts| - 1, j requires 0 <= j < |accounts| - 1 => Some(accounts[1..][j]));
      assert raw[1..] == tail;
      KeepIdentifiedNoop(accounts[1..]);
      assert accounts == [accounts[0]] + accounts[1..];
    }
  }

  /** `fetchAccounts`: no request without a token; otherwise `data[0] || []`,
      filtered. */
  function FetchAccounts(accessToken: Option<string>, response: Option<ListBody>): (r: Settled<seq<Account>>)
    ensures !Truthy(accessToken) ==> r == Rejected(Some(NoToken))
    ensures Truthy(accessToken) ==> (r.Rejected? <==> response.None?)
    ensures Truthy(accessToken) && response.None? ==> r == Rejected(Some(LoadFailure))
    ensures r.Fulfilled? ==> r.payload == KeepIdentified(First(response.value.data).GetOr([]))
    ensures r.Fulfilled? ==> forall j :: 0 <= j < |r.payload| ==> r.payload[j].id != ""
  {
    if !Truthy(accessToken) then Rejected(Some(NoToken))
    else if response.None? then Rejected(Some(LoadFailure))
    else Fulfilled(KeepIdentified(First(response.value.data).GetOr([])))
  }

  /** `createAccount`: no request without a token; fulfils with
      `data?.[0]?.[0]`, which may be undefined. */
  function CreateAccount(accessToken: Option<string>, response: Option<OneBody>): (r: Settled<Option<Account>>)
    ensures !Truthy(accessToken) ==> r == Rejected(Some(NoToken))
    ensures Truthy(accessToken) ==> (r.Rejected? <==> response.None?)
    ensures Truthy(accessToken) && response.None? ==> r == Rejected(Some(CreateFailure))
    ensures r.Fulfilled? ==> r.payload == UnwrapFirst(response.value)
  {
    if !Truthy(accessToken) then Rejected(Some(NoToken))
    else if response.None? then Rejected(Some(CreateFailure))
    else Fulfilled(UnwrapFirst(response.value))
  }

  /** `editAccount`: no token check; fulfils with `data?.[0]?.[0]`. */
  function EditAccount(response: Option<OneBody>): (r: Settled<Option<Account>>)
    ensures r.Rejected? <==> response.None?
    ensures r.Rejected? ==> r.reason == Some(EditFailure)
    ensures r.Fulfilled? ==> r.payload == UnwrapFirst(response.value)
  {
    EditedEntry(response, EditFailure)
  }

  /** `deleteAccount`: no request without a token; fulfils with the id. */
  function DeleteAccount(accessToken: Option<string>, id: string, deleted: bool): (r: Settled<string>)
    ensures !Truthy(accessToken) ==> r == Rejected(Some(NoToken))
    ensures r.Fulfilled? <==> Truthy(accessToken) && deleted
    ensures r.Fulfilled? ==> r.payload == id
    ensures Truthy(accessToken) && !deleted ==> r == Rejected(Some(DeleteFailure))
  {
    if !Truthy(accessToken) then Rejected(Some(NoToken))
    else if deleted then Fulfilled(id)
    else Rejected(Some(DeleteFailure))
  }

  /** `getCurrency`: `data?.[0] || []`; no reducer handles it, the home page
      reads the payload itself. */
  function GetCurrency(response: Option<CurrencyBody>): (r: Settled<seq<Named>>)
    ensures r.Rejected? <==> response.None?
    ensures r.Rejected? ==> r.reason == Some(CurrencyFailure)
    ensures r.Fulfilled? && First(response.value.data).None? ==> r.payload == []
    ensures r.Fulfilled? && First(response.value.data).Some? ==> r.payload == response.value.data.value[0]
  {
    if response.None? then Rejected(Some(CurrencyFailure))
    else Fulfilled(First(response.value.data).GetOr([]))
  }

  // ----- the slice -----

  class AccountSlice {
    var accounts: seq<Account>
    var currentAccountId: Option<string>
    var loading: bool
    var error: Option<string>

    /** The initial state, which no handled action leaves as far as
        `loading` and `error` are concerned. */
    ghost predicate Quiet()
      reads this
    {
      !loading && error == None
    }

    /** `initialState` */
    constructor ()
      ensures accounts == [] && currentAccountId == None && Quiet()
    {
      accounts, currentAccountId, loading, error := [], None, false, None;
    }

    /** `clearAccount`: back to the initial state. */
    method Clear()
      modifies this
      ensures accounts == [] && currentAccountId == None && Quiet()
    {
      accounts, currentAccountId, loading, error := [], None, false, None;
    }

    /** `setCurrentAccount`: any id is accepted, even one no account has. */
    method SetCurrentAccount(id: string)
      modifies this
      ensures currentAccountId == Some(id)
      ensures accounts == old(accounts) && loading == old(loading) && error == old(error)
    {
      currentAccountId := Some(id);
    }

    /** `fetchAccounts.fulfilled`: replace the list; select its first account
        only when nothing is selected. */
    method FetchFulfilled(payload: seq<Account>)
      modifies this
      ensures accounts == payload
      ensures !Truthy(old(currentAccountId)) && |payload| > 0 ==> currentAccountId == Some(payload[0].id)
      ensures Truthy(old(currentAccountId)) || |payload| == 0 ==> currentAccountId == old(currentAccountId)
      ensures loading == old(loading) && error == old(error)
    {
      accounts := payload;
      if !Truthy(currentAccountId) && |payload| > 0 {
        currentAccountId := Some(payload[0].id);
      }
    }

    /** `createAccount.fulfilled`: `push`, at the end; the new account is not selected. */
    method CreateFulfilled(a: Account)
      modifies this
      ensures accounts == old(accounts) + [a]
      ensures currentAccountId == old(currentAccountId) && loading == old(loading) && error == old(error)
    {
      accounts := accounts + [a];
    }

    /** `editAccount.fulfilled`: nothing for a missing payload or an empty id. */
    method EditFulfilled(updated: Option<Account>)
      modifies this
      ensures updated.None? || updated.value.id == "" ==> accounts == old(accounts)
      ensures updated.Some? && updated.value.id != "" ==>
                accounts == Collections.ReplaceFirstByKey(old(accounts), AccountId, updated.value)
      ensures currentAccountId == old(currentAccountId) && loading == old(loading) && error == old(error)
    {
      if updated.None? || updated.value.id == "" {
        return;
      }
      var idx := Collections.IndexOfKey(accounts, AccountId, updated.value.id);
      if idx != -1 {
        accounts := accounts[idx := updated.value];
      }
    }

    /** `deleteAccount.fulfilled`: every account with the id goes; the
        selection stays, even when it named the deleted account. */
    method DeleteFulfilled(id: string)
      modifies this
      ensures accounts == Collections.WithoutKeys(old(accounts), AccountId, [id])
      ensures forall j :: 0 <= j < |accounts| ==> accounts[j].id != id
      ensures currentAccountId == old(currentAccountId) && loading == old(loading) && error == old(error)
    {
      accounts := Collections.WithoutKeys(accounts, AccountId, [id]);
    }

    /** `dispatch(fetchAccounts())`; pending and rejected have no case. */
    method RunFetchAccounts(accessToken: Option<string>, response: Option<ListBody>)
      modifies this
      ensures !Truthy(accessToken) || response.None? ==>
                accounts == old(accounts) && currentAccountId == old(currentAccountId)
      ensures Truthy(accessToken) && response.Some? ==>
                var fetched := KeepIdentified(First(response.value.data).GetOr([]));
                && accounts == fetched
                && (!Truthy(old(currentAccountId)) && |fetched| > 0 ==> currentAccountId == Some(fetched[0].id))
                && (Truthy(old(currentAccountId)) || |fetched| == 0 ==> currentAccountId == old(currentAccountId))
      ensures loading == old(loading) && error == old(error)
    {
      var settled := FetchAccounts(accessToken, response);
      if settled.Fulfilled? {
        FetchFulfilled(settled.payload);
      }
    }

    /** `dispatch(createAccount(dto))`; see README for a reply without an account. */
    method RunCreateAccount(accessToken: Option<string>, response: Option<OneBody>)
      modifies this
      ensures Truthy(accessToken) && response.Some? && UnwrapFirst(response.value).Some? ==>
                accounts == old(accounts) + [UnwrapFirst(response.value).value]
      ensures !Truthy(accessToken) || response.None? || UnwrapFirst(response.value).None? ==>
                accounts == old(accounts)
      ensures currentAccountId == old(currentAccountId) && loading == old(loading) && error == old(error)
    {
      var settled := CreateAccount(accessToken, response);
      if settled.Fulfilled? && settled.payload.Some? {
        CreateFulfilled(settled.payload.value);
      }
    }

    /** `dispatch(editAccount(dto))` */
    method RunEditAccount(response: Option<OneBody>)
      modifies this
      ensures response.None? || UnwrapFirst(response.value).None? || UnwrapFirst(response.value).value.id == "" ==>
                accounts == old(accounts)
      ensures response.Some? && UnwrapFirst(response.value).Some? && UnwrapFirst(response.value).value.id != "" ==>
                accounts == Collections.ReplaceFirstByKey(old(accounts), AccountId, UnwrapFirst(response.value).value)
      ensures currentAccountId == old(currentAccountId) && loading == old(loading) && error == old(error)
    {
      var settled := EditAccount(response);
      if settled.Fulfilled? {
        EditFulfilled(settled.payload);
      }
    }

    /** `dispatch(deleteAccount(id))` */
    method RunDeleteAccount(accessToken: Option<string>, id: string, deleted: bool)
      modifies this
      ensures Truthy(accessToken) && deleted ==> accounts == Collections.WithoutKeys(old(accounts), AccountId, [id])
      ensures !Truthy(accessToken) || !deleted ==> accounts == old(accounts)
      ensures currentAccountId == old(currentAccountId) && loading == old(loading) && error == old(error)
    {
      var settled := DeleteAccount(accessToken, id, deleted);
      if settled.Fulfilled? {
        DeleteFulfilled(settled.payload);
      }
    }
  }
}
