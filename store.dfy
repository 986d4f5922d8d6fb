/** The application store: the three slices it registers, and the start-up
    code that copies a stored token pair into the auth slice. */
module AppStore {
  import opened Common
  import opened Storage
  import Auth
  import Accounts
  import Transactions

  /** `configureStore({ reducer: { auth, account, transaction } })`: the
      user, reports and auto-transaction slices are not registered. */
  class Store {
    const auth: Auth.AuthSlice
    const account: Accounts.AccountSlice
    const transaction: Transactions.TransactionSlice

    /** Each registered slice starts in its initial state; auth reads its
        tokens from `storage`. */
    constructor (storage: LocalStorage)
      ensures fresh(auth) && fresh(account) && fresh(transaction)
      ensures auth.storage == storage && !auth.isRefreshing
      ensures auth.accessToken == storage.GetItem(AccessKey) && auth.refreshToken == storage.GetItem(RefreshKey)
      ensures account.accounts == [] && account.currentAccountId == None && account.Quiet()
      ensures transaction.transactions == [] && !transaction.loading && transaction.error == None
    {
      auth := new Auth.AuthSlice(storage);
      account := new Accounts.AccountSlice();
      transaction := new Transactions.TransactionSlice();
    }
  }

  /** Whether start-up dispatches `restoreTokens`: both stored values truthy,
      that is, both present and neither of them the empty string. */
  function RestoresAtLoad(access: Option<string>, refresh: Option<string>): (restore: bool)
    ensures restore <==> access.Some? && refresh.Some? && access.value != "" && refresh.value != ""
  {
    Truthy(access) && Truthy(refresh)
  }

  /** The module body of the store file: build the store, then dispatch
      `restoreTokens` with the stored pair when both tokens are there. Either
      way the auth tokens end equal to storage, and storage is as it was. */
  method Load(storage: LocalStorage) returns (store: Store, dispatched: bool)
    modifies storage
    ensures dispatched <==> RestoresAtLoad(old(storage.GetItem(AccessKey)), old(storage.GetItem(RefreshKey)))
    ensures storage.items == old(storage.items)
    ensures store.auth.storage == storage && store.auth.InSync() && !store.auth.isRefreshing
    ensures store.auth.accessToken == storage.GetItem(AccessKey)
    ensures store.auth.refreshToken == storage.GetItem(RefreshKey)
    ensures fresh(store) && fresh(store.auth) && fresh(store.account) && fresh(store.transaction)
  {
    store := new Store(storage);
    var accessToken := storage.GetItem(AccessKey);
    var refreshToken := storage.GetItem(RefreshKey);
    dispatched := RestoresAtLoad(accessToken, refreshToken);
    if dispatched {
      WithStoredTokens(storage.items);
      store.auth.RestoreTokens(Auth.TokenPayload(accessToken, refreshToken));
    }
  }
}
