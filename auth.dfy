/** The auth slice: the access and refresh tokens, mirrored in `localStorage`,
    and a flag that is set while a refresh is in flight. */
module Auth {
  import opened Common
  import opened Storage

  /** A token pair as the server sends it; a field the reply lacks is `None`
      (JavaScript `undefined`). */
  datatype TokenPayload = TokenPayload(accessToken: Option<string>, refreshToken: Option<string>)
  {
    predicate Complete() {
      accessToken.Some? && refreshToken.Some?
    }
  }

  /** `{ data: [tokens, ...] }`; `data` itself may be missing. */
  datatype AuthBody = AuthBody(data: Option<seq<TokenPayload>>)

  const RegisterFailure := "Ошибка регистрации"
  const LoginFailure := "Ошибка авторизации"
  const NoRefreshToken := "Нет refreshToken"
  const RefreshFailure := "Не удалось обновить сессию"

  /** `res.data.data[0]` inside `try`: a missing `data` throws and is caught,
      an empty `data` fulfils with `undefined`. */
  function FirstTokens(response: Option<AuthBody>, failure: string): (r: Settled<Option<TokenPayload>>)
    ensures r.Rejected? <==> response.None? || response.value.data.None?
    ensures r.Rejected? ==> r.reason == Some(failure)
    ensures r.Fulfilled? ==> (r.payload.Some? <==> |response.value.data.value| > 0)
    ensures r.Fulfilled? && r.payload.Some? ==> r.payload.value == response.value.data.value[0]
  {
    if response.None? || response.value.data.None? then Rejected(Some(failure))
    else Fulfilled(First(response.value.data))
  }

  /** `registerUser` */
  function RegisterUser(response: Option<AuthBody>): (r: Settled<Option<TokenPayload>>)
    ensures r.Rejected? <==> response.None? || response.value.data.None?
    ensures r.Rejected? ==> r.reason == Some(RegisterFailure)
    ensures r.Fulfilled? ==> r.payload == First(response.value.data)
  {
    FirstTokens(response, RegisterFailure)
  }

  /** `loginUser` */
  function LoginUser(response: Option<AuthBody>): (r: Settled<Option<TokenPayload>>)
    ensures r.Rejected? <==> response.None? || response.value.data.None?
    ensures r.Rejected? ==> r.reason == Some(LoginFailure)
    ensures r.Fulfilled? ==> r.payload == First(response.value.data)
  {
    FirstTokens(response, LoginFailure)
  }

  /** `refreshAuth`: with no stored refresh token it rejects before any
      request; a reply without `data[0]` is a failure too. */
  function RefreshAuth(storedRefresh: Option<string>, response: Option<AuthBody>): (r: Settled<TokenPayload>)
    ensures !Truthy(storedRefresh) ==> r == Rejected(Some(NoRefreshToken))
    ensures Truthy(storedRefresh) ==>
              (r.Fulfilled? <==> response.Some? && First(response.value.data).Some?)
    ensures Truthy(storedRefresh) && r.Rejected? ==> r.reason == Some(RefreshFailure)
    ensures r.Fulfilled? ==> r.payload == response.value.data.value[0]
  {
    if !Truthy(storedRefresh) then Rejected(Some(NoRefreshToken))
    else if response.None? then Rejected(Some(RefreshFailure))
    else
      var tokens := First(response.value.data);
      if tokens.None? then Rejected(Some(RefreshFailure)) else Fulfilled(tokens.value)
  }

  class AuthSlice {
    var accessToken: Option<string>
    var refreshToken: Option<string>
    var isRefreshing: bool
    /** The page's one `localStorage`. */
    const storage: LocalStorage

    /** Both token fields equal what storage holds under their keys. */
    ghost predicate InSync()
      reads this, storage
    {
      accessToken == storage.GetItem(AccessKey) && refreshToken == storage.GetItem(RefreshKey)
    }

    /** `initialState`, read from storage when the slice is created. */
    constructor (storage: LocalStorage)
      ensures this.storage == storage && !isRefreshing
      ensures accessToken == storage.GetItem(AccessKey) && refreshToken == storage.GetItem(RefreshKey)
      ensures InSync()
    {
      this.storage := storage;
      accessToken := storage.GetItem(AccessKey);
      refreshToken := storage.GetItem(RefreshKey);
      isRefreshing := false;
    }

    /** The four statements `restoreTokens`, `registerUser.fulfilled`,
        `loginUser.fulfilled` and `refreshAuth.fulfilled` share. */
    method WriteTokens(p: TokenPayload)
      modifies this, storage
      ensures accessToken == p.accessToken && refreshToken == p.refreshToken
      ensures storage.items == WithTokens(old(storage.items), Stringified(p.accessToken), Stringified(p.refreshToken))
      ensures isRefreshing == old(isRefreshing)
      ensures p.Complete() ==> InSync()
    {
      accessToken := p.accessToken;
      refreshToken := p.refreshToken;
      storage.SetItem(AccessKey, Stringified(p.accessToken));
      storage.SetItem(RefreshKey, Stringified(p.refreshToken));
    }

    /** `restoreTokens` */
    method RestoreTokens(p: TokenPayload)
      modifies this, storage
      ensures accessToken == p.accessToken && refreshToken == p.refreshToken
      ensures storage.items == WithTokens(old(storage.items), Stringified(p.accessToken), Stringified(p.refreshToken))
      ensures isRefreshing == old(isRefreshing)
      ensures p.Complete() ==> InSync()
    {
      WriteTokens(p);
    }

    /** `logout`: both tokens and both keys go, and no refresh is in flight. */
    method Logout()
      modifies this, storage
      ensures accessToken == None && refreshToken == None && !isRefreshing
      ensures storage.items == old(storage.items) - {AccessKey, RefreshKey}
      ensures InSync()
    {
      accessToken := None;
      refreshToken := None;
      isRefreshing := false;
      storage.RemoveItem(AccessKey);
      storage.RemoveItem(RefreshKey);
    }

    /** `registerUser.fulfilled` and `loginUser.fulfilled`, whose bodies are
        the same. */
    method SignedIn(p: TokenPayload)
      modifies this, storage
      ensures accessToken == p.accessToken && refreshToken == p.refreshToken
      ensures storage.items == WithTokens(old(storage.items), Stringified(p.accessToken), Stringified(p.refreshToken))
      ensures isRefreshing == old(isRefreshing)
      ensures p.Complete() ==> InSync()
    {
      WriteTokens(p);
    }

    /** `refreshAuth.pending` */
    method RefreshPending()
      modifies this
      ensures isRefreshing
      ensures accessToken == old(accessToken) && refreshToken == old(refreshToken)
    {
      isRefreshing := true;
    }

    /** `refreshAuth.fulfilled` */
    method RefreshFulfilled(p: TokenPayload)
      modifies this, storage
      ensures accessToken == p.accessToken && refreshToken == p.refreshToken && !isRefreshing
      ensures storage.items == WithTokens(old(storage.items), Stringified(p.accessToken), Stringified(p.refreshToken))
      ensures p.Complete() ==> InSync()
    {
      WriteTokens(p);
      isRefreshing := false;
    }

    /** `refreshAuth.rejected`: the tokens stay. */
    method RefreshRejected()
      modifies this
      ensures !isRefreshing
      ensures accessToken == old(accessToken) && refreshToken == old(refreshToken)
    {
      isRefreshing := false;
    }

    /** `dispatch(registerUser(dto))` or `dispatch(loginUser(dto))`, given the
        thunk's settled result. A reply with an empty `data` fulfils with
        `undefined`, and the reducer then throws reading its `accessToken`:
        the state and storage stay, and `threw` is set. */
    method RunSignIn(settled: Settled<Option<TokenPayload>>) returns (threw: bool)
      modifies this, storage
      ensures threw <==> settled == Fulfilled(None)
      ensures settled.Fulfilled? && settled.payload.Some? ==>
                accessToken == settled.payload.value.accessToken &&
                refreshToken == settled.payload.value.refreshToken &&
                storage.items == WithTokens(old(storage.items),
                                            Stringified(settled.payload.value.accessToken),
                                            Stringified(settled.payload.value.refreshToken))
      ensures settled.Rejected? || threw ==>
                accessToken == old(accessToken) && refreshToken == old(refreshToken) &&
                storage.items == old(storage.items)
      ensures isRefreshing == old(isRefreshing)
    {
      threw := false;
      if settled.Fulfilled? {
        if settled.payload.None? {
          threw := true;
        } else {
          SignedIn(settled.payload.value);
        }
      }
    }

    /** `dispatch(refreshAuth())`: pending, then fulfilled or rejected; the
        refresh token sent is the one in storage. */
    method RunRefreshAuth(response: Option<AuthBody>)
      modifies this, storage
      ensures !isRefreshing
      ensures !Truthy(old(storage.GetItem(RefreshKey))) ==>
                accessToken == old(accessToken) && refreshToken == old(refreshToken) &&
                storage.items == old(storage.items)
      ensures RefreshAuth(old(storage.GetItem(RefreshKey)), response).Fulfilled? ==>
                var p := response.value.data.value[0];
                accessToken == p.accessToken && refreshToken == p.refreshToken &&
                storage.items == WithTokens(old(storage.items), Stringified(p.accessToken), Stringified(p.refreshToken))
      ensures RefreshAuth(old(storage.GetItem(RefreshKey)), response).Rejected? ==>
                accessToken == old(accessToken) && refreshToken == old(refreshToken) &&
                storage.items == old(storage.items)
    {
      RefreshPending();
      var settled := RefreshAuth(storage.GetItem(RefreshKey), response);
      if settled.Fulfilled? {
        RefreshFulfilled(settled.payload);
      } else {
        RefreshRejected();
      }
    }
  }

  /** A pair that lacks its refresh token leaves the text "undefined" in
      storage, a truthy value, while the state holds no refresh token. */
  lemma MissingRefreshStoredAsText(items: map<string, string>, access: string)
    ensures var after := WithTokens(items, Stringified(Some(access)), Stringified(None));
            after[RefreshKey] == "undefined" && Truthy(Some(after[RefreshKey]))
  {
  }
}
