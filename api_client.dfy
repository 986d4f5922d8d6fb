/** The HTTP client the slices share: a request interceptor that attaches the
    stored access token, and a response-error interceptor that refreshes the
    token pair and re-sends the failed request. */
module ApiClient {
  import opened Common
  import opened Storage
  import Auth
  import AppStore

  const AuthorizationHeader := "Authorization"
  const NoRefreshTokenMessage := "No refresh token"

  /** The parts of an axios request config the interceptors touch. */
  datatype RequestConfig = RequestConfig(url: string, headers: map<string, string>, retry: bool)

  /** An axios error: a status when a reply came back, and the config of
      the request that failed when axios kept it. */
  datatype HttpError = HttpError(status: Option<int>, config: Option<RequestConfig>)

  /** The refresh endpoint's reply: `{ data: [{ accessToken, refreshToken }] }`. */
  datatype RefreshReply = RefreshReply(data: Option<seq<Auth.TokenPayload>>)

  /** The request interceptor's rule: the raw token, with no scheme prefix,
      becomes the `Authorization` header exactly when it is truthy. */
  function Authorize(config: RequestConfig, token: Option<string>): (r: RequestConfig)
    ensures r.url == config.url && r.retry == config.retry
    ensures Truthy(token) ==> AuthorizationHeader in r.headers && r.headers[AuthorizationHeader] == token.value
    ensures Truthy(token) ==> forall h :: h in config.headers && h != AuthorizationHeader ==>
                                           h in r.headers && r.headers[h] == config.headers[h]
    ensures Truthy(token) ==> r.headers.Keys == config.headers.Keys + {AuthorizationHeader}
    ensures !Truthy(token) ==> r == config
  {
    if Truthy(token) then config.(headers := config.headers[AuthorizationHeader := token.value]) else config
  }

  /** Running the interceptor a second time with the same token changes nothing. */
  lemma AuthorizeIdempotent(config: RequestConfig, token: Option<string>)
    ensures Authorize(Authorize(config, token), token) == Authorize(config, token)
  {
  }

  /** `res.data.data?.[0]?.accessToken` */
  function NewAccess(reply: RefreshReply): (access: Option<string>)
    ensures reply.data.None? || |reply.data.value| == 0 ==> access.None?
    ensures reply.data.Some? && |reply.data.value| > 0 ==> access == reply.data.value[0].accessToken
  {
    var tokens := First(reply.data);
    if tokens.Some? then tokens.value.accessToken else None
  }

  /** `res.data.data?.[0]?.refreshToken` */
  function NewRefresh(reply: RefreshReply): (refresh: Option<string>)
    ensures reply.data.None? || |reply.data.value| == 0 ==> refresh.None?
    ensures reply.data.Some? && |reply.data.value| > 0 ==> refresh == reply.data.value[0].refreshToken
  {
    var tokens := First(reply.data);
    if tokens.Some? then tokens.value.refreshToken else None
  }

  /** The branches of the response-error handler. */
  datatype Decision =
    | PassThrough                                     // no config: reject with the same error
    | MissingRefreshToken                             // throw before any refresh call
    | RefreshCallFailed                               // the refresh POST itself threw
    | Resend(access: string, refresh: Option<string>) // store the pair, re-send the request
    | GiveUp                                          // fall off the end: resolve with undefined

  /** The handler's decision tree over its inputs: the error, the refresh
      token in storage, the refresh call's reply (`None` when it threw) and
      whether `setStore` has run. Neither the status nor `_retry` is read. */
  function Decide(err: HttpError, storedRefresh: Option<string>, reply: Option<RefreshReply>, storeSet: bool): (d: Decision)
    ensures d.PassThrough? <==> err.config.None?
    ensures d.MissingRefreshToken? <==> err.config.Some? && !Truthy(storedRefresh)
    ensures d.RefreshCallFailed? <==> err.config.Some? && Truthy(storedRefresh) && reply.None?
    ensures d.Resend? <==>
              err.config.Some? && Truthy(storedRefresh) && reply.Some? && Truthy(NewAccess(reply.value)) && storeSet
    ensures d.Resend? ==> Some(d.access) == NewAccess(reply.value) && d.refresh == NewRefresh(reply.value)
    ensures d.GiveUp? <==>
              err.config.Some? && Truthy(storedRefresh) && reply.Some? && !(Truthy(NewAccess(reply.value)) && storeSet)
  {
    if err.config.None? then PassThrough
    else if !Truthy(storedRefresh) then MissingRefreshToken
    else if reply.None? then RefreshCallFailed
    else
      var access := NewAccess(reply.value);
      if Truthy(access) && storeSet then Resend(access.value, NewRefresh(reply.value))
      else GiveUp
  }

  /** Any error that carries a config takes the refresh path whatever its
      status: two errors that differ only in status and in `_retry` are
      handled alike. */
  lemma StatusAndRetryIgnored(e1: HttpError, e2: HttpError, storedRefresh: Option<string>,
                              reply: Option<RefreshReply>, storeSet: bool)
    requires e1.config.None? <==> e2.config.None?
    ensures Decide(e1, storedRefresh, reply, storeSet) == Decide(e2, storedRefresh, reply, storeSet)
  {
  }

  /** Nothing bounds the retries: when the re-sent request fails as well,
      with `_retry` now set, the handler refreshes and re-sends again. */
  lemma ResendNotBounded(err: HttpError, storedRefresh: Option<string>, reply: RefreshReply, status: Option<int>)
    requires Decide(err, storedRefresh, Some(reply), true).Resend?
    ensures var again := HttpError(status, Some(err.config.value.(retry := true)));
            Decide(again, storedRefresh, Some(reply), true) == Decide(err, storedRefresh, Some(reply), true)
  {
  }

  /** How the handler's promise settles. */
  datatype Outcome =
    | RejectedWith(err: HttpError)
    | Thrown(message: string)
    | RefreshError
    | Resent(config: RequestConfig)
    | ResolvedUndefined

  class Client {
    /** The page's one `localStorage`. */
    const storage: LocalStorage
    /** The module-level `store`, null until `setStore`. */
    var store: AppStore.Store?

    /** The store, once set, writes to the same storage. */
    ghost predicate Valid()
      reads this, store
    {
      store != null ==> store.auth.storage == storage
    }

    constructor (storage: LocalStorage)
      ensures this.storage == storage && store == null && Valid()
    {
      this.storage := storage;
      store := null;
    }

    /** `setStore(s)` */
    method SetStore(s: AppStore.Store)
      requires s.auth.storage == storage
      modifies this
      ensures store == s && Valid()
    {
      store := s;
    }

    /** The request interceptor: reads the access token on every request. A
        stored, non-empty token becomes the `Authorization` header and every
        other header is kept; otherwise the request goes out as it is. */
    function InterceptRequest(config: RequestConfig): (r: RequestConfig)
      reads storage
      ensures r.url == config.url && r.retry == config.retry
      ensures AccessKey in storage.items && storage.items[AccessKey] != "" ==>
                && AuthorizationHeader in r.headers
                && r.headers[AuthorizationHeader] == storage.items[AccessKey]
                && r.headers.Keys == config.headers.Keys + {AuthorizationHeader}
                && forall h :: h in config.headers && h != AuthorizationHeader ==> r.headers[h] == config.headers[h]
      ensures AccessKey !in storage.items || storage.items[AccessKey] == "" ==> r == config
    {
      Authorize(config, storage.GetItem(AccessKey))
    }

    /** The response-error interceptor, given the refresh call's reply. On
        re-send it dispatches `restoreTokens` with the new pair and sets the
        failed request's header to the new access token; the request
        interceptor then leaves that header as it is. */
    method HandleResponseError(err: HttpError, reply: Option<RefreshReply>) returns (outcome: Outcome)
      requires Valid()
      modifies storage, if store == null then {} else {store.auth}
      ensures var d := Decide(err, old(storage.GetItem(RefreshKey)), reply, store != null);
              && (d.PassThrough? ==> outcome == RejectedWith(err))
              && (d.MissingRefreshToken? ==> outcome == Thrown(NoRefreshTokenMessage))
              && (d.RefreshCallFailed? ==> outcome == RefreshError)
              && (d.GiveUp? ==> outcome == ResolvedUndefined)
              && (!d.Resend? ==> storage.items == old(storage.items))
              && (d.Resend? ==>
                    && store != null
                    && outcome == Resent(Authorize(err.config.value.(retry := true), Some(d.access)))
                    && store.auth.accessToken == Some(d.access)
                    && store.auth.refreshToken == d.refresh
                    && storage.items == WithTokens(old(storage.items), d.access, Stringified(d.refresh))
                    && InterceptRequest(outcome.config) == outcome.config)
      ensures store != null ==> store.auth.isRefreshing == old(store.auth.isRefreshing)
      ensures store != null && !Decide(err, old(storage.GetItem(RefreshKey)), reply, true).Resend? ==>
                && store.auth.accessToken == old(store.auth.accessToken)
                && store.auth.refreshToken == old(store.auth.refreshToken)
    {
      if err.config.None? {
        return RejectedWith(err);
      }
      var originalRequest := err.config.value.(retry := true);
      var refreshToken := storage.GetItem(RefreshKey);
      if !Truthy(refreshToken) {
        return Thrown(NoRefreshTokenMessage);
      }
      if reply.None? {
        return RefreshError;
      }
      var newAccessToken := NewAccess(reply.value);
      var newRefreshToken := NewRefresh(reply.value);
      if Truthy(newAccessToken) && store != null {
        store.auth.RestoreTokens(Auth.TokenPayload(newAccessToken, newRefreshToken));
        originalRequest := originalRequest.(headers := originalRequest.headers[AuthorizationHeader := newAccessToken.value]);
        return Resent(originalRequest);
      }
      return ResolvedUndefined;
    }
  }
}
