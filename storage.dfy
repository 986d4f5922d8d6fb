/** The browser's `localStorage`: one durable string map shared by the auth
    slice, the request interceptors and the store's start-up code. */
module Storage {
  import opened Common

  const AccessKey := "accessToken"
  const RefreshKey := "refreshToken"

  class LocalStorage {
    var items: map<string, string>

    constructor (items: map<string, string>)
      ensures this.items == items
    {
      this.items := items;
    }

    /** `localStorage.getItem(key)`: null when the key is absent. */
    function GetItem(key: string): (r: Option<string>)
      reads this
      ensures r.Some? <==> key in items
      ensures r.Some? ==> r.value == items[key]
    {
      if key in items then Some(items[key]) else None
    }

    /** `localStorage.setItem(key, value)` */
    method SetItem(key: string, value: string)
      modifies this
      ensures items == old(items)[key := value]
    {
      items := items[key := value];
    }

    /** `localStorage.clear()` */
    method Clear()
      modifies this
      ensures items == map[]
    {
      items := map[];
    }

    /** `localStorage.removeItem(key)` */
    method RemoveItem(key: string)
      modifies this
      ensures items == old(items) - {key}
    {
      items := items - {key};
    }
  }

  /** `setItem` stores the string form of its value: a missing value
      (`undefined`) is stored as the text "undefined". */
  function Stringified(v: Option<string>): (s: string)
    ensures v.Some? ==> s == v.value
    ensures v.None? ==> s == "undefined"
  {
    if v.Some? then v.value else "undefined"
  }

  /** The storage map after both tokens of a pair have been written. */
  function WithTokens(items: map<string, string>, access: string, refresh: string): (r: map<string, string>)
    ensures r.Keys == items.Keys + {AccessKey, RefreshKey}
    ensures r[AccessKey] == access && r[RefreshKey] == refresh
    ensures forall k :: k in items && k != AccessKey && k != RefreshKey ==> r[k] == items[k]
  {
    items[AccessKey := access][RefreshKey := refresh]
  }

  /** Writing a pair a second time leaves storage as the first write did. */
  lemma WithTokensIdempotent(items: map<string, string>, access: string, refresh: string)
    ensures WithTokens(WithTokens(items, access, refresh), access, refresh) == WithTokens(items, access, refresh)
  {
  }

  /** Writing back the values that are already stored leaves storage unchanged. */
  lemma WithStoredTokens(items: map<string, string>)
    requires AccessKey in items && RefreshKey in items
    ensures WithTokens(items, items[AccessKey], items[RefreshKey]) == items
  {
  }
}
