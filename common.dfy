/** Values shared by every part of the client: optional values (JavaScript's
    null / undefined), the way an async thunk settles, and JavaScript truthiness
    of the strings the reducers test with `||` and `!`. */
module Common {

  datatype Option<T> = None | Some(value: T) {
    /** `x ?? d` */
    function GetOr(default: T): T {
      if Some? then value else default
    }
  }

  /** How a `createAsyncThunk` settles: the fulfilled action carries the payload
      creator's return value; the rejected action carries the value given to
      `rejectWithValue`, or nothing when the thunk was rejected some other way. */
  datatype Settled<T> = Fulfilled(payload: T) | Rejected(reason: Option<string>)

  /** A string that may be null/undefined is truthy iff it is present and non-empty. */
  predicate Truthy(s: Option<string>) {
    s.Some? && s.value != ""
  }

  /** The fallback message every `rejected` case uses. */
  const UnknownError := "Неизвестная ошибка"

  /** `action.payload || "Неизвестная ошибка"`: the message a rejected case stores. */
  function ErrorText(reason: Option<string>): (msg: string)
    ensures msg != ""
    ensures Truthy(reason) ==> msg == reason.value
    ensures !Truthy(reason) ==> msg == UnknownError
  {
    if Truthy(reason) then reason.value else UnknownError
  }

  /** `xs?.[0]`: the first element of an optional array, when there is one. */
  function First<T>(xs: Option<seq<T>>): (r: Option<T>)
    ensures r.Some? <==> xs.Some? && |xs.value| > 0
    ensures r.Some? ==> r.value == xs.value[0]
  {
    if xs.Some? && |xs.value| > 0 then Some(xs.value[0]) else None
  }

  /** A named enumeration entry as the API returns it (`{ id, name }`). */
  datatype Named = Named(id: int, name: string)

  // ----- reply shapes the thunks unwrap -----

  /** One page of a list reply. */
  datatype Page<T> = Page(items: Option<seq<T>>)
  /** A list reply: `{ data: [{ items: [...] }, ...] }` */
  datatype PagedBody<T> = PagedBody(data: Option<seq<Page<T>>>)
  /** A reply whose `data` is an array of arrays: `{ data: [[row, ...], ...] }` */
  datatype RowsBody<T> = RowsBody(data: Option<seq<seq<T>>>)

  /** `data.data?.[0]?.items ?? []`: the first page's items, or none at all. */
  function UnwrapItems<T>(body: PagedBody<T>): (items: seq<T>)
    ensures body.data.Some? && |body.data.value| > 0 && body.data.value[0].items.Some? ==>
              items == body.data.value[0].items.value
    ensures body.data.None? || |body.data.value| == 0 || body.data.value[0].items.None? ==> items == []
  {
    var page := First(body.data);
    if page.Some? && page.value.items.Some? then page.value.items.value else []
  }

  /** `data.data?.[0]?.[0]`: the first row's first entry, undefined when either is missing. */
  function UnwrapFirst<T>(body: RowsBody<T>): (entry: Option<T>)
    ensures entry.Some? <==> body.data.Some? && |body.data.value| > 0 && |body.data.value[0]| > 0
    ensures entry.Some? ==> entry.value == body.data.value[0][0]
  {
    var row := First(body.data);
    if row.Some? then First(Some(row.value)) else None
  }

  /** The edit thunks' shape: a failed `PUT` rejects with `failure`; otherwise
      the thunk fulfils with `data?.[0]?.[0]`, which may be missing. */
  function EditedEntry<T>(response: Option<RowsBody<T>>, failure: string): (r: Settled<Option<T>>)
    ensures r.Rejected? <==> response.None?
    ensures r.Rejected? ==> r.reason == Some(failure)
    ensures r.Fulfilled? ==> r.payload == UnwrapFirst(response.value)
  {
    if response.None? then Rejected(Some(failure)) else Fulfilled(UnwrapFirst(response.value))
  }
}
