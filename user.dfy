/** The user slice: the signed-in user's profile, with a loading flag and an
    error message. */
module User {
  import opened Common

  datatype Email = Email(address: string, isConfirmed: bool)
  datatype Role = Role(id: int, name: string)
  datatype Profile = Profile(id: string, firstName: string, lastName: string, email: Email, role: Role)

  /** A reply `{ data: [profile, ...] }`; `data` may be missing. */
  datatype Body = Body(data: Option<seq<Profile>>)

  /** `getUser`: `data.data[0]` inside `try`. A failed request or a missing
      `data` rejects with the fallback text itself; an empty `data` fulfils
      with `undefined`. */
  function GetUser(response: Option<Body>): (r: Settled<Option<Profile>>)
    ensures r.Rejected? <==> response.None? || response.value.data.None?
    ensures r.Rejected? ==> r.reason == Some(UnknownError)
    ensures r.Fulfilled? ==> (r.payload.None? <==> response.value.data.value == [])
    ensures r.Fulfilled? && r.payload.Some? ==> r.payload.value == response.value.data.value[0]
  {
    if response.None? || response.value.data.None? then Rejected(Some(UnknownError))
    else Fulfilled(First(response.value.data))
  }

  class UserSlice {
    var user: Option<Profile>
    var loading: bool
    var error: Option<string>

    /** `initialState` */
    constructor ()
      ensures user == None && !loading && error == None
    {
      user, loading, error := None, false, None;
    }

    /** `getUser.pending` */
    method Pending()
      modifies this
      ensures loading && error == None && user == old(user)
    {
      loading := true;
      error := None;
    }

    /** `getUser.fulfilled`: the error is left as it was. */
    method Fulfilled(payload: Option<Profile>)
      modifies this
      ensures !loading && user == payload && error == old(error)
    {
      loading := false;
      user := payload;
    }

    /** `getUser.rejected` */
    method Rejected(reason: Option<string>)
      modifies this
      ensures !loading && error == Some(ErrorText(reason)) && user == old(user)
    {
      loading := false;
      error := Some(ErrorText(reason));
    }

    /** `dispatch(getUser())`: every failure ends in the same message. */
    method RunGetUser(response: Option<Body>)
      modifies this
      ensures !loading
      ensures response.Some? && response.value.data.Some? ==>
                user == First(response.value.data) && error == None
      ensures response.None? || response.value.data.None? ==>
                user == old(user) && error == Some(UnknownError)
    {
      Pending();
      var settled := GetUser(response);
      match settled {
        case Fulfilled(payload) => Fulfilled(payload);
        case Rejected(reason) => Rejected(reason);
      }
    }
  }
}
