/** The auth slice (`slices/authSlice.ts`): who is logged in on the client.
    Each reducer is a method that assigns some fields of the slice in place;
    its postcondition gives the whole new state as the old one with those
    fields replaced, so what is not mentioned is unchanged. */
module AuthSlice {
  import opened Js

  /** The `/auth/me` body that `fetchAuthUser` fulfils with. */
  datatype MePayload = MePayload(id: Option<string>, email: Option<string>)

  datatype AuthState = AuthState(
    id: Option<string>,
    email: Option<string>,
    isAuthenticated: bool,
    loading: bool,
    error: Option<string>)

  /** `initialState`: unauthenticated, nothing loading, no error. */
  const Initial: AuthState := AuthState(None, None, false, false, None)

  class Auth {
    var id: Option<string>
    var email: Option<string>
    var isAuthenticated: bool
    var loading: bool
    var error: Option<string>

    function State(): AuthState
      reads this
    {
      AuthState(id, email, isAuthenticated, loading, error)
    }

    constructor ()
      ensures State() == Initial
    {
      id, email, isAuthenticated, loading, error := None, None, false, false, None;
    }

    /** `logout`: forget the user without calling the server. */
    method Logout()
      modifies this
      ensures State() == old(State()).(id := None, email := None, isAuthenticated := false)
    {
      email := None;
      isAuthenticated := false;
      id := None;
    }

    method FetchAuthUserPending()
      modifies this
      ensures State() == old(State()).(loading := true, error := None)
    {
      loading := true;
      error := None;
    }

    /** `fetchAuthUser.fulfilled`: a falsy id is stored as `null`. */
    method FetchAuthUserFulfilled(payload: MePayload)
      modifies this
      ensures State() == old(State()).(loading := false, id := OrElse(payload.id, None),
                                       email := payload.email, isAuthenticated := true)
      ensures id.Some? ==> id.value != ""
    {
      loading := false;
      id := if Truthy(payload.id) then payload.id else None;
      email := payload.email;
      isAuthenticated := true;
    }

    /** `fetchAuthUser.rejected`: id and email stay as they were. */
    method FetchAuthUserRejected(payload: string)
      modifies this
      ensures State() == old(State()).(loading := false, error := Some(payload), isAuthenticated := false)
    {
      loading := false;
      error := Some(payload);
      isAuthenticated := false;
    }

    method LogoutUserPending()
      modifies this
      ensures State() == old(State()).(loading := true, error := None)
    {
      loading := true;
      error := None;
    }

    /** `logoutUser.fulfilled`: the same user fields as `logout`, and loading ends. */
    method LogoutUserFulfilled()
      modifies this
      ensures State() == old(State()).(loading := false, email := None, isAuthenticated := false, id := None)
    {
      loading := false;
      email := None;
      isAuthenticated := false;
      id := None;
    }

    /** `logoutUser.rejected`: the user stays logged in as far as the client knows. */
    method LogoutUserRejected(payload: string)
      modifies this
      ensures State() == old(State()).(loading := false, error := Some(payload))
    {
      loading := false;
      error := Some(payload);
    }
  }

  /** `logout` twice is `logout` once. */
  method LogoutTwice(a: Auth)
    modifies a
    ensures a.State() == old(a.State()).(id := None, email := None, isAuthenticated := false)
  {
    a.Logout();
    a.Logout();
  }

  /** From the same state, `logout` and `logoutUser.fulfilled` agree on everything but `loading`. */
  method LogoutAgreesWithLogoutUser(a: Auth, b: Auth)
    requires a != b && a.State() == b.State()
    modifies a, b
    ensures a.State().(loading := false) == b.State()
    ensures !a.State().isAuthenticated && a.State().id.None? && a.State().email.None?
  {
    a.Logout();
    b.LogoutUserFulfilled();
  }
}
