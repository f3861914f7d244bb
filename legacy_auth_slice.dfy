/** The older auth reducer (`reducers/authSlice.ts`). It differs from the
    slice in `slices/authSlice.ts` in three places: `id` starts `undefined`,
    neither logout touches `id`, and a fulfilled fetch copies the payload's
    `id` as it is, without turning a falsy one into `null`. */
module LegacyAuthSlice {
  import opened Js
  import opened AuthSlice

  /** `initialState`: `undefined` and `null` are both `None`. */
  const LegacyInitial: AuthState := AuthState(None, None, false, false, None)

  class LegacyAuth {
    var id: Option<string>
    var email: Option<string>
    var isAuthenticated: bool
    var loading: bool
    var error: Option<string>

    function State(): AuthState
      reads this
    {
      AuthState(id, email, isAuthenticated, loading, error)
    }

    constructor ()
      ensures State() == LegacyInitial
    {
      id, email, isAuthenticated, loading, error := None, None, false, false, None;
    }

    /** `logout`: clears the e-mail and the flag; `id` is kept. */
    method Logout()
      modifies this
      ensures State() == old(State()).(email := None, isAuthenticated := false)
    {
      email := None;
      isAuthenticated := false;
    }

    method FetchAuthUserPending()
      modifies this
      ensures State() == old(State()).(loading := true, error := None)
    {
      loading := true;
      error := None;
    }

    /** `fetchAuthUser.fulfilled`: the payload's id verbatim. */
    method FetchAuthUserFulfilled(payload: MePayload)
      modifies this
      ensures State() == old(State()).(loading := false, id := payload.id, email := payload.email,
                                       isAuthenticated := true)
    {
      loading := false;
      id := payload.id;
      email := payload.email;
      isAuthenticated := true;
    }

    method FetchAuthUserRejected(payload: string)
      modifies this
      ensures State() == old(State()).(loading := false, error := Some(payload), isAuthenticated := false)
    {
      loading := false;
      error := Some(payload);
      isAuthenticated := false;
    }

    method LogoutUserPending()
      modifies this
      ensures State() == old(State()).(loading := true, error := None)
    {
      loading := true;
      error := None;
    }

    /** `logoutUser.fulfilled`: like `logout`, `id` is kept. */
    method LogoutUserFulfilled()
      modifies this
      ensures State() == old(State()).(loading := false, email := None, isAuthenticated := false)
    {
      loading := false;
      email := None;
      isAuthenticated := false;
    }

    /** `logoutUser.rejected`: leaves the authentication flag as it was. */
    method LogoutUserRejected(payload: string)
      modifies this
      ensures State() == old(State()).(loading := false, error := Some(payload))
    {
      loading := false;
      error := Some(payload);
    }
  }

  /** After a fetch and a logout the old reducer still holds the id, while the
      slice in `slices/authSlice.ts` has cleared it. */
  method LogoutKeepsId(payload: MePayload) returns (legacyId: Option<string>, sliceId: Option<string>)
    ensures legacyId == payload.id
    ensures sliceId == None
  {
    var legacy := new LegacyAuth();
    legacy.FetchAuthUserFulfilled(payload);
    legacy.Logout();
    legacyId := legacy.id;
    var slice := new Auth();
    slice.FetchAuthUserFulfilled(payload);
    slice.Logout();
    sliceId := slice.id;
  }
}
