/** The older users reducer (`reducers/userSlice.ts`), the one the store
    registers under `users`: only the user list and a fetch status. */
module LegacyUserSlice {
  import opened Js
  import UserSlice

  datatype LegacyUserState = LegacyUserState(users: seq<UserSlice.User>, loading: bool, error: Option<string>)

  const LegacyInitial: LegacyUserState := LegacyUserState([], false, None)

  class LegacyUsers {
    var users: seq<UserSlice.User>
    var loading: bool
    var error: Option<string>

    function State(): LegacyUserState
      reads this
    {
      LegacyUserState(users, loading, error)
    }

    constructor ()
      ensures State() == LegacyInitial
    {
      users, loading, error := [], false, None;
    }

    method FetchUsersPending()
      modifies this
      ensures State() == old(State()).(loading := true, error := None)
    {
      loading := true;
      error := None;
    }

    /** A success leaves an error from an earlier rejection in place. */
    method FetchUsersFulfilled(payload: seq<UserSlice.User>)
      modifies this
      ensures State() == old(State()).(loading := false, users := payload)
    {
      loading := false;
      users := payload;
    }

    /** The payload is stored as is: no default message. */
    method FetchUsersRejected(payload: Option<string>)
      modifies this
      ensures State() == old(State()).(loading := false, error := payload)
    {
      loading := false;
      error := payload;
    }
  }

  /** A rejection without a message leaves this reducer with no error at all,
      where the newer users slice reports its default message. */
  method RejectWithoutMessage() returns (legacyError: Option<string>, sliceError: Option<string>)
    ensures legacyError == None
    ensures sliceError == Some("Failed to fetch users.")
  {
    var legacy := new LegacyUsers();
    legacy.FetchUsersPending();
    legacy.FetchUsersRejected(None);
    legacyError := legacy.error;
    var slice := new UserSlice.Users();
    slice.FetchUsersPending();
    slice.FetchUsersRejected(None);
    sliceError := slice.error;
  }
}
