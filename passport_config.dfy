/** The GitHub strategy's verify callback (find-or-create by `githubId`) and
    the session (de)serialisers registered with Passport. */
module PassportConfig {
  import opened Js
  import opened UserTable
  import opened GitHub

  /** The arguments handed to Passport's `done`: an error, or no error and a user (or none). */
  datatype Done = Done(error: Option<string>, user: Option<User>)

  /** The row the verify callback creates for a GitHub account not yet in the table. */
  function NewUser(newId: string, p: Profile): User {
    User(newId, p.id, Some(Or(p.username, "")), Or(FirstEmail(p), ""), Some(Or(p.displayName, "")))
  }

  /** The verify callback: look the account up by `githubId`; create it with
      defaulted fields if it is missing; any database error goes to `done(error)`. */
  method Verify(db: Table, profile: Profile, newId: string, lookupFails: bool, createFails: bool)
    returns (d: Done)
    requires db.Valid() && newId !in db.byId
    modifies db
    ensures db.Valid()
    ensures d.error.Some? <==> d.user.None?
    ensures d.error.Some? ==> db.byGithubId == old(db.byGithubId) && db.byId == old(db.byId)
    ensures lookupFails ==> d.error.Some?
    ensures !lookupFails && profile.id in old(db.byGithubId) ==>
              d == Done(None, Some(old(db.byGithubId)[profile.id]))
              && db.byGithubId == old(db.byGithubId) && db.byId == old(db.byId)
    ensures !lookupFails && profile.id !in old(db.byGithubId) && createFails ==> d.error.Some?
    ensures !lookupFails && profile.id !in old(db.byGithubId) && !createFails ==>
              && d == Done(None, Some(NewUser(newId, profile)))
              && db.byGithubId == old(db.byGithubId)[profile.id := NewUser(newId, profile)]
              && db.byId == old(db.byId)[newId := NewUser(newId, profile)]
    ensures d.user.Some? ==> profile.id in db.byGithubId && db.byGithubId[profile.id] == d.user.value
  {
    var username := Or(profile.username, "");
    var email := Or(FirstEmail(profile), "");
    var found := db.FindByGithubId(profile.id, lookupFails);
    if found.Throw? {
      return Done(Some(found.message), None);
    }
    var user: User;
    if found.Null? {
      var created := db.Create(newId, profile.id, Some(username), email, Some(Or(profile.displayName, "")), createFails);
      if created.Threw? {
        return Done(Some(created.message), None);
      }
      user := created.value;
    } else {
      user := found.value;
    }
    return Done(None, Some(user));
  }

  /** Two logins with the same GitHub account, one after the other, resolve to
      the same user, and the table gains at most one row. */
  method VerifyTwice(db: Table, profile: Profile, id1: string, id2: string) returns (d1: Done, d2: Done)
    requires db.Valid() && id1 !in db.byId && id2 !in db.byId && id1 != id2
    modifies db
    ensures db.Valid()
    ensures d1.user.Some? && d2.user == d1.user
    ensures d1.user.value.githubId == profile.id
    ensures db.byGithubId.Keys == old(db.byGithubId).Keys + {profile.id}
  {
    d1 := Verify(db, profile, id1, false, false);
    d2 := Verify(db, profile, id2, false, false);
  }

  /** `serializeUser`: the session stores the user's primary key. */
  function SerializeUser(u: User): string {
    u.id
  }

  /** `deserializeUser`: the row with that key, `null` when there is none, or the database error. */
  method DeserializeUser(db: Table, id: string, fails: bool) returns (d: Done)
    requires db.Valid()
    ensures fails ==> d.error.Some? && d.user.None?
    ensures !fails ==> d.error.None? && (d.user.Some? <==> id in db.byId)
    ensures d.user.Some? ==> d.user.value.id == id && db.byId[id] == d.user.value
  {
    var found := db.FindById(id, fails);
    match found
    case Throw(msg) => d := Done(Some(msg), None);
    case Null => d := Done(None, None);
    case Value(u) => d := Done(None, Some(u));
  }

  /** Deserialising what was serialised for a row of the table gives back that row. */
  method SessionRoundTrip(db: Table, u: User) returns (d: Done)
    requires db.Valid() && db.Contains(u)
    ensures d == Done(None, Some(u))
  {
    d := DeserializeUser(db, SerializeUser(u), false);
  }
}
