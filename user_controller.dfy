/** The user controller: the "current user" guard and the find-or-create
    helper that the GitHub callback route calls. */
module UserController {
  import opened Js
  import opened Http
  import opened UserTable
  import opened GitHub

  /** `fetchCurrentUser`: the session's user, or 401. */
  method FetchCurrentUser(req: Request<User>) returns (reply: Reply<User>)
    ensures IsAuthenticated(req) ==> reply == Json(200, ValueBody(req.user.value))
    ensures !IsAuthenticated(req) ==> reply == Json(401, MessageBody("User is not authenticated"))
  {
    if IsAuthenticated(req) {
      return Json(200, ValueBody(req.user.value));
    }
    reply := Json(401, MessageBody("User is not authenticated"));
  }

  /** The row `handleGitHubUser` creates: the username is passed through as it
      is, the e-mail defaults to "", and the name is the display name or else the username. */
  function CreatedUser(newId: string, p: Profile): User {
    User(newId, p.id, p.username, Or(FirstEmail(p), ""), OrElse(p.displayName, p.username))
  }

  /** `handleGitHubUser`: find the user by `githubId`, else create one. There is
      no try/catch, so a database error rejects the returned promise. */
  method HandleGitHubUser(db: Table, profile: Profile, newId: string, lookupFails: bool, createFails: bool)
    returns (r: Try<User>)
    requires db.Valid() && newId !in db.byId
    modifies db
    ensures db.Valid()
    ensures r.Threw? ==> db.byGithubId == old(db.byGithubId) && db.byId == old(db.byId)
    ensures lookupFails ==> r.Threw?
    ensures !lookupFails && profile.id in old(db.byGithubId) ==>
              r == Ok(old(db.byGithubId)[profile.id])
              && db.byGithubId == old(db.byGithubId) && db.byId == old(db.byId)
    ensures !lookupFails && profile.id !in old(db.byGithubId) && createFails ==> r.Threw?
    ensures !lookupFails && profile.id !in old(db.byGithubId) && !createFails ==>
              && r == Ok(CreatedUser(newId, profile))
              && db.byGithubId == old(db.byGithubId)[profile.id := CreatedUser(newId, profile)]
              && db.byId == old(db.byId)[newId := CreatedUser(newId, profile)]
    ensures r.Ok? ==> r.value.githubId == profile.id && profile.id in db.byGithubId && db.byGithubId[profile.id] == r.value
  {
    var found := db.FindByGithubId(profile.id, lookupFails);
    if found.Throw? {
      return Threw(found.message);
    }
    if found.Null? {
      r := db.Create(newId, profile.id, profile.username, Or(FirstEmail(profile), ""),
                     OrElse(profile.displayName, profile.username), createFails);
      return;
    }
    r := Ok(found.value);
  }

  /** Calling `handleGitHubUser` twice with the same profile returns the same
      user and creates at most one row. */
  method HandleGitHubUserTwice(db: Table, profile: Profile, id1: string, id2: string) returns (r1: Try<User>, r2: Try<User>)
    requires db.Valid() && id1 !in db.byId && id2 !in db.byId && id1 != id2
    modifies db
    ensures db.Valid()
    ensures r1.Ok? && r2 == r1
    ensures db.byGithubId.Keys == old(db.byGithubId).Keys + {profile.id}
  {
    r1 := HandleGitHubUser(db, profile, id1, false, false);
    r2 := HandleGitHubUser(db, profile, id2, false, false);
  }
}
