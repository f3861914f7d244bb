/** The `/auth` routes: the GitHub OAuth callback and `/status`. */
module AuthRoutes {
  import opened Js
  import opened Http
  import opened UserTable
  import opened GitHub
  import PassportConfig
  import UserController

  /** What `passport.authenticate("github")` obtains from GitHub. */
  datatype OAuth = Denied | Granted(profile: Profile)

  /** `req.user` read as a GitHub profile, as the callback handler reads it. The
      object is the row the verify callback returned, so its `id` is the row's
      primary key, and it has neither `displayName` nor `emails`. */
  function RecordAsProfile(u: User): Profile {
    Profile(u.id, u.username, None, [])
  }

  /** The callback handler as written: with a principal attached, call
      `handleGitHubUser` on it and redirect to `/home`; without one, 400; if the
      call rejects, 500. */
  method GithubCallback(db: Table, req: Request<User>, newId: string, lookupFails: bool, createFails: bool)
    returns (reply: Reply<User>)
    requires db.Valid() && newId !in db.byId
    modifies db
    ensures db.Valid()
    ensures req.user.None? ==>
              reply == Json(400, MessageBody("GitHub user profile not found"))
              && db.byGithubId == old(db.byGithubId) && db.byId == old(db.byId)
    ensures req.user.Some? ==> (reply == Redirect("/home") <==>
              !lookupFails && (req.user.value.id in old(db.byGithubId) || !createFails))
    ensures req.user.Some? && reply != Redirect("/home") ==>
              reply == Json(500, MessageBody("Internal Server Error"))
              && db.byGithubId == old(db.byGithubId) && db.byId == old(db.byId)
    ensures req.user.Some? && req.user.value.id in old(db.byGithubId) ==>
              db.byGithubId == old(db.byGithubId) && db.byId == old(db.byId)
    ensures req.user.Some? && req.user.value.id !in old(db.byGithubId) && reply == Redirect("/home") ==>
              && db.byGithubId == old(db.byGithubId)[req.user.value.id := StrayUser(newId, req.user.value)]
              && db.byId == old(db.byId)[newId := StrayUser(newId, req.user.value)]
  {
    if req.user.None? {
      return Json(400, MessageBody("GitHub user profile not found"));
    }
    var resolved := UserController.HandleGitHubUser(db, RecordAsProfile(req.user.value), newId, lookupFails, createFails);
    if resolved.Threw? {
      return Json(500, MessageBody("Internal Server Error"));
    }
    reply := Redirect("/home");
  }

  /** The row the handler as written creates for a principal `u` whose primary
      key is not some account's `githubId`. */
  function StrayUser(newId: string, u: User): User {
    UserController.CreatedUser(newId, RecordAsProfile(u))
  }

  /** The whole `/github/callback` route with a working database: Passport's
      authenticate step (a refused OAuth exchange redirects to `/login`; a
      granted one runs the verify callback and attaches its user), then the handler. */
  method CallbackRoute(db: Table, oauth: OAuth, verifyId: string, handlerId: string) returns (reply: Reply<User>)
    requires db.Valid() && verifyId !in db.byId && handlerId !in db.byId && verifyId != handlerId
    modifies db
    ensures db.Valid()
    ensures oauth.Denied? ==> reply == Redirect("/login") && db.byGithubId == old(db.byGithubId) && db.byId == old(db.byId)
    ensures oauth.Granted? ==> reply == Redirect("/home")
    ensures oauth.Granted? && oauth.profile.id !in old(db.byGithubId) && verifyId !in old(db.byGithubId)
              && verifyId != oauth.profile.id ==>
              && db.byGithubId == old(db.byGithubId)[oauth.profile.id := PassportConfig.NewUser(verifyId, oauth.profile)]
                                    [verifyId := StrayUser(handlerId, PassportConfig.NewUser(verifyId, oauth.profile))]
              && db.byId == old(db.byId)[verifyId := PassportConfig.NewUser(verifyId, oauth.profile)]
                            [handlerId := StrayUser(handlerId, PassportConfig.NewUser(verifyId, oauth.profile))]
    ensures oauth.Granted? && oauth.profile.id in old(db.byGithubId)
              && old(db.byGithubId)[oauth.profile.id].id in old(db.byGithubId) ==>
              db.byGithubId == old(db.byGithubId) && db.byId == old(db.byId)
    ensures oauth.Granted? && oauth.profile.id in old(db.byGithubId)
              && old(db.byGithubId)[oauth.profile.id].id !in old(db.byGithubId) ==>
              && db.byGithubId == old(db.byGithubId)[old(db.byGithubId)[oauth.profile.id].id :=
                                                       StrayUser(handlerId, old(db.byGithubId)[oauth.profile.id])]
              && db.byId == old(db.byId)[handlerId := StrayUser(handlerId, old(db.byGithubId)[oauth.profile.id])]
  {
    if oauth.Denied? {
      return Redirect("/login");
    }
    var d := PassportConfig.Verify(db, oauth.profile, verifyId, false, false);
    reply := GithubCallback(db, Request(d.user), handlerId, false, false);
  }

  /** A first login through the route as written leaves two rows: the account's
      own, and a stray one keyed by that row's primary key. */
  method FirstLoginStrayRow() returns (rows: nat, stray: Option<User>)
    ensures rows == 2
    ensures stray == Some(User("u2", "u1", Some("alice"), "", Some("alice")))
  {
    var db := new Table();
    var reply := CallbackRoute(db, Granted(Profile("42", Some("alice"), Some("Alice A"), [Some("a@x.com")])), "u1", "u2");
    rows := |db.byGithubId|;
    stray := if "u1" in db.byGithubId then Some(db.byGithubId["u1"]) else None;
  }

  /** A second login with the same account through the route as written finds
      the account's row and then the stray row under that row's key, so it adds
      nothing: the table keeps the two rows of the first login. */
  method SecondLoginAddsNothing() returns (rowsAfterFirst: nat, rowsAfterSecond: nat)
    ensures rowsAfterFirst == 2 && rowsAfterSecond == 2
  {
    var db := new Table();
    var profile := Profile("42", Some("alice"), Some("Alice A"), [Some("a@x.com")]);
    var reply1 := CallbackRoute(db, Granted(profile), "u1", "u2");
    rowsAfterFirst := |db.byGithubId|;
    var reply2 := CallbackRoute(db, Granted(profile), "u3", "u4");
    rowsAfterSecond := |db.byGithubId|;
  }

  /** The same row read as the GitHub profile it was created from. */
  function RecordProfile(u: User): Profile {
    Profile(u.githubId, u.username, u.name, [Some(u.email)])
  }

  /** The callback handler with the principal resolved by its `githubId`: a
      principal that is a row of the table is found again and nothing is created. */
  method GithubCallbackFixed(db: Table, req: Request<User>, newId: string, lookupFails: bool, createFails: bool)
    returns (reply: Reply<User>)
    requires db.Valid() && newId !in db.byId
    modifies db
    ensures db.Valid()
    ensures req.user.None? ==>
              reply == Json(400, MessageBody("GitHub user profile not found"))
              && db.byGithubId == old(db.byGithubId) && db.byId == old(db.byId)
    ensures req.user.Some? && old(db.Contains(req.user.value)) ==>
              reply == (if lookupFails then Json(500, MessageBody("Internal Server Error")) else Redirect("/home"))
              && db.byGithubId == old(db.byGithubId) && db.byId == old(db.byId)
    ensures reply != Redirect("/home") ==> db.byGithubId == old(db.byGithubId) && db.byId == old(db.byId)
  {
    if req.user.None? {
      return Json(400, MessageBody("GitHub user profile not found"));
    }
    var resolved := UserController.HandleGitHubUser(db, RecordProfile(req.user.value), newId, lookupFails, createFails);
    if resolved.Threw? {
      return Json(500, MessageBody("Internal Server Error"));
    }
    reply := Redirect("/home");
  }

  /** The route with the corrected handler: a granted login redirects to
      `/home` and leaves exactly one row for the account, created or not. */
  method CallbackRouteFixed(db: Table, oauth: OAuth, verifyId: string, handlerId: string) returns (reply: Reply<User>)
    requires db.Valid() && verifyId !in db.byId && handlerId !in db.byId && verifyId != handlerId
    modifies db
    ensures db.Valid()
    ensures oauth.Denied? ==> reply == Redirect("/login") && db.byGithubId == old(db.byGithubId) && db.byId == old(db.byId)
    ensures oauth.Granted? ==> reply == Redirect("/home")
    ensures oauth.Granted? ==> db.byGithubId.Keys == old(db.byGithubId).Keys + {oauth.profile.id}
    ensures oauth.Granted? && oauth.profile.id in old(db.byGithubId) ==>
              db.byGithubId == old(db.byGithubId) && db.byId == old(db.byId)
    ensures oauth.Granted? && oauth.profile.id !in old(db.byGithubId) ==>
              && db.byGithubId == old(db.byGithubId)[oauth.profile.id := PassportConfig.NewUser(verifyId, oauth.profile)]
              && db.byId == old(db.byId)[verifyId := PassportConfig.NewUser(verifyId, oauth.profile)]
  {
    if oauth.Denied? {
      return Redirect("/login");
    }
    var d := PassportConfig.Verify(db, oauth.profile, verifyId, false, false);
    reply := GithubCallbackFixed(db, Request(d.user), handlerId, false, false);
  }

  /** Two logins with the same account through the corrected route: one row,
      and both sessions hold the same user. */
  method LoginTwiceFixed() returns (rows: nat, first: Option<User>, second: Option<User>)
    ensures rows == 1
    ensures first.Some? && first == second
  {
    var db := new Table();
    var profile := Profile("42", Some("alice"), Some("Alice A"), [Some("a@x.com")]);
    var reply1 := CallbackRouteFixed(db, Granted(profile), "u1", "u2");
    first := if "42" in db.byGithubId then Some(db.byGithubId["42"]) else None;
    var reply2 := CallbackRouteFixed(db, Granted(profile), "u3", "u4");
    second := if "42" in db.byGithubId then Some(db.byGithubId["42"]) else None;
    rows := |db.byGithubId|;
  }

  /** `/status`: whether a principal is attached, and the principal when it is. */
  method Status(req: Request<User>) returns (reply: Reply<User>)
    ensures IsAuthenticated(req) ==> reply == Json(200, StatusBody(true, req.user))
    ensures !IsAuthenticated(req) ==> reply == Json(200, StatusBody(false, None))
  {
    if IsAuthenticated(req) {
      reply := Json(200, StatusBody(true, req.user));
    } else {
      reply := Json(200, StatusBody(false, None));
    }
  }
}
