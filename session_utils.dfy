/** The session helpers: both are single tests of `req.user`. Being
    functions of the request, neither can change it. */
module SessionUtils {
  import opened Js
  import opened Http
  import opened UserTable

  /** `checkSession`: a principal is attached to the request. */
  function CheckSession(req: Request<User>): (active: bool)
    ensures active <==> IsAuthenticated(req)
  {
    req.user.Some?
  }

  /** `getUserFromSession`: the attached principal itself, or `null`. */
  function GetUserFromSession(req: Request<User>): (u: Option<User>)
    ensures u.None? <==> !CheckSession(req)
    ensures CheckSession(req) ==> u == req.user
  {
    if req.user.Some? then req.user else None
  }
}
