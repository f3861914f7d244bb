/** The `User` table that Prisma exposes to the backend, as two indexes over
    the same rows: by the unique `githubId` column and by the primary key `id`.
    `findUnique`/`create` are the only operations the core uses. */
module UserTable {
  import opened Js

  datatype User = User(
    id: string,
    githubId: string,
    username: Option<string>,
    email: string,
    name: Option<string>)

  class Table {
    var byGithubId: map<string, User>
    var byId: map<string, User>

    /** Both indexes hold the same rows, each under its own key. */
    ghost predicate Valid()
      reads this
    {
      && (forall g :: g in byGithubId ==>
            byGithubId[g].githubId == g && byGithubId[g].id in byId && byId[byGithubId[g].id] == byGithubId[g])
      && (forall i :: i in byId ==>
            byId[i].id == i && byId[i].githubId in byGithubId && byGithubId[byId[i].githubId] == byId[i])
    }

    /** The number of rows. */
    function Count(): nat
      reads this
    {
      |byGithubId|
    }

    /** `u` is a row of the table. */
    predicate Contains(u: User)
      reads this
    {
      u.githubId in byGithubId && byGithubId[u.githubId] == u
    }

    constructor ()
      ensures Valid() && byGithubId == map[] && byId == map[]
    {
      byGithubId := map[];
      byId := map[];
    }

    /** `prisma.user.findUnique({ where: { githubId } })`; `fails` is a database error. */
    method FindByGithubId(githubId: string, fails: bool) returns (r: Outcome<User>)
      requires Valid()
      ensures fails ==> r.Throw?
      ensures !fails && githubId in byGithubId ==> r == Value(byGithubId[githubId])
      ensures !fails && githubId !in byGithubId ==> r == Null
    {
      if fails {
        return Throw("database error");
      }
      if githubId in byGithubId {
        return Value(byGithubId[githubId]);
      }
      return Null;
    }

    /** `prisma.user.findUnique({ where: { id } })`. */
    method FindById(id: string, fails: bool) returns (r: Outcome<User>)
      requires Valid()
      ensures fails ==> r.Throw?
      ensures !fails && id in byId ==> r == Value(byId[id])
      ensures !fails && id !in byId ==> r == Null
    {
      if fails {
        return Throw("database error");
      }
      if id in byId {
        return Value(byId[id]);
      }
      return Null;
    }

    /** `prisma.user.create`: inserts one row under the generated key `newId`,
        or throws (database error, or a row with this `githubId` exists) and
        inserts nothing. */
    method Create(newId: string, githubId: string, username: Option<string>, email: string,
                  name: Option<string>, fails: bool) returns (r: Try<User>)
      requires Valid() && newId !in byId
      modifies this
      ensures Valid()
      ensures (fails || githubId in old(byGithubId)) ==>
                r.Threw? && byGithubId == old(byGithubId) && byId == old(byId)
      ensures !(fails || githubId in old(byGithubId)) ==>
                && r == Ok(User(newId, githubId, username, email, name))
                && byGithubId == old(byGithubId)[githubId := r.value]
                && byId == old(byId)[newId := r.value]
    {
      if fails {
        return Threw("database error");
      }
      if githubId in byGithubId {
        return Threw("unique constraint failed on githubId");
      }
      var u := User(newId, githubId, username, email, name);
      byGithubId := byGithubId[githubId := u];
      byId := byId[newId := u];
      r := Ok(u);
    }
  }
}
