/** The albums slice (`slices/albumSlice.ts`): albums enriched with their
    photos and their owner's username, fetched and created through thunks. */
module AlbumSlice {
  import opened Js
  import PhotoSlice

  /** An album as the albums endpoint returns it. */
  datatype ServerAlbum = ServerAlbum(id: string, title: string, userId: string)

  /** A photo as the photos endpoint returns it. */
  datatype ServerPhoto = ServerPhoto(id: string, title: string, imageUrl: string, albumId: string)

  /** A row of the users endpoint; a user's username may be null. */
  datatype UserRow = UserRow(id: string, username: Option<string>)

  /** An album as the slice stores it. */
  datatype Album = Album(id: string, title: string, userId: string, photos: seq<PhotoSlice.Photo>, username: string)

  datatype AlbumState = AlbumState(albums: seq<Album>, loading: bool, error: Option<string>)

  const Initial: AlbumState := AlbumState([], false, None)

  /** How a thunk settles: its payload, or the value it rejected with. */
  datatype Settled<T> = Fulfilled(payload: T) | Rejected(reason: string)

  /** The multipart body `createAlbum` posts: a title, the user id and one
      `photos` part per file. */
  datatype AlbumForm<F> = AlbumForm(title: string, userId: string, photos: seq<F>)

  /** What a `createAlbum` run does: the form it posts (if any), the paths it
      then reads, and how it settles. */
  datatype CreateRun<F> = CreateRun(posted: Option<AlbumForm<F>>, paths: seq<string>, result: Settled<Album>)

  const NotAuthenticated := "User is not authenticated"
  const UnknownUser := "Unknown"

  /** Row `i` is the last row for its user id. */
  ghost predicate LastRow(users: seq<UserRow>, i: int) {
    0 <= i < |users| && forall j :: i < j < |users| ==> users[j].id != users[i].id
  }

  /** The `reduce` into `userMap`: `acc[user.id] = user.username` in order. */
  function UserMap(users: seq<UserRow>): map<string, Option<string>> {
    if users == [] then map[]
    else UserMap(users[..|users| - 1])[users[|users| - 1].id := users[|users| - 1].username]
  }

  /** `userMap` has a key for every user id and no other. */
  lemma {:induction false} UserMapKeys(users: seq<UserRow>)
    ensures forall k :: k in UserMap(users) <==> exists i :: 0 <= i < |users| && users[i].id == k
  {
    if users != [] {
      var init, last := users[..|users| - 1], users[|users| - 1];
      UserMapKeys(init);
      assert UserMap(users) == UserMap(init)[last.id := last.username];
      forall k | k in UserMap(users) ensures exists i :: 0 <= i < |users| && users[i].id == k {
        if k != last.id {
          var i :| 0 <= i < |init| && init[i].id == k;
          assert users[i] == init[i];
        }
      }
      forall k | k !in UserMap(users) ensures forall i :: 0 <= i < |users| ==> users[i].id != k {
        forall i | 0 <= i < |users| ensures users[i].id != k {
          if i < |init| { assert users[i] == init[i]; }
        }
      }
    }
  }

  /** A repeated id keeps its last row's username. */
  lemma {:induction false} UserMapLast(users: seq<UserRow>, i: int)
    requires LastRow(users, i)
    ensures users[i].id in UserMap(users) && UserMap(users)[users[i].id] == users[i].username
  {
    var init, last := users[..|users| - 1], users[|users| - 1];
    assert UserMap(users) == UserMap(init)[last.id := last.username];
    if i < |init| {
      assert users[i] == init[i];
      assert LastRow(init, i) by {
        forall j | i < j < |init| ensures init[j].id != init[i].id {
          assert users[j] == init[j];
        }
      }
      UserMapLast(init, i);
    }
  }

  /** `userMap[album.userId] || "Unknown"`. */
  function DisplayName(users: seq<UserRow>, userId: string): (name: string)
    ensures (forall i :: 0 <= i < |users| ==> users[i].id != userId) ==> name == UnknownUser
    ensures forall i :: LastRow(users, i) && users[i].id == userId ==> name == Or(users[i].username, UnknownUser)
  {
    UserMapKeys(users);
    forall i | LastRow(users, i) && users[i].id == userId
      ensures userId in UserMap(users) && UserMap(users)[userId] == users[i].username
    {
      UserMapLast(users, i);
    }
    var m := UserMap(users);
    if userId in m then Or(m[userId], UnknownUser) else UnknownUser
  }

  /** The photo projection keeping `imageUrl`, `id` and `title`. */
  function Project(photos: seq<ServerPhoto>): (r: seq<PhotoSlice.Photo>)
    ensures |r| == |photos|
    ensures forall i :: 0 <= i < |photos| ==>
              r[i].id == photos[i].id && r[i].title == photos[i].title && r[i].imageUrl == photos[i].imageUrl
  {
    seq(|photos|, i requires 0 <= i < |photos| => PhotoSlice.Photo(photos[i].id, photos[i].title, photos[i].imageUrl))
  }

  /** `{ ...album, photos, username }`. */
  function Enrich(album: ServerAlbum, photos: seq<ServerPhoto>, users: seq<UserRow>): Album {
    Album(album.id, album.title, album.userId, Project(photos), DisplayName(users, album.userId))
  }

  /** The enrichment `map`: one album per server album, in the same order. */
  function EnrichAll(albums: seq<ServerAlbum>, photos: seq<seq<ServerPhoto>>, users: seq<UserRow>): (r: seq<Album>)
    requires |photos| == |albums|
    ensures |r| == |albums|
    ensures forall i :: 0 <= i < |albums| ==>
              r[i].id == albums[i].id && r[i].title == albums[i].title && r[i].userId == albums[i].userId &&
              r[i].photos == Project(photos[i]) && r[i].username == DisplayName(users, albums[i].userId)
  {
    seq(|albums|, i requires 0 <= i < |albums| => Enrich(albums[i], photos[i], users))
  }

  /** The message of the first photo fetch that threw, if any. */
  function FirstFailure<T>(fetches: seq<Try<T>>): (m: Option<string>)
    ensures m.None? <==> forall i :: 0 <= i < |fetches| ==> fetches[i].Ok?
    ensures m.Some? ==> exists i :: 0 <= i < |fetches| && fetches[i] == Threw(m.value)
  {
    if fetches == [] then None
    else if fetches[0].Threw? then Some(fetches[0].message)
    else
      var m := FirstFailure(fetches[1..]);
      assert forall i :: 1 <= i < |fetches| ==> fetches[1..][i - 1] == fetches[i];
      m
  }

  /** `fetchAlbums`, given what each request answers: the album and user
      lists first, then one photo list per album. */
  function FetchAlbums(albums: Try<seq<ServerAlbum>>, users: Try<seq<UserRow>>, photos: seq<Try<seq<ServerPhoto>>>)
    : (r: Settled<seq<Album>>)
    requires albums.Ok? ==> |photos| == |albums.value|
    ensures albums.Threw? ==> r == Rejected(albums.message)
    ensures albums.Ok? && users.Threw? ==> r == Rejected(users.message)
    ensures r.Fulfilled? <==>
              albums.Ok? && users.Ok? && forall i :: 0 <= i < |photos| ==> photos[i].Ok?
    ensures r.Fulfilled? ==>
              r.payload == EnrichAll(albums.value, seq(|photos|, i requires 0 <= i < |photos| && photos[i].Ok? => photos[i].value), users.value)
    ensures r.Rejected? && albums.Ok? && users.Ok? ==> exists i :: 0 <= i < |photos| && photos[i] == Threw(r.reason)
  {
    if albums.Threw? then Rejected(albums.message)
    else if users.Threw? then Rejected(users.message)
    else match FirstFailure(photos)
      case Some(m) => Rejected(m)
      case None =>
        Fulfilled(EnrichAll(albums.value, seq(|photos|, i requires 0 <= i < |photos| && photos[i].Ok? => photos[i].value), users.value))
  }

  /** `createAlbum`: with no authenticated id it rejects before any request;
      otherwise it posts the form, then reads the new album's owner and
      photos, rejecting with the message of the first request that throws. */
  function CreateAlbum<F>(authId: Option<string>, title: string, files: seq<F>,
                          post: Try<ServerAlbum>, owner: Try<string>, photos: Try<seq<ServerPhoto>>)
    : (run: CreateRun<F>)
    ensures !Truthy(authId) ==> run == CreateRun(None, [], Rejected(NotAuthenticated))
    ensures Truthy(authId) ==> run.posted == Some(AlbumForm(title, authId.value, files))
    ensures Truthy(authId) && post.Threw? ==> run.paths == [] && run.result == Rejected(post.message)
    ensures Truthy(authId) && post.Ok? ==>
              run.paths == ["/users/" + post.value.userId] + (if owner.Ok? then ["/photos/albums/" + post.value.id] else [])
    ensures run.result.Fulfilled? <==> Truthy(authId) && post.Ok? && owner.Ok? && photos.Ok?
    ensures run.result.Fulfilled? ==>
              run.result.payload == Album(post.value.id, post.value.title, post.value.userId, Project(photos.value), owner.value)
  {
    if !Truthy(authId) then CreateRun(None, [], Rejected(NotAuthenticated))
    else
      var form := Some(AlbumForm(title, authId.value, files));
      match post
      case Threw(m) => CreateRun(form, [], Rejected(m))
      case Ok(album) =>
        var userPath := "/users/" + album.userId;
        match owner
        case Threw(m) => CreateRun(form, [userPath], Rejected(m))
        case Ok(username) =>
          var paths := [userPath, "/photos/albums/" + album.id];
          match photos
          case Threw(m) => CreateRun(form, paths, Rejected(m))
          case Ok(ps) => CreateRun(form, paths, Fulfilled(Album(album.id, album.title, album.userId, Project(ps), username)))
  }

  class Albums {
    var albums: seq<Album>
    var loading: bool
    var error: Option<string>

    function State(): AlbumState
      reads this
    {
      AlbumState(albums, loading, error)
    }

    constructor ()
      ensures State() == Initial
    {
      albums, loading, error := [], false, None;
    }

    /** Pending raises `loading` and leaves an earlier error in place. */
    method FetchAlbumsPending()
      modifies this
      ensures State() == old(State()).(loading := true)
    {
      loading := true;
    }

    method FetchAlbumsFulfilled(payload: seq<Album>)
      modifies this
      ensures State() == old(State()).(albums := payload, loading := false)
    {
      albums := payload;
      loading := false;
    }

    method FetchAlbumsRejected(payload: Option<string>)
      modifies this
      ensures State() == old(State()).(error := payload, loading := false)
    {
      error := payload;
      loading := false;
    }

    method CreateAlbumPending()
      modifies this
      ensures State() == old(State()).(loading := true)
    {
      loading := true;
    }

    /** `state.albums.push(action.payload)`. */
    method CreateAlbumFulfilled(payload: Album)
      modifies this
      ensures State() == old(State()).(albums := old(albums) + [payload], loading := false)
      ensures |albums| == |old(albums)| + 1 && albums[..|old(albums)|] == old(albums) && albums[|albums| - 1] == payload
    {
      albums := albums + [payload];
      loading := false;
    }

    method CreateAlbumRejected(payload: Option<string>)
      modifies this
      ensures State() == old(State()).(error := payload, loading := false)
    {
      error := payload;
      loading := false;
    }
  }

  /** A fetch followed by a create leaves the fetched albums followed by the
      created one, and clears `loading`. */
  method FetchThenCreate(fetched: seq<Album>, created: Album) returns (s: AlbumState)
    ensures s == AlbumState(fetched + [created], false, None)
  {
    var a := new Albums();
    a.FetchAlbumsPending();
    a.FetchAlbumsFulfilled(fetched);
    a.CreateAlbumPending();
    a.CreateAlbumFulfilled(created);
    s := a.State();
  }
}
