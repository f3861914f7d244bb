/** The users slice (`slices/userSlice.ts`): the user list, one user's
    details and albums, and a cover image per album. */
module UserSlice {
  import opened Js

  datatype User = User(id: string, username: string, email: string)

  datatype Album = Album(id: string, title: string)

  /** A photo as the photos endpoint returns it; `imageUrl` may be missing. */
  datatype AlbumPhoto = AlbumPhoto(imageUrl: Option<string>)

  /** One resolved per-album fetch: `{ albumId, imageUrl }`. */
  datatype Cover = Cover(albumId: string, imageUrl: string)

  datatype UserState = UserState(
    users: seq<User>,
    userDetails: Option<User>,
    userAlbums: seq<Album>,
    loading: bool,
    error: Option<string>,
    imageLoading: bool,
    albumPhotos: map<string, string>)

  const Initial: UserState := UserState([], None, [], false, None, false, map[])

  /** `photos[Math.floor(Math.random() * photos.length)]?.imageUrl || ""`;
      `pick` stands for the random index and lies in range when there are photos. */
  function PickImageUrl(photos: seq<AlbumPhoto>, pick: nat): (url: string)
    requires |photos| > 0 ==> pick < |photos|
    ensures photos == [] ==> url == ""
    ensures url == "" || exists i :: 0 <= i < |photos| && photos[i].imageUrl == Some(url)
  {
    if |photos| == 0 then ""
    else
      var url := Or(photos[pick].imageUrl, "");
      assert url == "" || photos[pick].imageUrl == Some(url);
      url
  }

  /** The cover at `i` is the last one for its album. */
  ghost predicate LastFor(covers: seq<Cover>, i: int) {
    0 <= i < |covers| && forall j :: i < j < |covers| ==> covers[j].albumId != covers[i].albumId
  }

  /** `acc[k]` is the image of some cover for album `k`. */
  ghost predicate FromSomeCover(covers: seq<Cover>, acc: map<string, string>, k: string)
    requires k in acc
  {
    exists i :: 0 <= i < |covers| && covers[i].albumId == k && acc[k] == covers[i].imageUrl
  }

  ghost function AlbumIds(covers: seq<Cover>): set<string> {
    set i | 0 <= i < |covers| :: covers[i].albumId
  }

  /** The record the `reduce` builds: the covers set one after another. */
  function CoverMap(covers: seq<Cover>): map<string, string> {
    if covers == [] then map[]
    else CoverMap(covers[..|covers| - 1])[covers[|covers| - 1].albumId := covers[|covers| - 1].imageUrl]
  }

  /** The record has one key per album id. */
  lemma {:induction false} CoverMapKeys(covers: seq<Cover>)
    ensures CoverMap(covers).Keys == AlbumIds(covers)
  {
    if covers != [] {
      var init, c := covers[..|covers| - 1], covers[|covers| - 1];
      CoverMapKeys(init);
      assert covers == init + [c];
      forall x | x in AlbumIds(covers) ensures x in AlbumIds(init) + {c.albumId} {
        var i :| 0 <= i < |covers| && covers[i].albumId == x;
        if i < |init| { assert init[i] == covers[i]; }
      }
      forall x | x in AlbumIds(init) ensures x in AlbumIds(covers) {
        var i :| 0 <= i < |init| && init[i].albumId == x;
        assert covers[i] == init[i];
      }
    }
  }

  /** A repeated album id keeps its last cover. */
  lemma {:induction false} CoverMapLast(covers: seq<Cover>, i: int)
    requires LastFor(covers, i)
    ensures covers[i].albumId in CoverMap(covers) && CoverMap(covers)[covers[i].albumId] == covers[i].imageUrl
  {
    var init := covers[..|covers| - 1];
    if i < |init| {
      assert init[i] == covers[i];
      assert LastFor(init, i) by {
        forall j | i < j < |init| ensures init[j].albumId != init[i].albumId {
          assert covers[j] == init[j];
        }
      }
      CoverMapLast(init, i);
    }
  }

  /** Every value of the record is the image of some cover for that album. */
  lemma {:induction false} CoverMapTraced(covers: seq<Cover>, k: string)
    requires k in CoverMap(covers)
    ensures FromSomeCover(covers, CoverMap(covers), k)
  {
    var init, c := covers[..|covers| - 1], covers[|covers| - 1];
    if k == c.albumId {
      assert covers[|covers| - 1] == c;
    } else {
      CoverMapTraced(init, k);
      var i :| 0 <= i < |init| && init[i].albumId == k && CoverMap(init)[k] == init[i].imageUrl;
      assert covers[i] == init[i];
    }
  }

  /** The `reduce` that turns the covers into a record: `acc[albumId] = imageUrl`
      for each in turn, so a repeated album id keeps its last cover. */
  method CoverRecord(covers: seq<Cover>) returns (acc: map<string, string>)
    ensures acc == CoverMap(covers)
    ensures acc.Keys == AlbumIds(covers)
    ensures forall i :: LastFor(covers, i) ==> acc[covers[i].albumId] == covers[i].imageUrl
    ensures forall k :: k in acc ==> FromSomeCover(covers, acc, k)
  {
    acc := map[];
    var n := 0;
    while n < |covers|
      invariant 0 <= n <= |covers|
      invariant acc == CoverMap(covers[..n])
    {
      assert covers[..n + 1][..n] == covers[..n];
      acc := acc[covers[n].albumId := covers[n].imageUrl];
      n := n + 1;
    }
    assert covers[..n] == covers;
    CoverMapKeys(covers);
    forall i | LastFor(covers, i) ensures acc[covers[i].albumId] == covers[i].imageUrl {
      CoverMapLast(covers, i);
    }
    forall k | k in acc ensures FromSomeCover(covers, acc, k) {
      CoverMapTraced(covers, k);
    }
  }

  /** `url` is "" or the image of some photo of an album with id `k`. */
  ghost predicate HasCover(albums: seq<Album>, photos: seq<seq<AlbumPhoto>>, k: string, url: string)
    requires |photos| == |albums|
  {
    url == "" ||
    exists i, p :: 0 <= i < |albums| && albums[i].id == k && 0 <= p < |photos[i]| && photos[i][p].imageUrl == Some(url)
  }

  /** The `fetchAlbumPhotos` result once every fetch has answered: one key per
      album id, holding the image of some photo of that album or "" when it has none. */
  method AlbumCovers(albums: seq<Album>, photos: seq<seq<AlbumPhoto>>, picks: seq<nat>)
    returns (covers: map<string, string>)
    requires |photos| == |albums| && |picks| == |albums|
    requires forall i :: 0 <= i < |albums| && |photos[i]| > 0 ==> picks[i] < |photos[i]|
    ensures covers.Keys == set i | 0 <= i < |albums| :: albums[i].id
    ensures forall i :: 0 <= i < |albums| && photos[i] == [] && (forall j :: i < j < |albums| ==> albums[j].id != albums[i].id) ==>
              covers[albums[i].id] == ""
    ensures forall k :: k in covers ==> HasCover(albums, photos, k, covers[k])
  {
    var list := seq(|albums|, i requires 0 <= i < |albums| => Cover(albums[i].id, PickImageUrl(photos[i], picks[i])));
    covers := CoverRecord(list);
    assert forall i :: 0 <= i < |albums| ==> list[i].albumId == albums[i].id;
    assert AlbumIds(list) == set i | 0 <= i < |albums| :: albums[i].id;
    forall i | 0 <= i < |albums| && photos[i] == [] && (forall j :: i < j < |albums| ==> albums[j].id != albums[i].id)
      ensures covers[albums[i].id] == ""
    {
      assert LastFor(list, i);
    }
    forall k | k in covers
      ensures HasCover(albums, photos, k, covers[k])
    {
      assert FromSomeCover(list, covers, k);
      var i :| 0 <= i < |list| && list[i].albumId == k && covers[k] == list[i].imageUrl;
      assert covers[k] == PickImageUrl(photos[i], picks[i]);
    }
  }

  class Users {
    var users: seq<User>
    var userDetails: Option<User>
    var userAlbums: seq<Album>
    var loading: bool
    var error: Option<string>
    var imageLoading: bool
    var albumPhotos: map<string, string>

    function State(): UserState
      reads this
    {
      UserState(users, userDetails, userAlbums, loading, error, imageLoading, albumPhotos)
    }

    constructor ()
      ensures State() == Initial
    {
      users, userDetails, userAlbums, loading, error, imageLoading, albumPhotos := [], None, [], false, None, false, map[];
    }

    /** `resetError`. */
    method ResetError()
      modifies this
      ensures State() == old(State()).(error := None)
    {
      error := None;
    }

    method FetchUsersPending()
      modifies this
      ensures State() == old(State()).(loading := true, error := None)
    {
      loading := true;
      error := None;
    }

    method FetchUsersFulfilled(payload: seq<User>)
      modifies this
      ensures State() == old(State()).(loading := false, users := payload)
    {
      loading := false;
      users := payload;
    }

    /** A rejection without a (truthy) payload gets the action's own message. */
    method FetchUsersRejected(payload: Option<string>)
      modifies this
      ensures State() == old(State()).(loading := false, error := Some(Or(payload, "Failed to fetch users.")))
    {
      loading := false;
      error := Some(Or(payload, "Failed to fetch users."));
    }

    method FetchUserDetailsPending()
      modifies this
      ensures State() == old(State()).(loading := true, error := None, userDetails := None)
    {
      loading := true;
      error := None;
      userDetails := None;
    }

    method FetchUserDetailsFulfilled(payload: User)
      modifies this
      ensures State() == old(State()).(loading := false, userDetails := Some(payload))
    {
      loading := false;
      userDetails := Some(payload);
    }

    method FetchUserDetailsRejected(payload: Option<string>)
      modifies this
      ensures State() == old(State()).(loading := false, userDetails := None,
                                       error := Some(Or(payload, "Failed to fetch user details.")))
    {
      loading := false;
      userDetails := None;
      error := Some(Or(payload, "Failed to fetch user details."));
    }

    method FetchUserAlbumsPending()
      modifies this
      ensures State() == old(State()).(loading := true, error := None, userAlbums := [])
    {
      loading := true;
      error := None;
      userAlbums := [];
    }

    method FetchUserAlbumsFulfilled(payload: seq<Album>)
      modifies this
      ensures State() == old(State()).(loading := false, userAlbums := payload)
    {
      loading := false;
      userAlbums := payload;
    }

    method FetchUserAlbumsRejected(payload: Option<string>)
      modifies this
      ensures State() == old(State()).(loading := false, userAlbums := [],
                                       error := Some(Or(payload, "No albums found for this user.")))
    {
      loading := false;
      userAlbums := [];
      error := Some(Or(payload, "No albums found for this user."));
    }

    /** The album-photo fetch drives `imageLoading`, never `loading`. */
    method FetchAlbumPhotosPending()
      modifies this
      ensures State() == old(State()).(imageLoading := true, error := None)
    {
      imageLoading := true;
      error := None;
    }

    method FetchAlbumPhotosFulfilled(payload: map<string, string>)
      modifies this
      ensures State() == old(State()).(imageLoading := false, albumPhotos := payload)
    {
      imageLoading := false;
      albumPhotos := payload;
    }

    method FetchAlbumPhotosRejected(payload: Option<string>)
      modifies this
      ensures State() == old(State()).(imageLoading := false, albumPhotos := map[],
                                       error := Some(Or(payload, "Failed to fetch album photos.")))
    {
      imageLoading := false;
      albumPhotos := map[];
      error := Some(Or(payload, "Failed to fetch album photos."));
    }
  }
}
