/** The older albums reducer (`reducers/albumSlice.ts`), the one the store
    registers under `albums`; its albums are untyped, so the element type is
    a parameter. */
module LegacyAlbumSlice {
  import opened Js

  datatype LegacyAlbumState<A> = LegacyAlbumState(albums: seq<A>, loading: bool, error: Option<string>)

  class LegacyAlbums<A> {
    var albums: seq<A>
    var loading: bool
    var error: Option<string>

    function State(): LegacyAlbumState<A>
      reads this
    {
      LegacyAlbumState(albums, loading, error)
    }

    constructor ()
      ensures State() == LegacyAlbumState([], false, None)
    {
      albums, loading, error := [], false, None;
    }

    method FetchAlbumsPending()
      modifies this
      ensures State() == old(State()).(loading := true, error := None)
    {
      loading := true;
      error := None;
    }

    method FetchAlbumsFulfilled(payload: seq<A>)
      modifies this
      ensures State() == old(State()).(loading := false, albums := payload)
    {
      loading := false;
      albums := payload;
    }

    method FetchAlbumsRejected(payload: Option<string>)
      modifies this
      ensures State() == old(State()).(loading := false, error := payload)
    {
      loading := false;
      error := payload;
    }
  }

  /** A failed refresh keeps the albums of the last successful fetch. */
  method FailedRefreshKeepsAlbums<A>(fetched: seq<A>, reason: string) returns (s: LegacyAlbumState<A>)
    ensures s == LegacyAlbumState(fetched, false, Some(reason))
  {
    var a := new LegacyAlbums<A>();
    a.FetchAlbumsPending();
    a.FetchAlbumsFulfilled(fetched);
    a.FetchAlbumsPending();
    a.FetchAlbumsRejected(Some(reason));
    s := a.State();
  }
}
