/** The photo slice (`slices/photoSlice.ts`): the photo list, the selected
    photo, and the fetch/update/delete transitions. */
module PhotoSlice {
  import opened Js

  datatype Photo = Photo(id: string, title: string, imageUrl: string)

  datatype PhotoState = PhotoState(
    photos: seq<Photo>,
    selectedPhoto: Option<Photo>,
    loading: bool,
    error: Option<string>)

  const Initial: PhotoState := PhotoState([], None, false, None)

  /** `k` is the first position holding a photo with that id. */
  predicate FirstWithId(photos: seq<Photo>, id: string, k: int) {
    0 <= k < |photos| && photos[k].id == id && forall j :: 0 <= j < k ==> photos[j].id != id
  }

  /** `photos.findIndex(p => p.id === id)`: the first matching position, or -1. */
  method FindIndex(photos: seq<Photo>, id: string) returns (index: int)
    ensures -1 <= index < |photos|
    ensures index == -1 <==> forall j :: 0 <= j < |photos| ==> photos[j].id != id
    ensures index >= 0 ==> FirstWithId(photos, id, index)
  {
    var i := 0;
    while i < |photos|
      invariant 0 <= i <= |photos|
      invariant forall j :: 0 <= j < i ==> photos[j].id != id
    {
      if photos[i].id == id {
        return i;
      }
      i := i + 1;
    }
    return -1;
  }

  /** `photos.filter(p => p.id !== id)`, where `id` is absent when the payload had none. */
  function Without(photos: seq<Photo>, id: Option<string>): seq<Photo> {
    if |photos| == 0 then []
    else (if Some(photos[0].id) == id then [] else [photos[0]]) + Without(photos[1..], id)
  }

  /** A photo survives exactly when it was there and does not have the id. */
  lemma {:induction false} WithoutMembers(photos: seq<Photo>, id: Option<string>, p: Photo)
    ensures p in Without(photos, id) <==> p in photos && Some(p.id) != id
  {
    if |photos| > 0 {
      WithoutMembers(photos[1..], id, p);
      assert photos == [photos[0]] + photos[1..];
    }
  }

  /** Filtering distributes over concatenation, so the survivors keep their order. */
  lemma {:induction false} WithoutAppend(a: seq<Photo>, b: seq<Photo>, id: Option<string>)
    ensures Without(a + b, id) == Without(a, id) + Without(b, id)
  {
    if |a| > 0 {
      WithoutAppend(a[1..], b, id);
      assert (a + b)[1..] == a[1..] + b;
    } else {
      assert a + b == b;
    }
  }

  /** No photo has the id: nothing is removed. */
  lemma {:induction false} WithoutAbsent(photos: seq<Photo>, id: Option<string>)
    requires forall j :: 0 <= j < |photos| ==> Some(photos[j].id) != id
    ensures Without(photos, id) == photos
  {
    if |photos| > 0 {
      WithoutAbsent(photos[1..], id);
      assert photos == [photos[0]] + photos[1..];
    }
  }

  /** Deleting the same id twice is deleting it once. */
  lemma WithoutIdempotent(photos: seq<Photo>, id: Option<string>)
    ensures Without(Without(photos, id), id) == Without(photos, id)
  {
    var once := Without(photos, id);
    forall j | 0 <= j < |once| ensures Some(once[j].id) != id {
      WithoutMembers(photos, id, once[j]);
    }
    WithoutAbsent(once, id);
  }

  class Photos {
    var photos: seq<Photo>
    var selectedPhoto: Option<Photo>
    var loading: bool
    var error: Option<string>

    function State(): PhotoState
      reads this
    {
      PhotoState(photos, selectedPhoto, loading, error)
    }

    constructor ()
      ensures State() == Initial
    {
      photos, selectedPhoto, loading, error := [], None, false, None;
    }

    /** `setPhotos`: replace the list, touch nothing else. */
    method SetPhotos(payload: seq<Photo>)
      modifies this
      ensures State() == old(State()).(photos := payload)
    {
      photos := payload;
    }

    /** The three `pending` cases: loading starts, the old error is kept. */
    method Pending()
      modifies this
      ensures State() == old(State()).(loading := true)
    {
      loading := true;
    }

    /** The three `rejected` cases. */
    method Rejected(payload: string)
      modifies this
      ensures State() == old(State()).(loading := false, error := Some(payload))
    {
      loading := false;
      error := Some(payload);
    }

    /** `fetchPhotoById.fulfilled`: only the selected photo changes. */
    method FetchPhotoByIdFulfilled(payload: Photo)
      modifies this
      ensures State() == old(State()).(loading := false, selectedPhoto := Some(payload))
    {
      loading := false;
      selectedPhoto := Some(payload);
    }

    /** `updatePhotoTitle.fulfilled`: the first photo with the payload's id is
        replaced in place; with no such photo the list is unchanged. */
    method UpdatePhotoTitleFulfilled(updated: Photo)
      modifies this
      ensures State().(photos := old(photos)) == old(State()).(loading := false)
      ensures |photos| == |old(photos)|
      ensures (forall j :: 0 <= j < |old(photos)| ==> old(photos)[j].id != updated.id) ==> photos == old(photos)
      ensures forall k :: FirstWithId(old(photos), updated.id, k) ==> photos == old(photos)[k := updated]
    {
      loading := false;
      var index := FindIndex(photos, updated.id);
      if index != -1 {
        photos := photos[index := updated];
      }
    }

    /** `deletePhoto.fulfilled`: every photo with the payload's id goes, the rest stay in order. */
    method DeletePhotoFulfilled(payloadId: Option<string>)
      modifies this
      ensures State() == old(State()).(loading := false, photos := Without(old(photos), payloadId))
      ensures forall p :: p in photos <==> p in old(photos) && Some(p.id) != payloadId
    {
      loading := false;
      photos := Without(photos, payloadId);
      forall p ensures p in photos <==> p in old(photos) && Some(p.id) != payloadId {
        WithoutMembers(old(photos), payloadId, p);
      }
    }
  }
}
