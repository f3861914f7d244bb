/** The album controller: each handler awaits one album-service call and maps
    its outcome (a value, `null`, or an exception) to one status and body.
    `A` is the type of the album records the service returns. */
module AlbumController {
  import opened Js
  import opened Http

  /** `getAlbums`: 200 with the list, or 500. */
  method GetAlbums<A>(albums: Try<seq<A>>) returns (reply: Reply<seq<A>>)
    ensures albums.Ok? ==> reply == Json(200, ValueBody(albums.value))
    ensures albums.Threw? ==> reply == Json(500, ErrorBody("Failed to fetch albums"))
  {
    if albums.Threw? {
      return Json(500, ErrorBody("Failed to fetch albums"));
    }
    reply := Json(200, ValueBody(albums.value));
  }

  /** `getAlbumById`: 404 for `null`, checked before the 200 branch; 500 on an exception. */
  method GetAlbumById<A>(album: Outcome<A>) returns (reply: Reply<A>)
    ensures album.Null? ==> reply == Json(404, ErrorBody("Album not found"))
    ensures album.Value? ==> reply == Json(200, ValueBody(album.value))
    ensures album.Throw? ==> reply == Json(500, ErrorBody("Failed to fetch album"))
  {
    match album
    case Throw(_) =>
      return Json(500, ErrorBody("Failed to fetch album"));
    case Null =>
      return Json(404, ErrorBody("Album not found"));
    case Value(a) =>
      reply := Json(200, ValueBody(a));
  }

  /** `createAlbum`: 201 with the created album, or 500. */
  method CreateAlbum<A>(created: Try<A>) returns (reply: Reply<A>)
    ensures created.Ok? ==> reply == Json(201, ValueBody(created.value))
    ensures created.Threw? ==> reply == Json(500, ErrorBody("Failed to create album"))
  {
    if created.Threw? {
      return Json(500, ErrorBody("Failed to create album"));
    }
    reply := Json(201, ValueBody(created.value));
  }

  /** `updateAlbum`: 404 for `null`, 200 with the updated album, 500 on an exception. */
  method UpdateAlbum<A>(updated: Outcome<A>) returns (reply: Reply<A>)
    ensures updated.Null? ==> reply == Json(404, ErrorBody("Album not found"))
    ensures updated.Value? ==> reply == Json(200, ValueBody(updated.value))
    ensures updated.Throw? ==> reply == Json(500, ErrorBody("Failed to update album"))
  {
    match updated
    case Throw(_) =>
      return Json(500, ErrorBody("Failed to update album"));
    case Null =>
      return Json(404, ErrorBody("Album not found"));
    case Value(a) =>
      reply := Json(200, ValueBody(a));
  }

  /** `deleteAlbum`: 404 for `null`; otherwise a confirmation, not the deleted record; 500 on an exception. */
  method DeleteAlbum<A>(deleted: Outcome<A>) returns (reply: Reply<A>)
    ensures deleted.Null? ==> reply == Json(404, ErrorBody("Album not found"))
    ensures deleted.Value? ==> reply == Json(200, MessageBody("Album deleted successfully"))
    ensures deleted.Throw? ==> reply == Json(500, ErrorBody("Failed to delete album"))
  {
    match deleted
    case Throw(_) =>
      return Json(500, ErrorBody("Failed to delete album"));
    case Null =>
      return Json(404, ErrorBody("Album not found"));
    case Value(_) =>
      reply := Json(200, MessageBody("Album deleted successfully"));
  }
}
