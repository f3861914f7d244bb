/** The photo controller: required-field validation and the mapping of the
    media service's outcome to one status and body. The media service itself
    is an input: what it would return, or that it throws. */
module PhotoController {
  import opened Js
  import opened Http

  /** The only statuses the photo handlers send. */
  predicate PhotoStatus<V>(r: Reply<V>) {
    r.Json? && (r.status == 200 || r.status == 400 || r.status == 500)
  }

  /** All three upload fields are truthy. */
  predicate UploadFieldsPresent(imagePath: Option<string>, albumId: Option<string>, title: Option<string>) {
    Truthy(imagePath) && Truthy(albumId) && Truthy(title)
  }

  /** `uploadPhoto`. `upload` is what `uploadImage` resolves to (a public id, or
      `undefined` when the upload failed), or its exception. `called` says
      whether the service was called. */
  method UploadPhoto(imagePath: Option<string>, albumId: Option<string>, title: Option<string>,
                     upload: Try<Option<string>>)
    returns (reply: Reply<string>, called: bool)
    ensures PhotoStatus(reply)
    ensures called <==> UploadFieldsPresent(imagePath, albumId, title)
    ensures !called ==> reply == Json(400, ErrorBody("Image path, album ID, and title are required"))
    ensures called && upload.Ok? && Truthy(upload.value) ==>
              reply == Json(200, UploadedBody("Photo uploaded and saved successfully", upload.value.value))
    ensures called && !(upload.Ok? && Truthy(upload.value)) ==>
              reply == Json(500, ErrorBody("Failed to upload and save photo"))
  {
    if !UploadFieldsPresent(imagePath, albumId, title) {
      return Json(400, ErrorBody("Image path, album ID, and title are required")), false;
    }
    called := true;
    match upload
    case Threw(_) =>
      reply := Json(500, ErrorBody("Failed to upload and save photo"));
    case Ok(publicId) =>
      if Truthy(publicId) {
        reply := Json(200, UploadedBody("Photo uploaded and saved successfully", publicId.value));
      } else {
        reply := Json(500, ErrorBody("Failed to upload and save photo"));
      }
  }

  /** `getImageColors`. `colors` is what `getAssetInfo` resolves to, or its exception. */
  method GetImageColors<C>(publicId: Option<string>, colors: Try<C>) returns (reply: Reply<C>, called: bool)
    ensures PhotoStatus(reply)
    ensures called <==> Truthy(publicId)
    ensures !called ==> reply == Json(400, ErrorBody("Public ID is required"))
    ensures called && colors.Ok? ==> reply == Json(200, ColorsBody(colors.value))
    ensures called && colors.Threw? ==> reply == Json(500, ErrorBody("Failed to get image colors"))
  {
    if !Truthy(publicId) {
      return Json(400, ErrorBody("Public ID is required")), false;
    }
    called := true;
    if colors.Threw? {
      return Json(500, ErrorBody("Failed to get image colors")), called;
    }
    reply := Json(200, ColorsBody(colors.value));
  }

  /** All three image-tag fields are truthy. */
  predicate TagFieldsPresent(publicId: Option<string>, effectColor: Option<string>, backgroundColor: Option<string>) {
    Truthy(publicId) && Truthy(effectColor) && Truthy(backgroundColor)
  }

  /** `createImageTag`. `tag` is what the service's `createImageTag` returns, or its exception. */
  method CreateImageTag(publicId: Option<string>, effectColor: Option<string>, backgroundColor: Option<string>,
                        tag: Try<string>)
    returns (reply: Reply<string>, called: bool)
    ensures PhotoStatus(reply)
    ensures called <==> TagFieldsPresent(publicId, effectColor, backgroundColor)
    ensures !called ==>
              reply == Json(400, ErrorBody("Public ID, effect color, and background color are required"))
    ensures called && tag.Ok? ==> reply == Json(200, ImageTagBody(tag.value))
    ensures called && tag.Threw? ==> reply == Json(500, ErrorBody("Failed to create image tag"))
  {
    if !TagFieldsPresent(publicId, effectColor, backgroundColor) {
      return Json(400, ErrorBody("Public ID, effect color, and background color are required")), false;
    }
    called := true;
    if tag.Threw? {
      return Json(500, ErrorBody("Failed to create image tag")), called;
    }
    reply := Json(200, ImageTagBody(tag.value));
  }
}
