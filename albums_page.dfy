/** The albums page's create-album form (`components/Albums.tsx`): up to
    three chosen files with one preview each, the submit guard and the reset
    after a successful create. The file type is a parameter. */
module AlbumsPage {
  import opened Js

  const MaxPhotos := 3
  const TooManyPhotos := "You can only upload a maximum of 3 photos."
  const NotLoggedIn := "User not found. Please login."
  const AlbumAdded := "Album has been successfully added!"

  /** `s.filter((_, i) => i !== index)`. */
  function DropIndex<T>(s: seq<T>, index: int): (r: seq<T>)
    ensures |r| == if 0 <= index < |s| then |s| - 1 else |s|
  {
    if s == [] then []
    else if index == 0 then DropIndex(s[1..], index - 1)
    else [s[0]] + DropIndex(s[1..], index - 1)
  }

  /** Dropping an index in range removes exactly that element and keeps the
      others in order; an index out of range changes nothing. */
  lemma {:induction false} DropIndexSlices<T>(s: seq<T>, index: int)
    ensures 0 <= index < |s| ==> DropIndex(s, index) == s[..index] + s[index + 1..]
    ensures !(0 <= index < |s|) ==> DropIndex(s, index) == s
  {
    if s != [] {
      DropIndexSlices(s[1..], index - 1);
      if index == 0 {
        assert s[1..] == s[..0] + s[1..];
      } else if 0 < index < |s| {
        assert s[1..][..index - 1] == s[1..index];
        assert [s[0]] + s[1..index] == s[..index];
        assert s[1..][index..] == s[index + 1..];
      } else {
        assert [s[0]] + s[1..] == s;
      }
    }
  }

  /** What the form submits: the title, the email as user id, and the files. */
  datatype NewAlbum<F> = NewAlbum(title: string, userId: string, files: seq<F>)

  datatype FormState<F> = FormState(
    isModalOpen: bool,
    albumTitle: string,
    albumPhotos: seq<F>,
    photoPreviews: seq<string>,
    isSubmitting: bool,
    toastMessage: Option<string>)

  class Form<F> {
    var isModalOpen: bool
    var albumTitle: string
    var albumPhotos: seq<F>
    var photoPreviews: seq<string>
    var isSubmitting: bool
    var toastMessage: Option<string>

    function State(): FormState<F>
      reads this
    {
      FormState(isModalOpen, albumTitle, albumPhotos, photoPreviews, isSubmitting, toastMessage)
    }

    /** One preview per chosen file, and never more than three files. */
    ghost predicate Valid()
      reads this
    {
      |albumPhotos| == |photoPreviews| <= MaxPhotos
    }

    constructor ()
      ensures Valid()
      ensures State() == FormState(false, "", [], [], false, None)
    {
      isModalOpen, albumTitle, albumPhotos, photoPreviews, isSubmitting, toastMessage := false, "", [], [], false, None;
    }

    method ToggleModal()
      modifies this
      ensures State() == old(State()).(isModalOpen := !old(isModalOpen))
    {
      isModalOpen := !isModalOpen;
    }

    method SetAlbumTitle(title: string)
      modifies this
      ensures State() == old(State()).(albumTitle := title)
    {
      albumTitle := title;
    }

    /** `handlePhotoChange`: `files` is the input's file list (absent when
        nothing was chosen) and `urls` the object URLs made for them. Going
        over three photos alerts and changes nothing. */
    method HandlePhotoChange(files: Option<seq<F>>, urls: seq<string>) returns (alert: Option<string>)
      requires Valid()
      requires |urls| == if files.Some? then |files.value| else 0
      modifies this
      ensures Valid()
      ensures var chosen := if files.Some? then files.value else [];
              if |chosen| + |old(albumPhotos)| > MaxPhotos then
                alert == Some(TooManyPhotos) && State() == old(State())
              else
                alert == None &&
                State() == old(State()).(albumPhotos := old(albumPhotos) + chosen, photoPreviews := old(photoPreviews) + urls)
    {
      var chosen := if files.Some? then files.value else [];
      if |chosen| + |albumPhotos| > MaxPhotos {
        return Some(TooManyPhotos);
      }
      albumPhotos := albumPhotos + chosen;
      photoPreviews := photoPreviews + urls;
      alert := None;
    }

    /** The remove button of the preview at `index` drops that index from both lists. */
    method RemovePhoto(index: int)
      requires Valid()
      modifies this
      ensures Valid()
      ensures State() == old(State()).(photoPreviews := DropIndex(old(photoPreviews), index),
                                       albumPhotos := DropIndex(old(albumPhotos), index))
    {
      photoPreviews := DropIndex(photoPreviews, index);
      albumPhotos := DropIndex(albumPhotos, index);
    }

    /** `handleAddAlbum` up to the dispatch: without a session or an email it
        alerts and dispatches nothing; otherwise it stays submitting and
        returns the album to create. */
    method HandleAddAlbum(isAuthenticated: bool, email: Option<string>) returns (alert: Option<string>, request: Option<NewAlbum<F>>)
      requires Valid()
      modifies this
      ensures Valid()
      ensures !isAuthenticated || !Truthy(email) ==>
                alert == Some(NotLoggedIn) && request == None && State() == old(State()).(isSubmitting := false)
      ensures isAuthenticated && Truthy(email) ==>
                alert == None && request == Some(NewAlbum(old(albumTitle), email.value, old(albumPhotos))) &&
                State() == old(State()).(isSubmitting := true)
    {
      isSubmitting := true;
      if !isAuthenticated || !Truthy(email) {
        alert := Some(NotLoggedIn);
        isSubmitting := false;
        return alert, None;
      }
      alert := None;
      request := Some(NewAlbum(albumTitle, email.value, albumPhotos));
    }

    /** The create resolved: show the toast, toggle the modal as it was when
        the form was submitted (`openAtSubmit`), clear the form and stop submitting. */
    method AddAlbumSucceeded(openAtSubmit: bool)
      modifies this
      ensures Valid()
      ensures State() == FormState(!openAtSubmit, "", [], [], false, Some(AlbumAdded))
    {
      toastMessage := Some(AlbumAdded);
      isModalOpen := !openAtSubmit;
      albumTitle := "";
      albumPhotos := [];
      photoPreviews := [];
      isSubmitting := false;
    }

    /** The create rejected: only submitting stops; the form keeps its contents. */
    method AddAlbumFailed()
      requires Valid()
      modifies this
      ensures Valid()
      ensures State() == old(State()).(isSubmitting := false)
    {
      isSubmitting := false;
    }

    /** The toast's timer ran out. */
    method ClearToast()
      requires Valid()
      modifies this
      ensures Valid()
      ensures State() == old(State()).(toastMessage := None)
    {
      toastMessage := None;
    }
  }

  /** Choosing two files and then two more alerts the second time and keeps
      the first two; removing the first keeps the second with its preview. */
  method CapThenRemove<F>(a: F, b: F, c: F, d: F) returns (alert: Option<string>, photos: seq<F>, previews: seq<string>)
    ensures alert == Some(TooManyPhotos)
    ensures photos == [b] && previews == ["url-b"]
  {
    var form := new Form<F>();
    var first := form.HandlePhotoChange(Some([a, b]), ["url-a", "url-b"]);
    alert := form.HandlePhotoChange(Some([c, d]), ["url-c", "url-d"]);
    form.RemovePhoto(0);
    DropIndexSlices([a, b], 0);
    DropIndexSlices(["url-a", "url-b"], 0);
    photos, previews := form.albumPhotos, form.photoPreviews;
  }
}
