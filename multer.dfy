/** The upload middleware's pure parts: the MIME-type filter and the storage
    parameters computed from the MIME type. */
module Multer {
  import opened Js

  /** The only MIME types the filter lets through. */
  const AllowedTypes: seq<string> := ["image/jpeg", "image/png"]

  const InvalidTypeMessage: string := "Invalid file type. Only JPEG and PNG are allowed."

  /** What the filter passes to its callback: `cb(null, true)`, or `cb(error, false)`. */
  datatype Verdict = Accept | Reject(error: string)

  /** `fileFilter`. */
  function FileFilter(mimetype: string): (v: Verdict)
    ensures v == Accept <==> mimetype == "image/jpeg" || mimetype == "image/png"
    ensures v != Accept ==> v == Reject(InvalidTypeMessage)
  {
    if mimetype in AllowedTypes then Accept else Reject(InvalidTypeMessage)
  }

  /** `s.split(sep)` for a one-character separator: the pieces between
      separators, empty pieces included. */
  function Split(s: string, sep: char): (parts: seq<string>)
    ensures |parts| >= 1
    ensures forall i :: 0 <= i < |parts| ==> sep !in parts[i]
    decreases |s|
  {
    if |s| == 0 then [""]
    else
      var rest := Split(s[1..], sep);
      if s[0] == sep then [""] + rest else [[s[0]] + rest[0]] + rest[1..]
  }

  /** `parts.join(sep)`. */
  function Join(parts: seq<string>, sep: char): string
    requires |parts| >= 1
  {
    if |parts| == 1 then parts[0] else parts[0] + [sep] + Join(parts[1..], sep)
  }

  /** Joining the pieces gives back the string: `split` loses nothing. */
  lemma {:induction false} JoinSplit(s: string, sep: char)
    ensures Join(Split(s, sep), sep) == s
    decreases |s|
  {
    if |s| > 0 {
      var rest := Split(s[1..], sep);
      JoinSplit(s[1..], sep);
      if s[0] == sep {
        assert Split(s, sep)[1..] == rest;
        assert s == [sep] + s[1..];
      } else {
        var parts := Split(s, sep);
        if |rest| == 1 {
          assert s == [s[0]] + s[1..];
        } else {
          assert parts[1..] == rest[1..];
          assert Join(parts, sep) == [s[0]] + rest[0] + [sep] + Join(rest[1..], sep);
          assert s == [s[0]] + s[1..];
        }
      }
    }
  }

  /** Splitting a string that starts with a non-separator puts that character
      at the front of the first piece. */
  lemma SplitCons(c: char, s: string, sep: char)
    requires c != sep
    ensures Split([c] + s, sep) == [[c] + Split(s, sep)[0]] + Split(s, sep)[1..]
  {
    assert ([c] + s)[1..] == s;
  }

  /** Splitting a string that starts with the separator starts with an empty piece. */
  lemma SplitSep(s: string, sep: char)
    ensures Split([sep] + s, sep) == [""] + Split(s, sep)
  {
    assert ([sep] + s)[1..] == s;
  }

  /** Splitting a join of separator-free pieces gives back the pieces. */
  lemma {:induction false} SplitJoin(parts: seq<string>, sep: char)
    requires |parts| >= 1
    requires forall i :: 0 <= i < |parts| ==> sep !in parts[i]
    ensures Split(Join(parts, sep), sep) == parts
    decreases |parts|, |parts[0]|
  {
    if |parts[0]| > 0 {
      var head := parts[0];
      var shorter := [head[1..]] + parts[1..];
      assert forall i :: 0 <= i < |shorter| ==> sep !in shorter[i] by {
        forall i | 0 <= i < |shorter| ensures sep !in shorter[i] {
          if i == 0 { assert forall c :: c in head[1..] ==> c in head; }
          else { assert shorter[i] == parts[i]; }
        }
      }
      SplitJoin(shorter, sep);
      assert Join(parts, sep) == [head[0]] + Join(shorter, sep) by {
        if |parts| > 1 {
          assert shorter[1..] == parts[1..];
        }
        assert head == [head[0]] + head[1..];
      }
      assert head[0] != sep by { assert head[0] in head; }
      SplitCons(head[0], Join(shorter, sep), sep);
      assert [head[0]] + head[1..] == head;
      assert [head] + parts[1..] == parts;
    } else if |parts| > 1 {
      var tail := parts[1..];
      assert forall i :: 0 <= i < |tail| ==> sep !in tail[i] by {
        forall i | 0 <= i < |tail| ensures sep !in tail[i] { assert tail[i] == parts[i + 1]; }
      }
      SplitJoin(tail, sep);
      assert Join(parts, sep) == [sep] + Join(tail, sep);
      SplitSep(Join(tail, sep), sep);
      assert parts == [""] + tail;
    }
  }

  /** The storage parameters; `format` is absent when the MIME type has no `/`.
      The public id (a timestamp and the original file name) is not modelled. */
  datatype UploadParams = UploadParams(folder: string, format: Option<string>)

  /** `params`: the folder is fixed, the format is `mimetype.split("/")[1]`. */
  function Params(mimetype: string): (p: UploadParams)
    ensures p.folder == "uploads"
    ensures p.format.Some? ==> '/' !in p.format.value
  {
    var parts := Split(mimetype, '/');
    UploadParams("uploads", if |parts| > 1 then Some(parts[1]) else None)
  }

  /** For `type/subtype` with no other `/`, the format is the subtype; a type
      with no `/` at all has no format. */
  lemma FormatOfMime(mediaType: string, subtype: string)
    requires '/' !in mediaType && '/' !in subtype
    ensures Params(mediaType + "/" + subtype).format == Some(subtype)
    ensures Params(mediaType).format == None
  {
    SplitJoin([mediaType, subtype], '/');
    assert Join([mediaType, subtype], '/') == mediaType + "/" + subtype by {
      assert Join([mediaType, subtype], '/') == mediaType + ['/'] + Join([subtype], '/');
    }
    SplitJoin([mediaType], '/');
  }

  /** Every file the filter accepts is stored as `jpeg` or `png`. */
  lemma AcceptedFormats(mimetype: string)
    requires FileFilter(mimetype) == Accept
    ensures Params(mimetype).format == Some("jpeg") || Params(mimetype).format == Some("png")
  {
    if mimetype == "image/jpeg" {
      assert mimetype == "image" + "/" + "jpeg";
      FormatOfMime("image", "jpeg");
    } else {
      assert mimetype == "image" + "/" + "png";
      FormatOfMime("image", "png");
    }
  }
}
