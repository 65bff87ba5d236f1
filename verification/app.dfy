/**
  app.js: the upload middleware's decisions (which files are kept, where and
  under what name) and the final error middleware, together with the path an
  error takes to reach it.
 */
module App {
  import opened Wrappers
  import opened Text
  import opened Helpers

  /** The MIME types the upload filter keeps. */
  const AllowedMimeTypes: set<string> := {"image/png", "image/jpeg", "image/jpg"}

  /** The directory every kept upload is written to. */
  const ImagesDir := "images"

  /** fileFilter: keeps exactly the three image types. */
  function FileFilter(mimetype: string): (keep: bool)
    ensures keep <==> mimetype in AllowedMimeTypes
  {
    mimetype == "image/png" || mimetype == "image/jpeg" || mimetype == "image/jpg"
  }

  /** A file part of a multipart request, as the client sent it. */
  datatype FilePart = FilePart(mimetype: string, originalname: string)

  /** `req.file` once the upload middleware stored a part. */
  datatype UploadedFile = UploadedFile(mimetype: string, destination: string, filename: string, path: string)

  /** The upload middleware for the field `image`. `uuid` is the fresh
      identifier the name is built from; `sep` is the platform's path
      separator that joins directory and name. A part the filter refuses is
      dropped and the request goes on as if no file had been sent. */
  function Upload(part: Option<FilePart>, uuid: string, sep: char): (f: Option<UploadedFile>)
    ensures f.Some? <==> part.Some? && part.value.mimetype in AllowedMimeTypes
    ensures f.Some? ==> f.value.mimetype == part.value.mimetype && f.value.destination == ImagesDir
  {
    match part
    case None => None
    case Some(p) =>
      if FileFilter(p.mimetype) then
        var name := uuid + ".jpg";
        Some(UploadedFile(p.mimetype, ImagesDir, name, ImagesDir + [sep] + name))
      else None
  }

  /** Every kept upload lands in the images directory under `<uuid>.jpg`,
      whatever its type or original name. */
  lemma StoredAsJpg(part: FilePart, uuid: string, sep: char)
    requires part.mimetype in AllowedMimeTypes
    ensures var f := Upload(Some(part), uuid, sep);
      f.Some? && f.value.filename == uuid + ".jpg" && f.value.path == "images" + [sep] + uuid + ".jpg"
  {
  }

  /** Whatever the separator of the platform, the image URL a handler derives
      from a kept upload (first backslash turned into a slash) is
      `images/<uuid>.jpg`. */
  lemma UploadUrl(part: FilePart, uuid: string, sep: char)
    requires part.mimetype in AllowedMimeTypes
    requires sep == '/' || sep == '\\'
    requires '\\' !in uuid
    ensures var f := Upload(Some(part), uuid, sep);
      f.Some? && ReplaceFirst(f.value.path, '\\', '/') == ImagesDir + "/" + uuid + ".jpg"
  {
    var tail := uuid + ".jpg";
    assert '\\' !in ImagesDir;
    JoinedUrl(ImagesDir, sep, tail);
    assert ImagesDir + "/" + tail == ImagesDir + "/" + uuid + ".jpg";
  }

  /** `dir <sep> name` with only the separator possibly a backslash becomes
      `dir/name`. */
  lemma {:induction false} JoinedUrl(dir: string, sep: char, name: string)
    requires sep == '/' || sep == '\\'
    requires '\\' !in dir && '\\' !in name
    ensures ReplaceFirst(dir + [sep] + name, '\\', '/') == dir + "/" + name
  {
    assert dir + [sep] + name == dir + ([sep] + name);
    ReplaceFirstAfter(dir, [sep] + name, '\\', '/');
    if sep == '/' {
      assert '\\' !in [sep] + name;
    } else {
      assert FirstIndex([sep] + name, '\\') == 0;
      assert ([sep] + name)[1..] == name;
    }
    assert dir + ("/" + name) == dir + "/" + name;
  }

  /** A refused type (a GIF, say) stores nothing. */
  lemma OtherTypesDropped(part: FilePart, uuid: string, sep: char)
    requires part.mimetype !in AllowedMimeTypes
    ensures Upload(Some(part), uuid, sep).None?
  {
  }

  /** The JSON error reply: its HTTP status and body `{message, errors}`. */
  datatype Response = Response(status: int, message: string, errors: seq<FieldError>)

  /** The final error middleware: the error's own status when it is set
      (truthy), otherwise 500; message and errors pass through unchanged. */
  function ErrorHandler(statusCode: int, message: string, errors: seq<FieldError>): (resp: Response)
    ensures statusCode == 0 ==> resp.status == 500
    ensures statusCode != 0 ==> resp.status == statusCode
    ensures resp.message == message && resp.errors == errors
  {
    Response(if statusCode != 0 then statusCode else 500, message, errors)
  }

  /** What the client receives for an error a handler raised, as the code is
      written: a synchronous throw reaches the middleware as it is, a
      rejection first passes handleAsyncError. */
  function ClientResponse(e: Thrown, async: bool): (resp: Response)
    ensures resp.message == e.message && resp.errors == e.errors
    ensures async ==> resp.status == 500
    ensures !async ==> resp.status == (if e.statusCode != 0 then e.statusCode else 500)
  {
    var status := if async then AsyncStatus(0, e.statusCode) else e.statusCode;
    ErrorHandler(status, e.message, e.errors)
  }

  /** The same, with handleAsyncError testing the intended field. */
  function IntendedClientResponse(e: Thrown, async: bool): (resp: Response)
    ensures resp.message == e.message && resp.errors == e.errors
    ensures resp.status == (if e.statusCode != 0 then e.statusCode else 500)
  {
    var status := if async then IntendedAsyncStatus(e.statusCode) else e.statusCode;
    ErrorHandler(status, e.message, e.errors)
  }

  /** As written, the reply to a rejection ignores the status the handler
      chose: changing it changes nothing the client sees. */
  lemma AsyncStatusLost(e: Thrown, status: int)
    ensures ClientResponse(e.(statusCode := status), true) == ClientResponse(e, true)
  {
  }

  /** With the field name corrected, rejecting an error and throwing it
      synchronously get the same reply. */
  lemma IntendedKeepsStatus(e: Thrown)
    ensures IntendedClientResponse(e, true) == ClientResponse(e, false)
  {
  }

  /** The two differ exactly on rejections whose handler set a status other
      than 500. */
  lemma {:induction false} TypoChangesExactly(e: Thrown, async: bool)
    ensures ClientResponse(e, async) != IntendedClientResponse(e, async)
      <==> async && e.statusCode != 0 && e.statusCode != 500
  {
    if async && e.statusCode != 0 && e.statusCode != 500 {
      assert ClientResponse(e, async).status == 500;
      assert IntendedClientResponse(e, async).status == e.statusCode;
    }
  }

  /** Runs a raised error through the objects the code uses: for a rejection,
      a fresh Error object goes through handleAsyncError, and the middleware
      answers from what `next` received. */
  method Respond(e: Thrown, async: bool) returns (resp: Response)
    ensures resp == ClientResponse(e, async)
  {
    if !async {
      resp := ErrorHandler(e.statusCode, e.message, e.errors);
    } else {
      var err := new ErrorObject(e);
      var next := new NextCallback();
      var _ := HandleAsyncError(err, next);
      var sent := next.forwarded[|next.forwarded| - 1];
      resp := ErrorHandler(sent.statusCode, sent.message, sent.errors);
    }
  }

  /** The same run with the corrected handleAsyncError. */
  method RespondIntended(e: Thrown, async: bool) returns (resp: Response)
    ensures resp == IntendedClientResponse(e, async)
  {
    if !async {
      resp := ErrorHandler(e.statusCode, e.message, e.errors);
    } else {
      var err := new ErrorObject(e);
      var next := new NextCallback();
      var _ := HandleAsyncErrorIntended(err, next);
      var sent := next.forwarded[|next.forwarded| - 1];
      resp := ErrorHandler(sent.statusCode, sent.message, sent.errors);
    }
  }
}
