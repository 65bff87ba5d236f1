/**
  utils/helpers.js: the validation gate every mutating handler runs first,
  the rewrite that every promise rejection goes through on its way to the
  error middleware, and the best-effort removal of an image file.
 */
module Helpers {
  import opened Wrappers

  /** One entry of the list express-validator records on a request. */
  datatype FieldError = FieldError(location: string, param: string, value: string, msg: string)

  /** A JavaScript Error as a handler throws it. A `statusCode` of 0 stands
      for a field that was never set, which JavaScript reads as falsy; an
      empty `errors` stands for an unset `errors` field. */
  datatype Thrown = Thrown(message: string, statusCode: int, errors: seq<FieldError>)

  /** How a handler ends: it answers (`Done`, with the HTTP status it sends),
      it throws before its first promise (`SyncThrow`, which Express hands to
      the error middleware as it is), or one of its promises rejects and the
      `.catch` hands the error to handleAsyncError (`AsyncReject`). */
  datatype Outcome<+T> = Done(status: int, value: T) | SyncThrow(error: Thrown) | AsyncReject(error: Thrown)

  const ValidationFailedMessage := "Validation failed. Check the errors to see more details."

  /** throwErrorIfInvalid: returns (None) exactly when no validator recorded an
      error; otherwise the error it throws, status 400, carrying the whole
      list in order. */
  function ThrowErrorIfInvalid(errors: seq<FieldError>): (r: Option<Thrown>)
    ensures r.None? <==> errors == []
    ensures r.Some? ==> r.value.statusCode == 400 && r.value.message == ValidationFailedMessage
    ensures r.Some? ==> r.value.errors == errors
  {
    if errors == [] then None else Some(Thrown(ValidationFailedMessage, 400, errors))
  }

  /** A thrown Error once it is an object that later code mutates. */
  class ErrorObject {
    var message: string
    var statusCode: int
    /** The misspelled field handleAsyncError reads. No code ever assigns
        it, so it is always unset (0). */
    var sttatusCode: int
    var errors: seq<FieldError>

    constructor (thrown: Thrown)
      ensures message == thrown.message && statusCode == thrown.statusCode
      ensures sttatusCode == 0 && errors == thrown.errors
    {
      message := thrown.message;
      statusCode := thrown.statusCode;
      sttatusCode := 0;
      errors := thrown.errors;
    }
  }

  /** Express's `next` callback; it remembers every error passed to it. */
  class NextCallback {
    var forwarded: seq<ErrorObject>

    constructor ()
      ensures forwarded == []
    {
      forwarded := [];
    }
  }

  /** Whether handleAsyncError managed to call `next`. */
  datatype Forwarding = Forwarded | NextNotCallable

  /** The status handleAsyncError leaves on an error, as written: it tests the
      misspelled field, so an unset `sttatusCode` forces 500 whatever
      `statusCode` held. */
  function AsyncStatus(sttatusCode: int, statusCode: int): (s: int)
    ensures sttatusCode == 0 ==> s == 500
    ensures sttatusCode != 0 ==> s == statusCode
  {
    if sttatusCode == 0 then 500 else statusCode
  }

  /** The status handleAsyncError would leave if it tested `statusCode`: a
      status set by the handler survives, an unset one becomes 500. */
  function IntendedAsyncStatus(statusCode: int): (s: int)
    ensures statusCode == 0 ==> s == 500
    ensures statusCode != 0 ==> s == statusCode
  {
    if statusCode == 0 then 500 else statusCode
  }

  /** handleAsyncError as written: rewrites the status in place, then passes
      the same object to `next` once. When the caller gave no `next`, the
      call `next(err)` itself fails and nothing is forwarded. */
  method HandleAsyncError(err: ErrorObject, next: NextCallback?) returns (f: Forwarding)
    modifies err, next
    ensures err.statusCode == AsyncStatus(old(err.sttatusCode), old(err.statusCode))
    ensures err.message == old(err.message) && err.sttatusCode == old(err.sttatusCode)
    ensures err.errors == old(err.errors)
    ensures next != null ==> f == Forwarded && next.forwarded == old(next.forwarded) + [err]
    ensures next == null ==> f == NextNotCallable
  {
    if err.sttatusCode == 0 {
      err.statusCode := 500;
    }
    if next == null {
      f := NextNotCallable;
    } else {
      next.forwarded := next.forwarded + [err];
      f := Forwarded;
    }
  }

  /** handleAsyncError with the field name spelt as intended. */
  method HandleAsyncErrorIntended(err: ErrorObject, next: NextCallback?) returns (f: Forwarding)
    modifies err, next
    ensures err.statusCode == IntendedAsyncStatus(old(err.statusCode))
    ensures err.message == old(err.message) && err.sttatusCode == old(err.sttatusCode)
    ensures err.errors == old(err.errors)
    ensures next != null ==> f == Forwarded && next.forwarded == old(next.forwarded) + [err]
    ensures next == null ==> f == NextNotCallable
  {
    if err.statusCode == 0 {
      err.statusCode := 500;
    }
    if next == null {
      f := NextNotCallable;
    } else {
      next.forwarded := next.forwarded + [err];
      f := Forwarded;
    }
  }

  /** The file system as clearImage sees it: the project root (the parent of
      the utils directory) and the log of every path handed to unlink. */
  class Disk {
    const root: string
    ghost var unlinked: seq<string>

    constructor (root: string)
      ensures this.root == root && unlinked == []
    {
      this.root := root;
      unlinked := [];
    }
  }

  /** path.join(<root>/utils, '..', filePath) for a stored relative path. */
  function ResolveFromRoot(root: string, filePath: string): (p: string)
    ensures |p| == |root| + 1 + |filePath|
    ensures p[..|root|] == root && p[|root|] == '/' && p[|root| + 1..] == filePath
  {
    root + "/" + filePath
  }

  /** clearImage: resolves the stored path against the project root and asks
      for it to be unlinked. A failed unlink is only logged, so nothing comes
      back to the caller. */
  method ClearImage(disk: Disk, filePath: string)
    modifies disk
    ensures disk.unlinked == old(disk.unlinked) + [ResolveFromRoot(disk.root, filePath)]
  {
    disk.unlinked := disk.unlinked + [ResolveFromRoot(disk.root, filePath)];
  }
}
