/**
 * `cookie::Cookie<S>`: the public session over one native handle, with its
 * two stages (`Open`: no database loaded yet; `Load`: a database loaded),
 * the typed errors of its operations, and the guarantee that the native
 * handle is closed exactly once, by the one value that owns it.
 *
 * The stage, a phantom type parameter in the crate, is a field here; the
 * operations that exist only for `Cookie<Load>` require `stage == Stage.Load`.
 * A value whose handle was moved on (the `ManuallyDrop` of a successful
 * load) or that was dropped is `moved`; no operation accepts it any more.
 */
module Cookie {
  import opened Wrappers
  import opened CTypes
  import opened Flags
  import opened DatabasePaths
  import MagicFfi

  datatype Stage = Open | Load

  // ---------------------------------------------------------------------------
  // Errors
  // ---------------------------------------------------------------------------

  /** `Error`: the failing primitive's name and the detail from the last-error slot. */
  datatype Error = Error(functionName: string, source: MagicFfi.CookieError)

  /** `LoadError<S>`: like `Error`, and it hands the untouched session back. */
  datatype LoadError = LoadError(functionName: string, source: MagicFfi.CookieError, cookie: Cookie)

  /** `SetFlagsError`. */
  datatype SetFlagsError = SetFlagsError(flags: Flags, source: MagicFfi.SetFlagsError)

  datatype OpenErrorKind = UnsupportedFlags | Errno

  /** `OpenError`: the flags asked for, how the failure is classified, and the native error. */
  datatype OpenError = OpenError(flags: Flags, kind: OpenErrorKind, source: MagicFfi.OpenError)

  /** The part of `std::io::ErrorKind` the classification looks at. */
  datatype ErrorKind = InvalidInput | Other

  /** `EINVAL`, the OS error number that `std::io::Error::kind` reports as `InvalidInput`. */
  const EINVAL: int := 22

  function ErrorKindOf(errno: int): ErrorKind
  {
    if errno == EINVAL then InvalidInput else Other
  }

  /** The `OpenError` built from a failed native open: `UnsupportedFlags` exactly for an invalid-input errno. */
  function OpenFailure(flags: Flags, err: MagicFfi.OpenError): (e: OpenError)
    ensures e.flags == flags && e.source == err
    ensures e.kind == UnsupportedFlags <==> err.errno == EINVAL
    ensures e.kind == Errno <==> err.errno != EINVAL
  {
    OpenError(flags, match ErrorKindOf(err.errno) { case InvalidInput => UnsupportedFlags case Other => Errno }, err)
  }

  /** A native call's outcome with its error attributed to the primitive `name`. */
  function Attributed<T>(name: string, r: MagicFfi.Call<T, MagicFfi.CookieError>): (q: MagicFfi.Call<T, Error>)
    ensures q.Success? <==> r.Success?
    ensures q.Success? ==> q.value == r.value
    ensures q.Failure? <==> r.Failure?
    ensures q.Failure? ==> q.error == Error(name, r.error)
    ensures q.Panicked? <==> r.Panicked?
    ensures q.Panicked? ==> q.panic == r.panic
  {
    match r
    case Success(v) => MagicFfi.Success(v)
    case Failure(e) => MagicFfi.Failure(Error(name, e))
    case Panicked(p) => MagicFfi.Panicked(p)
  }

  // ---------------------------------------------------------------------------
  // The session
  // ---------------------------------------------------------------------------

  class Cookie {
    const cookie: MagicFfi.Cookie
    const stage: Stage
    ghost var moved: bool

    /** This value is live and is the one owner of its open handle. */
    ghost predicate Valid()
      reads this, cookie.handle
    {
      && !moved
      && cookie.handle.owner == this
      && !cookie.handle.closed
      && cookie.handle.closeCount == 0
    }

    /** `Cookie { cookie, marker }`: take ownership of a handle nobody owns. */
    constructor Wrap(c: MagicFfi.Cookie, s: Stage)
      requires c.handle.owner == null && !c.handle.closed && c.handle.closeCount == 0
      modifies c.handle`owner
      ensures cookie == c && stage == s && Valid()
      ensures c.handle.slot == old(c.handle.slot)
    {
      cookie := c;
      stage := s;
      moved := false;
      new;
      c.handle.owner := this;
    }

    /**
     * `Cookie::open`: a fresh session in stage `Open`, or an `OpenError`
     * carrying the very flags passed in.
     */
    static method Open(flags: Flags, nativeReturnedNull: bool, osErrno: int) returns (r: Result<Cookie, OpenError>)
      ensures r.Err? <==> nativeReturnedNull
      ensures r.Err? ==> r.error == OpenFailure(flags, MagicFfi.OpenError(AsNative(flags), osErrno))
      ensures r.Ok? ==> fresh(r.value) && fresh(r.value.cookie.handle)
      ensures r.Ok? ==> r.value.Valid() && r.value.stage == Stage.Open
      ensures r.Ok? ==> r.value.cookie.handle.slot == MagicFfi.EmptySlot
    {
      var raw := MagicFfi.Open(AsNative(flags), nativeReturnedNull, osErrno);
      if raw.Err? {
        r := Err(OpenFailure(flags, raw.error));
      } else {
        var session := new Cookie.Wrap(raw.value, Stage.Open);
        r := Ok(session);
      }
    }

    /**
     * What a consuming load does with the native outcome `outcome` of
     * primitive `name`: on success the handle moves, unclosed, into a new
     * `Load` session; on failure this session comes back inside the error;
     * on a panic, unwinding drops this session and so closes the handle.
     */
    method Transition(name: string, outcome: MagicFfi.Call<(), MagicFfi.CookieError>)
      returns (r: MagicFfi.Call<Cookie, LoadError>)
      requires Valid()
      modifies this, cookie.handle`owner, cookie.handle`closed, cookie.handle`closeCount
      ensures outcome.Success? ==> r.Success? && fresh(r.value)
      ensures outcome.Success? ==> r.value.stage == Stage.Load && r.value.cookie.handle == cookie.handle
      ensures outcome.Success? ==> r.value.Valid() && moved
      ensures outcome.Failure? ==> r == MagicFfi.Failure(LoadError(name, outcome.error, this)) && Valid()
      ensures outcome.Panicked? ==> r == MagicFfi.Panicked(outcome.panic) && moved
      ensures outcome.Panicked? ==> cookie.handle.closed && cookie.handle.closeCount == 1 && cookie.handle.owner == null
      ensures cookie.handle.slot == old(cookie.handle.slot)
    {
      if outcome.Failure? {
        r := MagicFfi.Failure(LoadError(name, outcome.error, this));
      } else if outcome.Success? {
        // `ManuallyDrop::new(self)`: this value gives its handle up without closing it.
        moved := true;
        cookie.handle.owner := null;
        var next := new Cookie.Wrap(MagicFfi.NewCookie(cookie), Stage.Load);
        r := MagicFfi.Success(next);
      } else {
        // the panic unwinds through `load`, which owns this value, and drops it
        Drop();
        r := MagicFfi.Panicked(outcome.panic);
      }
    }

    /** `load`: load the databases named by `filenames` (the default one when absent). */
    method Load(filenames: DatabasePaths, res: int32, after: MagicFfi.RawSlot)
      returns (r: MagicFfi.Call<Cookie, LoadError>)
      requires Valid()
      modifies this, cookie.handle
      ensures cookie.handle.slot == after
      ensures r.Success? <==> res == 0
      ensures r.Failure? <==> res == -1 && after.error.Some?
      ensures r.Success? ==> fresh(r.value) && r.value.stage == Stage.Load && r.value.Valid()
      ensures r.Success? ==> r.value.cookie.handle == cookie.handle && moved
      ensures r.Failure? ==> r.error.cookie == this && r.error.functionName == "magic_load" && Valid()
      ensures r.Failure? ==> Some(r.error.source) == MagicFfi.LastError(after)
      ensures r.Panicked? ==> r.panic == MagicFfi.StatusResult(MagicFfi.MagicLoad, res, after).panic
      ensures r.Panicked? ==> moved && cookie.handle.closed && cookie.handle.closeCount == 1
      ensures r.Panicked? ==> cookie.handle.owner == null
    {
      var outcome := MagicFfi.Load(cookie, filenames.filenames, res, after);
      r := Transition("magic_load", outcome);
    }

    /** `load_buffers`: load databases held in memory. */
    method LoadBuffers(buffers: seq<seq<byte>>, res: int32, after: MagicFfi.RawSlot)
      returns (r: MagicFfi.Call<Cookie, LoadError>)
      requires Valid()
      modifies this, cookie.handle
      ensures cookie.handle.slot == after
      ensures r.Success? <==> res == 0
      ensures r.Failure? <==> res == -1 && after.error.Some?
      ensures r.Success? ==> fresh(r.value) && r.value.stage == Stage.Load && r.value.Valid()
      ensures r.Success? ==> r.value.cookie.handle == cookie.handle && moved
      ensures r.Failure? ==> r.error.cookie == this && r.error.functionName == "magic_load_buffers" && Valid()
      ensures r.Failure? ==> Some(r.error.source) == MagicFfi.LastError(after)
      ensures r.Panicked? ==> r.panic == MagicFfi.StatusResult(MagicFfi.MagicLoadBuffers, res, after).panic
      ensures r.Panicked? ==> moved && cookie.handle.closed && cookie.handle.closeCount == 1
      ensures r.Panicked? ==> cookie.handle.owner == null
    {
      var outcome := MagicFfi.LoadBuffers(cookie, buffers, res, after);
      r := Transition("magic_load_buffers", outcome);
    }

    /**
     * `set_flags`: fails exactly when the native call returns -1, and then
     * always names PRESERVE_ATIME, whatever was asked for (the one flag the
     * engine documents as possibly unsupported).
     */
    method SetFlags(flags: Flags, ret: int32) returns (r: Result<(), SetFlagsError>)
      requires Valid()
      ensures r.Err? <==> ret == -1
      ensures r.Err? ==> r.error.flags == PRESERVE_ATIME
      ensures r.Err? ==> r.error.source == MagicFfi.SetFlagsError(AsNative(flags))
    {
      var raw := MagicFfi.SetFlags(cookie, AsNative(flags), ret);
      match raw
      case Err(err) => r := Err(SetFlagsError(PRESERVE_ATIME, err));
      case Ok(_) => r := Ok(());
    }

    /** `compile`: compile the named databases. */
    method Compile(filenames: DatabasePaths, res: int32, after: MagicFfi.RawSlot)
      returns (r: MagicFfi.Call<(), Error>)
      requires Valid()
      modifies cookie.handle`slot
      ensures Valid() && cookie.handle.slot == after
      ensures r == Attributed("magic_compile", MagicFfi.StatusResult(MagicFfi.MagicCompile, res, after))
    {
      var raw := MagicFfi.Compile(cookie, filenames.filenames, res, after);
      r := Attributed("magic_compile", raw);
    }

    /** `check`: check the named databases for consistency. */
    method Check(filenames: DatabasePaths, res: int32, after: MagicFfi.RawSlot)
      returns (r: MagicFfi.Call<(), Error>)
      requires Valid()
      modifies cookie.handle`slot
      ensures Valid() && cookie.handle.slot == after
      ensures r == Attributed("magic_check", MagicFfi.StatusResult(MagicFfi.MagicCheck, res, after))
    {
      var raw := MagicFfi.Check(cookie, filenames.filenames, res, after);
      r := Attributed("magic_check", raw);
    }

    /** `list`: list the entries of the named databases. */
    method List(filenames: DatabasePaths, res: int32, after: MagicFfi.RawSlot)
      returns (r: MagicFfi.Call<(), Error>)
      requires Valid()
      modifies cookie.handle`slot
      ensures Valid() && cookie.handle.slot == after
      ensures r == Attributed("magic_list", MagicFfi.StatusResult(MagicFfi.MagicList, res, after))
    {
      var raw := MagicFfi.List(cookie, filenames.filenames, res, after);
      r := Attributed("magic_list", raw);
    }

    /**
     * `file` (stage `Load` only): describe the named file. A file name with an
     * interior NUL is not a C string, and the `unwrap` on it panics before the
     * engine is asked.
     */
    method File(filename: string, res: Option<CString>, after: MagicFfi.RawSlot)
      returns (r: MagicFfi.Call<string, Error>)
      requires Valid() && stage == Stage.Load
      modifies cookie.handle`slot
      ensures Valid()
      ensures '\0' in filename ==> r == MagicFfi.Panicked(MagicFfi.InteriorNul)
      ensures '\0' in filename ==> cookie.handle.slot == old(cookie.handle.slot)
      ensures '\0' !in filename ==> cookie.handle.slot == after
      ensures '\0' !in filename ==> r == Attributed("magic_file", MagicFfi.PointerResult(MagicFfi.MagicFile, res, after))
    {
      if '\0' in filename {
        r := MagicFfi.Panicked(MagicFfi.InteriorNul);
      } else {
        var raw := MagicFfi.File(cookie, filename, res, after);
        r := Attributed("magic_file", raw);
      }
    }

    /** `buffer` (stage `Load` only): describe the bytes given. */
    method Buffer(buffer: seq<byte>, res: Option<CString>, after: MagicFfi.RawSlot)
      returns (r: MagicFfi.Call<string, Error>)
      requires Valid() && stage == Stage.Load
      modifies cookie.handle`slot
      ensures Valid() && cookie.handle.slot == after
      ensures r == Attributed("magic_buffer", MagicFfi.PointerResult(MagicFfi.MagicBuffer, res, after))
    {
      var raw := MagicFfi.Buffer(cookie, buffer, res, after);
      r := Attributed("magic_buffer", raw);
    }

    /** `Drop`: close the handle; this was its only owner, so it is closed once and never again. */
    method Drop()
      requires Valid()
      modifies this, cookie.handle`owner, cookie.handle`closed, cookie.handle`closeCount
      ensures moved && cookie.handle.owner == null
      ensures cookie.handle.closed && cookie.handle.closeCount == 1
    {
      MagicFfi.Close(cookie);
      moved := true;
      cookie.handle.owner := null;
    }
  }

  /** At no time do two live values own the same handle. */
  lemma OneOwnerPerHandle(a: Cookie, b: Cookie)
    requires a.Valid() && b.Valid()
    requires a.cookie.handle == b.cookie.handle
    ensures a == b
  {
  }

  // ---------------------------------------------------------------------------
  // A client of the typestate: every path closes the handle exactly once
  // ---------------------------------------------------------------------------

  /** What the engine answers to one native call: its return code and its last-error slot afterwards. */
  datatype Reply = Reply(res: int32, after: MagicFfi.RawSlot)

  /**
   * Open a session, try `load` once per reply in `loads` (each failure hands
   * the session back for the next attempt), describe `filename` once a load
   * succeeded, and let the session go out of scope. Whatever the engine
   * answers, a handle that was opened ends up closed exactly once.
   */
  method Lifecycle(flags: Flags, filenames: DatabasePaths, nativeReturnedNull: bool, osErrno: int,
                   loads: seq<Reply>, filename: string, fileRes: Option<CString>, fileAfter: MagicFfi.RawSlot)
    returns (handle: MagicFfi.Handle?, description: Option<string>)
    ensures handle == null <==> nativeReturnedNull
    ensures handle != null ==> fresh(handle) && handle.closed && handle.closeCount == 1
    ensures description.Some? ==> handle != null && exists i :: 0 <= i < |loads| && loads[i].res == 0
  {
    description := None;
    var attempt := Cookie.Open(flags, nativeReturnedNull, osErrno);
    if attempt.Err? {
      return null, None;
    }
    var current := attempt.value;
    handle := current.cookie.handle;
    var loaded: Cookie? := null;
    var i := 0;
    while i < |loads| && loaded == null
      invariant 0 <= i <= |loads|
      invariant fresh(handle) && fresh(current)
      invariant current.cookie.handle == handle
      invariant loaded == null ==> current.Valid()
      invariant loaded == null ==> forall j :: 0 <= j < i ==> loads[j].res != 0
      invariant loaded != null ==> fresh(loaded) && loaded.Valid() && loaded.stage == Stage.Load
      invariant loaded != null ==> loaded.cookie.handle == handle && 0 < i && loads[i - 1].res == 0
      decreases |loads| - i
    {
      var r := current.Load(filenames, loads[i].res, loads[i].after);
      match r {
        case Success(next) =>
          loaded := next;
        case Failure(err) =>
          current := err.cookie;
        case Panicked(_) =>
          // the panic unwinds out of the client; `load` already dropped the session
          return handle, None;
      }
      i := i + 1;
    }
    if loaded == null {
      current.Drop();
      return handle, None;
    }
    var answer := loaded.File(filename, fileRes, fileAfter);
    // the session goes out of scope here, also when `file` panicked
    loaded.Drop();
    if answer.Success? {
      description := Some(answer.value);
    }
  }
}
