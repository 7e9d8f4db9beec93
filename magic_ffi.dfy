/**
 * The boundary to the native content-sniffing engine (`src/magic/mod.rs`).
 *
 * The engine itself is an oracle: what a primitive returns and what it leaves
 * in the handle's last-error slot are inputs to the methods below. What is
 * modelled is the wrapper's side: how a raw return value and the slot are
 * turned into a typed result, and when the wrapper gives up with a panic
 * because the engine broke its own conventions.
 */
module MagicFfi {
  import opened Wrappers
  import opened CTypes

  // ---------------------------------------------------------------------------
  // Flag bits of `magic.h` and the composites this file defines from them
  // ---------------------------------------------------------------------------

  /** The primitive `MAGIC_*` flags; each is one bit of the flag word (`CheckWarnings` is `MAGIC_CHECK`). */
  datatype FlagBit =
    | Debug | Symlink | Compress | Devices | MimeType | Continue | CheckWarnings | PreserveAtime | Raw
    | Error | MimeEncoding | Apple | Extension | NoCheckCompress | NoCheckTar | NoCheckSoft
    | NoCheckApptype | NoCheckElf | NoCheckText | NoCheckCdf | NoCheckCsv | NoCheckTokens
    | NoCheckEncoding | NoCheckJson

  /** The bit each flag occupies (the values of `magic.h`); all that matters is that they differ. */
  function Position(b: FlagBit): bv5
  {
    match b
    case Debug => 0            case Symlink => 1          case Compress => 2
    case Devices => 3          case MimeType => 4         case Continue => 5
    case CheckWarnings => 6           case PreserveAtime => 7    case Raw => 8
    case Error => 9            case MimeEncoding => 10    case Apple => 11
    case NoCheckCompress => 12 case NoCheckTar => 13      case NoCheckSoft => 14
    case NoCheckApptype => 15  case NoCheckElf => 16      case NoCheckText => 17
    case NoCheckCdf => 18      case NoCheckCsv => 19      case NoCheckTokens => 20
    case NoCheckEncoding => 21 case NoCheckJson => 22     case Extension => 24
  }

  /** `MAGIC_<b>`: the flag word with just that bit set. */
  function Mask(b: FlagBit): bv32
  {
    (1 as bv32) << Position(b)
  }

  /** The flag word of several bits: the bitwise or of their masks. */
  function MaskOf(bs: seq<FlagBit>): bv32
  {
    if |bs| == 0 then 0 else Mask(bs[0]) | MaskOf(bs[1..])
  }

  const MAGIC_MIME: bv32 := Mask(MimeType) | Mask(MimeEncoding)
  const MAGIC_NODESC: bv32 := Mask(Extension) | MAGIC_MIME | Mask(Apple)

  /** Every "skip a built-in test" bit except the soft-magic one, which is commented out of the list. */
  const NoCheckBuiltinBits: seq<FlagBit> := [
    NoCheckCompress, NoCheckTar, NoCheckApptype, NoCheckElf, NoCheckText,
    NoCheckCsv, NoCheckCdf, NoCheckTokens, NoCheckEncoding, NoCheckJson]

  const MAGIC_NO_CHECK_BUILTIN: bv32 :=
    Mask(NoCheckCompress) | Mask(NoCheckTar) | Mask(NoCheckApptype) | Mask(NoCheckElf)
    | Mask(NoCheckText) | Mask(NoCheckCsv) | Mask(NoCheckCdf) | Mask(NoCheckTokens)
    | Mask(NoCheckEncoding) | Mask(NoCheckJson)

  /** Different flags occupy different bits. */
  lemma PositionInjective(p: FlagBit, q: FlagBit)
    requires Position(p) == Position(q)
    ensures p == q
  {
  }

  lemma ShiftIsOneBit(k: bv5, word: bv32)
    ensures (1 as bv32) << k != 0
    ensures word & ((1 as bv32) << k) == 0 || word & ((1 as bv32) << k) == (1 as bv32) << k
  {
  }

  lemma ShiftsDisjoint(i: bv5, j: bv5)
    requires i != j
    ensures ((1 as bv32) << i) & ((1 as bv32) << j) == 0
  {
  }

  /** A mask has one bit set, so it meets any word either fully or not at all. */
  lemma MaskIsOneBit(b: FlagBit, word: bv32)
    ensures Mask(b) != 0
    ensures word & Mask(b) == 0 || word & Mask(b) == Mask(b)
  {
    ShiftIsOneBit(Position(b), word);
  }

  /** No two primitive flags share a bit. */
  lemma MasksDisjoint(p: FlagBit, q: FlagBit)
    requires p != q
    ensures Mask(p) & Mask(q) == 0
  {
    if Position(p) == Position(q) {
      PositionInjective(p, q);
    }
    ShiftsDisjoint(Position(p), Position(q));
  }

  /** A union of primitive flags holds a primitive flag exactly when it is one of those united. */
  lemma {:induction false} MaskOfHas(bs: seq<FlagBit>, b: FlagBit)
    ensures MaskOf(bs) & Mask(b) == Mask(b) <==> b in bs
  {
    MaskIsOneBit(b, 0);
    if |bs| > 0 {
      MaskOfHas(bs[1..], b);
      var rest := MaskOf(bs[1..]);
      MaskIsOneBit(b, rest);
      if bs[0] != b {
        MasksDisjoint(bs[0], b);
        assert (Mask(bs[0]) | rest) & Mask(b) == rest & Mask(b);
        assert b in bs <==> b in bs[1..];
      }
    }
  }

  // ---------------------------------------------------------------------------
  // Native state: one object per `magic_t`
  // ---------------------------------------------------------------------------

  /** What `magic_error` and `magic_errno` report: a message or a null pointer, and a raw OS error number. */
  datatype RawSlot = RawSlot(error: Option<CString>, errno: int)

  const EmptySlot := RawSlot(None, 0)

  /**
   * A native session (`magic_t`). The engine keeps its last-error slot here;
   * `closed` records `magic_close`. The ghost fields instrument the handle:
   * how often it was closed, and which wrapper value currently owns it.
   */
  class Handle {
    var slot: RawSlot
    var closed: bool
    ghost var closeCount: nat
    ghost var owner: object?

    /** A handle as `magic_open` returns it: nothing has failed yet, nobody owns it yet. */
    constructor ()
      ensures slot == EmptySlot && !closed && closeCount == 0 && owner == null
    {
      slot := EmptySlot;
      closed := false;
      closeCount := 0;
      owner := null;
    }

    /** One native primitive runs on this handle and leaves `after` in its last-error slot. */
    method Run(after: RawSlot)
      requires !closed
      modifies this`slot
      ensures slot == after
    {
      slot := after;
    }
  }

  /** `Cookie`: the crate's non-copy wrapper around a `magic_t`. */
  datatype Cookie = Cookie(handle: Handle)

  /** `Cookie::new`: a second wrapper around the very same native handle, allocating nothing. */
  function NewCookie(cookie: Cookie): (r: Cookie)
    ensures r.handle == cookie.handle
  {
    Cookie(cookie.handle)
  }

  // ---------------------------------------------------------------------------
  // Errors and the panics of the wrapper
  // ---------------------------------------------------------------------------

  /** The detail read from the last-error slot: the explanation and, when non-zero, the OS error number. */
  datatype CookieError = CookieError(explanation: CString, errno: Option<int>)

  datatype NativeFunction =
    | MagicFile | MagicBuffer | MagicCheck | MagicCompile | MagicList | MagicLoad | MagicLoadBuffers

  /** Why the wrapper stops the program instead of returning. */
  datatype Panic =
    | NoLastError(primitive: NativeFunction)                  // failure signalled, slot empty
    | UnexpectedReturn(primitive: NativeFunction, returned: int32) // neither 0 nor -1
    | InteriorNul                                        // a file name that is no C string

  /** A call through the wrapper: it returns a value, returns an error, or panics. */
  datatype Call<+T, +E> = Success(value: T) | Failure(error: E) | Panicked(panic: Panic)

  /** `last_error`: nothing when the error pointer is null; an errno of zero means "no OS error". */
  function LastError(slot: RawSlot): (r: Option<CookieError>)
    ensures r.None? <==> slot.error.None?
    ensures r.Some? ==> r.value.explanation == slot.error.value
    ensures r.Some? ==> (r.value.errno.None? <==> slot.errno == 0)
    ensures r.Some? && slot.errno != 0 ==> r.value.errno == Some(slot.errno)
  {
    match slot.error
    case None => None
    case Some(explanation) =>
      Some(CookieError(explanation, if slot.errno == 0 then None else Some(slot.errno)))
  }

  /**
   * `expect_error`, with the `Err` its callers wrap around it: the slot's error
   * when there is one, a panic otherwise. It never makes up an error.
   */
  function ExpectError<T>(primitive: NativeFunction, slot: RawSlot): (r: Call<T, CookieError>)
    ensures !r.Success?
    ensures r.Failure? <==> LastError(slot).Some?
    ensures r.Failure? ==> Some(r.error) == LastError(slot)
    ensures r.Panicked? ==> r.panic == NoLastError(primitive)
  {
    match LastError(slot)
    case Some(err) => Failure(err)
    case None => Panicked(NoLastError(primitive))
  }

  /**
   * The status convention of `magic_check`, `magic_compile`, `magic_list`,
   * `magic_load` and `magic_load_buffers`: 0 is success, -1 is failure
   * described by the slot, and anything else breaks the engine's contract.
   */
  function StatusResult(primitive: NativeFunction, res: int32, slot: RawSlot): (r: Call<(), CookieError>)
    ensures r.Success? <==> res == 0
    ensures r.Failure? <==> res == -1 && slot.error.Some?
    ensures r.Failure? ==> Some(r.error) == LastError(slot)
    ensures r.Panicked? && res == -1 ==> r.panic == NoLastError(primitive)
    ensures res != 0 && res != -1 ==> r == Panicked(UnexpectedReturn(primitive, res))
  {
    if res == 0 then Success(())
    else if res == -1 then ExpectError(primitive, slot)
    else Panicked(UnexpectedReturn(primitive, res))
  }

  /**
   * The pointer convention of `magic_file` and `magic_buffer`: a non-null
   * result is the description, a null one is failure described by the slot.
   */
  function PointerResult(primitive: NativeFunction, res: Option<CString>, slot: RawSlot): (r: Call<CString, CookieError>)
    ensures r.Success? <==> res.Some?
    ensures r.Success? ==> r.value == res.value
    ensures r.Failure? <==> res.None? && slot.error.Some?
    ensures r.Failure? ==> Some(r.error) == LastError(slot)
    ensures r.Panicked? ==> r.panic == NoLastError(primitive)
  {
    match res
    case Some(description) => Success(description)
    case None => ExpectError(primitive, slot)
  }

  /** The error of `setflags`: the flags exactly as they were passed down. */
  datatype SetFlagsError = SetFlagsError(flags: int32)

  /** `setflags`: only -1 is failure, and the last-error slot is not consulted. */
  function SetFlagsResult(flags: int32, ret: int32): (r: Result<(), SetFlagsError>)
    ensures r.Err? <==> ret == -1
    ensures r.Err? ==> r.error.flags == flags
  {
    if ret == -1 then Err(SetFlagsError(flags)) else Ok(())
  }

  /** The error of `open`: the flags passed down and the OS error number left behind. */
  datatype OpenError = OpenError(flags: int32, errno: int)

  // ---------------------------------------------------------------------------
  // The primitives
  // ---------------------------------------------------------------------------

  /**
   * `open`: `magic_open` either hands back a new handle or a null pointer;
   * a null pointer is diagnosed from the OS error number, since there is no
   * handle whose slot could hold the detail.
   */
  method Open(flags: int32, nativeReturnedNull: bool, osErrno: int) returns (r: Result<Cookie, OpenError>)
    ensures r.Err? <==> nativeReturnedNull
    ensures r.Err? ==> r.error == OpenError(flags, osErrno)
    ensures r.Ok? ==> fresh(r.value.handle)
    ensures r.Ok? ==> r.value.handle.slot == EmptySlot && !r.value.handle.closed
    ensures r.Ok? ==> r.value.handle.closeCount == 0 && r.value.handle.owner == null
  {
    if nativeReturnedNull {
      r := Err(OpenError(flags, osErrno));
    } else {
      var handle := new Handle();
      r := Ok(Cookie(handle));
    }
  }

  /** `close`: `magic_close` on a handle that must not have been closed before. */
  method Close(cookie: Cookie)
    requires !cookie.handle.closed
    modifies cookie.handle`closed, cookie.handle`closeCount
    ensures cookie.handle.closed
    ensures cookie.handle.closeCount == old(cookie.handle.closeCount) + 1
  {
    cookie.handle.closed := true;
    cookie.handle.closeCount := cookie.handle.closeCount + 1;
  }

  /** `file`: `magic_file` of a file name; its description or the slot's error. */
  method File(cookie: Cookie, filename: CString, res: Option<CString>, after: RawSlot)
    returns (r: Call<CString, CookieError>)
    requires !cookie.handle.closed
    modifies cookie.handle`slot
    ensures cookie.handle.slot == after
    ensures r == PointerResult(MagicFile, res, after)
  {
    cookie.handle.Run(after);
    r := PointerResult(MagicFile, res, cookie.handle.slot);
  }

  /** `magic_buffer` reads exactly `length` bytes starting at `bytes`. */
  method NativeBuffer(cookie: Cookie, bytes: seq<byte>, length: nat, after: RawSlot)
    requires !cookie.handle.closed
    requires length == |bytes|
    modifies cookie.handle`slot
    ensures cookie.handle.slot == after
  {
    cookie.handle.Run(after);
  }

  /** `buffer`: `magic_buffer` over the whole slice; its description or the slot's error. */
  method Buffer(cookie: Cookie, buffer: seq<byte>, res: Option<CString>, after: RawSlot)
    returns (r: Call<CString, CookieError>)
    requires !cookie.handle.closed
    modifies cookie.handle`slot
    ensures cookie.handle.slot == after
    ensures r == PointerResult(MagicBuffer, res, after)
  {
    NativeBuffer(cookie, buffer, |buffer|, after);
    r := PointerResult(MagicBuffer, res, cookie.handle.slot);
  }

  /** `setflags`: the native result alone decides; the handle is only read. */
  method SetFlags(cookie: Cookie, flags: int32, ret: int32) returns (r: Result<(), SetFlagsError>)
    requires !cookie.handle.closed
    ensures r.Err? <==> ret == -1
    ensures r.Err? ==> r.error == SetFlagsError(flags)
  {
    r := SetFlagsResult(flags, ret);
  }

  /** The four database primitives taking an optional path list share one shape. */
  method DatabaseCall(primitive: NativeFunction, cookie: Cookie, filename: Option<CString>, res: int32, after: RawSlot)
    returns (r: Call<(), CookieError>)
    requires primitive in {MagicCheck, MagicCompile, MagicList, MagicLoad}
    requires !cookie.handle.closed
    modifies cookie.handle`slot
    ensures cookie.handle.slot == after
    ensures r == StatusResult(primitive, res, after)
  {
    cookie.handle.Run(after);
    r := StatusResult(primitive, res, cookie.handle.slot);
  }

  /** `check`: `magic_check` of the path list, or of the default database when it is absent. */
  method Check(cookie: Cookie, filename: Option<CString>, res: int32, after: RawSlot)
    returns (r: Call<(), CookieError>)
    requires !cookie.handle.closed
    modifies cookie.handle`slot
    ensures cookie.handle.slot == after
    ensures r == StatusResult(MagicCheck, res, after)
  {
    r := DatabaseCall(MagicCheck, cookie, filename, res, after);
  }

  /** `compile`: `magic_compile` of the path list. */
  method Compile(cookie: Cookie, filename: Option<CString>, res: int32, after: RawSlot)
    returns (r: Call<(), CookieError>)
    requires !cookie.handle.closed
    modifies cookie.handle`slot
    ensures cookie.handle.slot == after
    ensures r == StatusResult(MagicCompile, res, after)
  {
    r := DatabaseCall(MagicCompile, cookie, filename, res, after);
  }

  /** `list`: `magic_list` of the path list. */
  method List(cookie: Cookie, filename: Option<CString>, res: int32, after: RawSlot)
    returns (r: Call<(), CookieError>)
    requires !cookie.handle.closed
    modifies cookie.handle`slot
    ensures cookie.handle.slot == after
    ensures r == StatusResult(MagicList, res, after)
  {
    r := DatabaseCall(MagicList, cookie, filename, res, after);
  }

  /** `load`: `magic_load` of the path list into the handle. */
  method Load(cookie: Cookie, filename: Option<CString>, res: int32, after: RawSlot)
    returns (r: Call<(), CookieError>)
    requires !cookie.handle.closed
    modifies cookie.handle`slot
    ensures cookie.handle.slot == after
    ensures r == StatusResult(MagicLoad, res, after)
  {
    r := DatabaseCall(MagicLoad, cookie, filename, res, after);
  }

  /**
   * The two parallel arrays `load_buffers` hands to `magic_load_buffers`: one
   * pointer per buffer (a pointer is modelled by the bytes it designates), the
   * matching lengths, and their count.
   */
  method BufferArrays(buffers: seq<seq<byte>>) returns (pointers: seq<seq<byte>>, sizes: seq<nat>, count: nat)
    ensures count == |buffers| && |pointers| == count && |sizes| == count
    ensures forall i :: 0 <= i < count ==> pointers[i] == buffers[i] && sizes[i] == |buffers[i]|
  {
    pointers, sizes := [], [];
    count := |buffers|;
    for i := 0 to |buffers|
      invariant |pointers| == i && |sizes| == i
      invariant forall j :: 0 <= j < i ==> pointers[j] == buffers[j] && sizes[j] == |buffers[j]|
    {
      pointers := pointers + [buffers[i]];
      sizes := sizes + [|buffers[i]|];
    }
  }

  /** `magic_load_buffers` reads `count` pointers, and `sizes[i]` bytes behind the `i`-th one. */
  method NativeLoadBuffers(cookie: Cookie, pointers: seq<seq<byte>>, sizes: seq<nat>, count: nat, after: RawSlot)
    requires !cookie.handle.closed
    requires |pointers| == count && |sizes| == count
    requires forall i :: 0 <= i < count ==> sizes[i] == |pointers[i]|
    modifies cookie.handle`slot
    ensures cookie.handle.slot == after
  {
    cookie.handle.Run(after);
  }

  /** `load_buffers`: load databases held in memory, one buffer per database. */
  method LoadBuffers(cookie: Cookie, buffers: seq<seq<byte>>, res: int32, after: RawSlot)
    returns (r: Call<(), CookieError>)
    requires !cookie.handle.closed
    modifies cookie.handle`slot
    ensures cookie.handle.slot == after
    ensures r == StatusResult(MagicLoadBuffers, res, after)
  {
    var pointers, sizes, count := BufferArrays(buffers);
    NativeLoadBuffers(cookie, pointers, sizes, count, after);
    r := StatusResult(MagicLoadBuffers, res, cookie.handle.slot);
  }
}
