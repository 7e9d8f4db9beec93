# libmagic_rs: the safety layer around libmagic, in Dafny

This project models the Rust crate `libmagic_rs`. The crate is a memory-safe,
state-checked interface to libmagic, the native engine behind `file(1)`. The
engine itself stays outside the model. It is an oracle: what a native
primitive returns, and what it leaves in the handle's last-error slot, are
inputs to the modelled methods. The model covers the glue the crate adds
around the engine:

- **Flag set** (`flags.dfy`, module `Flags`; raw bits in `magic_ffi.dfy`).
  This is the 32-bit `Flags` bit-set. Each primitive flag is one bit. A
  `FlagBit` enumeration gives each flag its bit position (the positions of
  `magic.h`), and the proofs use only the fact that the positions differ.
  `MIME`, `NODESC` and `NO_CHECK_BUILTIN` are unions. The unnamed flag
  `_ = !0` makes every bit pattern representable. The cast `bits() as c_int`
  at the native boundary is written out as a two's-complement
  reinterpretation (`ctypes.dfy`).
- **Database path list** (`database_paths.dfy`). `DatabasePaths::new` joins
  the paths with `:` (`;` on Windows). An empty joined string means "use the
  default database". A joined string containing NUL is rejected. The
  `Default` and `TryFrom` conversions are modelled too. A reference splitter,
  `Split`, shows that joining loses nothing when no path contains the
  separator.
- **Native capability layer** (`magic_ffi.dfy`, module `MagicFfi`, modelling
  `src/magic/mod.rs`). A native `magic_t` is a `Handle` object. Its state is
  the last-error slot and a closed flag. Two ghost fields instrument it: a
  close count and the wrapper value that currently owns it. Each primitive
  turns its raw result into a `Call`, which is one of three things: a value,
  an error read from the slot, or a `Panicked` outcome. A panic is the
  wrapper's response when the engine breaks its own convention: it signals
  failure with an empty slot, or returns a code other than 0 or -1.
  `load_buffers` builds its pointer and size arrays in a loop. That loop is
  proved to satisfy the memory contract of `magic_load_buffers`.
- **Session typestate** (`cookie.dfy`, module `Cookie`, modelling
  `src/lib.rs` `mod cookie`). `Cookie<S>` is a class. Its `stage` field is
  `Open` or `Load`, standing for the phantom type parameter. A ghost `moved`
  flag marks a value that is no longer live. This happens in two ways: its
  handle moved into a new value (the `ManuallyDrop` of a successful load), or
  it was dropped. `file` and `buffer` require stage `Load`. `load` and
  `load_buffers` consume the session. On success they move the same handle,
  unclosed, into a new `Load` session. On failure they return the original
  session inside `LoadError`. `Drop` closes the handle. `Valid()` says a
  value is live and is its handle's single owner. Because of this, a handle
  is closed at most once. The client method `Lifecycle` proves that every
  handle that was opened ends up closed exactly once, on every path. This
  holds whatever the engine answers: success, failure, retried failure, or
  panic.

The primitives load, check, compile, list and load_buffers count only -1 as
failure. Any other non-zero return panics (`src/magic/mod.rs:149-159` and
the matching arms of the others).

## Model

| member | source | states |
|---|---|---|
| CTypes.AsCInt | src/lib.rs:229 | `bits() as c_int` keeps values below 2^31 and wraps larger ones to `bits - 2^32` |
| CTypes.AsCIntRoundTrip | src/lib.rs:310 | casting the flag word to `c_int` and back gives the same 32 bits |
| CTypes.AsCIntInjective | src/lib.rs:229 | two different flag words never reach the engine as the same `c_int` |
| DatabasePaths.Join | src/lib.rs:88-92 | `join` starts with the first path, and its length is the paths' total length plus one separator between each pair of neighbours |
| DatabasePaths.New | src/lib.rs:83-100 | an error iff the joined string contains NUL; otherwise `None` iff the joined string is empty, and `Some` holds exactly the joined string |
| DatabasePaths.Separator | src/lib.rs:77-80 | the separator is `;` on Windows and `:` elsewhere; it is never NUL |
| DatabasePaths.JoinEmptyIff | src/lib.rs:88-92 | the joined string is empty iff there are no paths or exactly one empty path |
| DatabasePaths.InJoinIff | src/lib.rs:88-92 | a non-separator character is in the joined string iff it is in some path |
| DatabasePaths.NewDefaultIff | src/lib.rs:94-96 | `new` gives `filenames == None` iff the paths are `[]` or `[""]`, so `["", ""]` is not the default |
| DatabasePaths.NewRejectsIff | src/lib.rs:92-97 | `new` returns `InvalidDatabasePathError` iff some path contains NUL |
| DatabasePaths.TwoEmptyPathsAreNotDefault | src/lib.rs:88-97 | `["", ""]` becomes `Some` of one separator |
| DatabasePaths.SeparatorInsidePathIsAmbiguous | src/lib.rs:88-97 | on either platform, a path `a` + separator + `b` is accepted and gives the same value as the two paths `a` and `b` |
| DatabasePaths.SplitJoin | src/lib.rs:88-92 | for one or more paths none of which contains the separator, splitting the joined string gives back the paths |
| DatabasePaths.Default | src/lib.rs:103-106 | `default()` has no file names and equals `new` of no paths on every platform |
| DatabasePaths.TryFromPaths | src/lib.rs:109-134 | the array, `Vec` and slice conversions are `new`: an error iff some path has NUL, the default iff `[]` or `[""]` |
| DatabasePaths.TryFromPath | src/lib.rs:136-159 | a single-path conversion is `new` of `once(path)`: the default for `""`, an error for a path with NUL, `Some(path)` otherwise |
| MagicFfi.PositionInjective | src/lib.rs:21-49 | different primitive flags sit at different bit positions |
| MagicFfi.MaskIsOneBit | src/lib.rs:21-49 | each primitive flag is a single non-zero bit |
| MagicFfi.MasksDisjoint | src/lib.rs:21-49 | two different primitive flags share no bit |
| MagicFfi.MaskOfHas | src/magic/mod.rs:7-19 | a union of primitive flags contains a primitive flag iff that flag is one of the united ones |
| MagicFfi.MAGIC_MIME | src/magic/mod.rs:7 | `MAGIC_MIME_TYPE \| MAGIC_MIME_ENCODING` |
| MagicFfi.MAGIC_NODESC | src/magic/mod.rs:8 | `MAGIC_EXTENSION \| MAGIC_MIME \| MAGIC_APPLE` |
| MagicFfi.MAGIC_NO_CHECK_BUILTIN | src/magic/mod.rs:9-19 | the ten built-in-test bits; `MAGIC_NO_CHECK_SOFT` is commented out of the list |
| MagicFfi.Handle.Run | src/magic/mod.rs:96 | a native primitive may only run on an unclosed handle; it changes nothing but the last-error slot, which then holds the engine's answer |
| MagicFfi.Handle.constructor | src/magic/mod.rs:262 | a freshly opened handle has an empty last-error slot, is unclosed, has been closed zero times and has no owner |
| MagicFfi.NewCookie | src/magic/mod.rs:32-36 | `Cookie::new` wraps the identical handle |
| MagicFfi.LastError | src/magic/mod.rs:52-68 | `None` iff the error pointer is null; otherwise the explanation is the slot's message, and errno is `None` iff the raw errno is 0 |
| MagicFfi.ExpectError | src/magic/mod.rs:70-82 | returns the slot's error when there is one and panics when the slot is empty; it never returns a value and never makes up an error |
| MagicFfi.StatusResult | src/magic/mod.rs:149-159 | raw 0 means `Ok`; -1 means `Err` with the slot's error, or a panic if the slot is empty; any other code panics as an unexpected return (the same for compile, list, load and load_buffers) |
| MagicFfi.PointerResult | src/magic/mod.rs:98-106 | a non-null result means `Ok` of that string; null means `Err` with the slot's error, or a panic if the slot is empty (the same for buffer) |
| MagicFfi.SetFlagsResult | src/magic/mod.rs:128-134 | `Err` carrying the input flags iff the native result is -1; every other value is `Ok` |
| MagicFfi.Open | src/magic/mod.rs:261-274 | `Err` with the flags and the OS errno iff `magic_open` returned null; otherwise a fresh, unclosed handle |
| MagicFfi.Close | src/magic/mod.rs:84-86 | `magic_close` needs a handle that is not yet closed; it closes the handle and adds one to its close count |
| MagicFfi.File | src/magic/mod.rs:91-107 | runs `magic_file` and classifies its result by `PointerResult` over the slot the call left |
| MagicFfi.NativeBuffer | src/magic/mod.rs:113-115 | `magic_buffer` is given exactly the slice's length |
| MagicFfi.Buffer | src/magic/mod.rs:112-126 | runs `magic_buffer` over the whole slice and classifies its result by `PointerResult` |
| MagicFfi.SetFlags | src/magic/mod.rs:128-134 | the result depends only on the native return value; the slot is not read and the handle is unchanged |
| MagicFfi.DatabaseCall | src/magic/mod.rs:145-160 | the shape shared by check, compile, list and load: the slot becomes the engine's answer, and the result is `StatusResult` of the raw code over it |
| MagicFfi.Check | src/magic/mod.rs:145-160 | runs `magic_check` and classifies its result by `StatusResult` |
| MagicFfi.Compile | src/magic/mod.rs:165-183 | runs `magic_compile` and classifies its result by `StatusResult` |
| MagicFfi.List | src/magic/mod.rs:188-203 | runs `magic_list` and classifies its result by `StatusResult` |
| MagicFfi.Load | src/magic/mod.rs:208-223 | runs `magic_load` and classifies its result by `StatusResult` |
| MagicFfi.BufferArrays | src/magic/mod.rs:228-236 | the loop builds `buffers.len()` pointers and sizes, with `pointers[i]` designating `buffers[i]` and `sizes[i] == buffers[i].len()`, and a count equal to `buffers.len()` |
| MagicFfi.NativeLoadBuffers | src/magic/mod.rs:241-243 | `magic_load_buffers` needs `count` pointers and `count` sizes, each size the length of its buffer |
| MagicFfi.LoadBuffers | src/magic/mod.rs:228-259 | meets the memory contract of `magic_load_buffers` and classifies its result by `StatusResult` |
| Flags.AllIsEveryBit | src/lib.rs:20 | because `_ = !0` is declared, `all()` has all 32 bits set |
| Flags.BitsRoundTrip | src/lib.rs:17-20 | for every `u32`, `from_bits` gives `Some` of that value, `from_bits_truncate` drops nothing and `from_bits_retain` keeps the bits |
| Flags.FlagsRoundTrip | src/lib.rs:17-20 | converting flags to bits and back is the identity |
| Flags.MIME | src/lib.rs:32-33 | `MIME_TYPE \| MIME_ENCODING`, built from the crate's own constants |
| Flags.NODESC | src/lib.rs:36-38 | `EXTENSION \| MIME \| APPLE`, built from the crate's own constants |
| Flags.NO_CHECK_BUILTIN | src/lib.rs:50-59 | the ten `NO_CHECK_*` constants united in source order, built independently of `MAGIC_NO_CHECK_BUILTIN` |
| Flags.NoCheckBuiltinIsMaskOf | src/lib.rs:50-59 | the union of the ten constants has exactly the bits of the list of ten primitive flags |
| Flags.AsNativeInjective | src/lib.rs:229 | different flag sets reach `magic_open` and `magic_setflags` as different `c_int`s |
| Flags.PrimitivesDisjoint | src/lib.rs:21-49 | each primitive flag is non-empty, and two different ones do not intersect |
| Flags.MimeIsTypeAndEncoding | src/lib.rs:32-33 | `MIME` holds exactly `MIME_TYPE` and `MIME_ENCODING` among the primitives, and equals `MAGIC_MIME` |
| Flags.NodescIsExtensionMimeApple | src/lib.rs:36-38 | `NODESC` contains `MIME`, holds exactly `EXTENSION`, `MIME_TYPE`, `MIME_ENCODING` and `APPLE`, and equals `MAGIC_NODESC` |
| Flags.NoCheckBuiltinIsTheTenChecks | src/lib.rs:50-59 | `NO_CHECK_BUILTIN` holds exactly the ten listed bits, equals `MAGIC_NO_CHECK_BUILTIN`, and does not intersect `NO_CHECK_SOFT` |
| Flags.UnionContainsBoth | src/lib.rs:17-19 | a union contains both operands |
| Flags.IntersectionInBoth | src/lib.rs:17-19 | an intersection is contained in both operands |
| Flags.DifferenceAvoids | src/lib.rs:17-19 | `a - b` does not intersect `b`, and together with `a & b` it makes up `a` |
| Cookie.OpenFailure | src/lib.rs:230-237 | an `OpenError` carries the exact flags and the native error; its kind is `UnsupportedFlags` iff the errno is `EINVAL` (kind `InvalidInput`), otherwise `Errno` |
| Cookie.Attributed | src/lib.rs:252-258 | wrapping keeps values and panics and tags each native error with the name of the failing primitive |
| Cookie.Cookie.Wrap | src/lib.rs:239-242 | a new session takes ownership of a handle that has no owner and is not closed |
| Cookie.Cookie.Valid | src/lib.rs:194-198 | the invariant of a live session: not moved on, the sole owner of its handle, and the handle neither closed nor ever closed; every session operation requires it, and `Drop` consumes it |
| Cookie.Cookie.Open | src/lib.rs:228-246 | success gives a fresh, valid session in stage `Open`; failure gives `OpenFailure` of the exact flags passed in |
| Cookie.Cookie.Transition | src/lib.rs:274-289 | success moves the handle, unclosed, into a fresh valid `Load` session and retires the old value; failure returns the same, still valid, session inside `LoadError`; a panic drops the session, closing the handle once |
| Cookie.Cookie.Load | src/lib.rs:273-290 | success iff the raw result is 0, giving a `Load` session over the same handle; failure iff -1 with the slot set, giving a `"magic_load"` `LoadError` whose `cookie` is this session, still valid; a panic closes the handle once |
| Cookie.Cookie.LoadBuffers | src/lib.rs:291-308 | the same as `Load`, tagged `"magic_load_buffers"` |
| Cookie.Cookie.SetFlags | src/lib.rs:309-319 | fails iff the native result is -1; the error always names `PRESERVE_ATIME` and carries the `c_int` of the flags passed in |
| Cookie.Cookie.Compile | src/lib.rs:321-329 | the native status, attributed to `"magic_compile"`; the session stays valid |
| Cookie.Cookie.Check | src/lib.rs:331-339 | the native status, attributed to `"magic_check"`; the session stays valid |
| Cookie.Cookie.List | src/lib.rs:341-349 | the native status, attributed to `"magic_list"`; the session stays valid |
| Cookie.Cookie.File | src/lib.rs:250-259 | stage `Load` only; a file name with NUL panics at `unwrap` before the engine is called; otherwise the native pointer result, attributed to `"magic_file"` |
| Cookie.Cookie.Buffer | src/lib.rs:260-268 | stage `Load` only; the native pointer result, attributed to `"magic_buffer"` |
| Cookie.Cookie.Drop | src/lib.rs:216-222 | closes the handle of a live session, so its close count becomes 1, and retires the value |
| Cookie.OneOwnerPerHandle | src/lib.rs:194-198 | two live sessions over the same handle are the same value |
| Cookie.Lifecycle | src/lib.rs:216-308 | opening, retrying `load` on the returned session after each failure, one `file` query and going out of scope close an opened handle exactly once on every path, panics included |

`LoadError::cookie` (src/lib.rs:209-213) is the datatype field `cookie` of
`Cookie.LoadError`. The `Load` and `LoadBuffers` rows state what it returns.

## Left out

- The native engine (`magic_sys`): signature matching, database parsing and compilation. Its results and last-error slot are method inputs.
- `version()` and `libmagic_version()` (src/magic/mod.rs:289-291, src/lib.rs:5-7): they return an engine integer unchanged; there is nothing to state.
- The panic message text (`format!` calls, and the fact that check's message says "expected" while the others say "Expected"). A panic is modelled by its cause: the primitive and, for an unexpected return, the returned code.
- Unwinding versus `panic = abort`. The model assumes unwinding, so a panic inside `load`/`load_buffers` drops the consumed session. For `&self` operations the owner's scope does the drop, as `Lifecycle` shows.
- `to_string_lossy` (src/lib.rs:90, 251, 253, 262): paths and native strings are Dafny strings already, so the lossy UTF-8 conversion is the identity here.
- `std::io::ErrorKind`: only the distinction the crate makes is modelled. `InvalidInput` is errno 22 (`EINVAL`, as on Unix). Windows error numbers are not modelled.
- How the OS errno is captured (`last_os_error`) and thread safety: the errno is an input, and the model is single-threaded.
- `Display` for flags and errors, and the `thiserror` messages: presentation only.
- Pointers: a `*const u8` is modelled by the bytes it designates, and `usize as size_t` is taken to lose nothing.
- The native configuration state that `magic_setflags` changes inside the engine; `MagicFfi.SetFlags` leaves the modelled handle as it was.
- `build.rs` and `src/bin/file.rs`: the build pipeline and the command-line front end, outside the library's behaviour.
