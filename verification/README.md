# HHVM stream wrappers: validation, stripping and dispatch

This project models the two sibling stream wrappers of the HHVM runtime that
serve local files:

- the `file://` wrapper (`FileStreamWrapper`), which accepts only hostless
  URLs (`file:///abs/path`), removes the seven-character scheme and hands the
  rest to the operating system;
- the plain, schemeless wrapper (`PlainStreamWrapper`), whose `open` first
  tries the in-memory static-content cache and otherwise opens a `PlainFile`
  on the include-path-resolved or translated path, and whose other operations
  call the OS on `File::TranslatePath(path)`.

Neither wrapper keeps any state, so every operation is a pure function. It
takes the operation's arguments and an `Env`: the process-wide configuration
(`RuntimeOption::UseDirectCopy`, whether the static-content cache exists) and
oracles for the collaborators (`File::TranslatePath`,
`FileCache::GetRelativePath`, `Eval::resolveVmInclude`, whether a `MemFile`,
`PlainFile` or `PlainDirectory` opens and with which last error, and the
return code of every `int`-returning OS or `FileUtil` call). It returns an
`Outcome`: the return value (a handle or null, or an `int`), the external
calls issued with their path arguments in order, and the warning messages
raised.

Files:

- `stream_wrapper.dfy` (module `StreamWrapper`): calls, handles, oracles,
  outcomes, option bits.
- `file_stream_wrapper.dfy` (module `FileStreamWrapper`): the gate `Valid` /
  `Check`, `Strip`, the eight operations, and lemmas about the gate and about
  whole sequences of requests.
- `plain_stream_wrapper.dfy` (module `PlainStreamWrapper`): `OpenFromCache`,
  `Open` as written, the corrected `OpenIntended`, and the other operations.

Two details of the source are surfaced on purpose. `valid` only looks at the
character at index 7; it never checks that the prefix is `file://`
(`ValidIgnoresScheme`, `ForeignSchemeAccepted`). And the plain wrapper's
`open`, without the include-path bit, translates its still-empty local
`fname` instead of `filename` (`OpenIgnoresFilename`, and under Findings).

## Model

| member | source | states |
|---|---|---|
| FileStreamWrapper.Check | hphp/runtime/base/file-stream-wrapper.cpp:30-36 | accepts exactly when the character at index 7 is `/`; issues no call; on rejection raises exactly one warning, which contains the path up to its first NUL (the whole path when it has none) |
| StreamWrapper.CString | hphp/runtime/base/file-stream-wrapper.cpp:34 | what `%s` prints of a string: a prefix of it that holds no NUL and stops exactly at the first NUL; the whole string when it has none |
| FileStreamWrapper.Strip | hphp/runtime/base/file-stream-wrapper.cpp:38-41 | for a valid path, the result is 7 characters shorter, begins with `/`, and the first 7 characters of the path followed by it give the path back |
| FileStreamWrapper.Open | hphp/runtime/base/file-stream-wrapper.cpp:43-53 | an invalid path gives null, no call and one warning naming it; a valid path makes exactly one `PlainFile` open, on the stripped path; a handle comes back iff that open succeeds, and it is the file on the stripped path; a failed open raises its last error (up to its first NUL) as the one warning |
| FileStreamWrapper.Opendir | hphp/runtime/base/file-stream-wrapper.cpp:55-65 | as `Open`, with a `PlainDirectory` on the stripped path and its last error |
| FileStreamWrapper.Stat | hphp/runtime/base/file-stream-wrapper.cpp:67-69 | invalid: -1, no call, one warning naming the path; valid: exactly one `::stat` on the stripped path and its result returned unchanged, no warning |
| FileStreamWrapper.Lstat | hphp/runtime/base/file-stream-wrapper.cpp:71-73 | the same for `::lstat` |
| FileStreamWrapper.Unlink | hphp/runtime/base/file-stream-wrapper.cpp:75-77 | the same for `::unlink` |
| FileStreamWrapper.Rmdir | hphp/runtime/base/file-stream-wrapper.cpp:79-81 | the same for `::rmdir`; `options` plays no part |
| FileStreamWrapper.Rename | hphp/runtime/base/file-stream-wrapper.cpp:83-91 | an invalid `oldname` fails with -1 and no call, warning about `oldname` only; a valid `oldname` with an invalid `newname` fails warning about `newname`; never more than one warning; with both valid, exactly one call, `directRename` iff `UseDirectCopy` and `rename` otherwise, on the two stripped paths in order, its result returned unchanged |
| FileStreamWrapper.Mkdir | hphp/runtime/base/file-stream-wrapper.cpp:93-97 | an invalid path fails with -1, no call, one warning; with the recursive bit the result is always 0 or -1, one `FileUtil::mkdir` on the stripped path, and 0 exactly when that call answers true; without it, one `::mkdir` on the stripped path whose result is returned unchanged |
| FileStreamWrapper.ValidIgnoresScheme | hphp/runtime/base/file-stream-wrapper.cpp:30-33 | replacing the first seven characters of a path by any seven characters changes neither its validity nor its stripped form |
| FileStreamWrapper.ForeignSchemeAccepted | hphp/runtime/base/file-stream-wrapper.cpp:30-41 | `http:///etc/passwd` passes the gate and is stripped to `/etc/passwd` |
| FileStreamWrapper.SchemeRoundTrip | hphp/runtime/base/file-stream-wrapper.cpp:30-41 | `file://` followed by `rest` is valid iff `rest` begins with `/`, and stripping it then gives `rest` back |
| FileStreamWrapper.RequestConfined | hphp/runtime/base/file-stream-wrapper.cpp:43-97 | every path argument of every call one request issues is the stripped form of a valid path that request named |
| FileStreamWrapper.SessionConfined | hphp/runtime/base/file-stream-wrapper.cpp:43-97 | over any sequence of requests, every path that reaches the OS, `FileUtil` or a handle begins with `/` and is the stripped form of a valid path the caller named |
| PlainStreamWrapper.OpenFromCache | hphp/runtime/base/plain-stream-wrapper.cpp:30-44 | without a cache: null and no lookup; with one: exactly one `MemFile` open, on the cache-relative form of the translated path; a handle comes back iff it succeeds; no warning and no disk access either way |
| PlainStreamWrapper.OpenPlain | hphp/runtime/base/plain-stream-wrapper.cpp:60-66 | exactly one `PlainFile` open on the chosen path, after the earlier calls; a handle on that path iff it succeeds, otherwise its last error (up to its first NUL) as the one warning |
| PlainStreamWrapper.MissPath | hphp/runtime/base/plain-stream-wrapper.cpp:52-58 | the path chosen on a miss is `resolveVmInclude(filename)` with the include-path bit and `TranslatePath("")` without it |
| PlainStreamWrapper.Open | hphp/runtime/base/plain-stream-wrapper.cpp:46-67 | a cache hit returns the cache handle with no `PlainFile` open, no include-path resolution and no warning; a miss issues exactly the cache lookup (when a cache exists), then `resolveVmInclude(filename)` only with the include-path bit, then exactly one `PlainFile` open, on `resolveVmInclude(filename)` with the include-path bit (and only then is that resolution issued) and on `TranslatePath("")` without it; a handle iff that open succeeds, else its last error (up to its first NUL) as the one warning |
| PlainStreamWrapper.OpenIgnoresFilename | hphp/runtime/base/plain-stream-wrapper.cpp:52-58 | on a miss without the include-path bit, any two file names give the same result and warnings, because both open `TranslatePath("")` |
| PlainStreamWrapper.OpenMissesExistingFile | hphp/runtime/base/plain-stream-wrapper.cpp:46-67 | with no cache, identity translation and only `/tmp/x.txt` on disk, `open("/tmp/x.txt", "r", 0)` as written opens `""` and fails, while the corrected open returns the file |
| PlainStreamWrapper.OpenIntended | hphp/runtime/base/plain-stream-wrapper.cpp:46-67 | the corrected open: same cache behaviour; a miss without the include-path bit opens `TranslatePath(filename)`, whose cache-relative form is exactly the key the cache was asked for; with the bit it resolves then opens `resolveVmInclude(filename)`; on a miss a handle comes back iff that open succeeds and it is the file on that path, otherwise its last error (up to its first NUL) is the one warning |
| PlainStreamWrapper.OpenIntendedFollowsFilename | hphp/runtime/base/plain-stream-wrapper.cpp:56-57 | in the corrected open, on a miss each name's `PlainFile` open is on its own translated path, so two names that translate differently open different paths |
| PlainStreamWrapper.Opendir | hphp/runtime/base/plain-stream-wrapper.cpp:69-78 | exactly one `PlainDirectory` open on the translated path; a handle on it iff it succeeds, otherwise its last error (up to its first NUL) as the one warning |
| PlainStreamWrapper.Access | hphp/runtime/base/plain-stream-wrapper.cpp:80-82 | exactly one `::access` on the translated path with the given mode, its result returned unchanged, no warning |
| PlainStreamWrapper.Stat | hphp/runtime/base/plain-stream-wrapper.cpp:84-86 | exactly one `::stat` on the translated path, its result returned unchanged, no warning |
| PlainStreamWrapper.Lstat | hphp/runtime/base/plain-stream-wrapper.cpp:88-90 | the same for `::lstat` |
| PlainStreamWrapper.Unlink | hphp/runtime/base/plain-stream-wrapper.cpp:92-94 | the same for `::unlink` |
| PlainStreamWrapper.Rmdir | hphp/runtime/base/plain-stream-wrapper.cpp:96-98 | the same for `::rmdir` |
| PlainStreamWrapper.RmdirIgnoresOptions | hphp/runtime/base/plain-stream-wrapper.cpp:96-98 | the outcome does not depend on `options` |
| PlainStreamWrapper.Rename | hphp/runtime/base/plain-stream-wrapper.cpp:100-109 | exactly one call, `directRename` iff `UseDirectCopy` and `rename` otherwise, on the translated old and new names in that order, its result returned unchanged, no warning |
| PlainStreamWrapper.Mkdir | hphp/runtime/base/plain-stream-wrapper.cpp:111-115 | exactly one call on the translated path, `FileUtil::mkdir` with the recursive bit and `::mkdir` without it, and its result returned as is, not normalised to 0/-1 |

## Findings

| source | as written | input that shows it | evidently intended | confidence | as-written member | corrected member |
|---|---|---|---|---|---|---|
| hphp/runtime/base/plain-stream-wrapper.cpp:56-57 | without `USE_INCLUDE_PATH`, a cache miss opens `TranslatePath(fname)` where `fname` is the empty string just declared | no cache, identity translation, `/tmp/x.txt` exists; `open("/tmp/x.txt", "r", 0)` opens `""` and returns null | open `TranslatePath(filename)`, the same path the cache key was derived from | high; not executed | PlainStreamWrapper.OpenIgnoresFilename | PlainStreamWrapper.OpenIntended |

`PlainStreamWrapper.Open` keeps the behaviour as written; `OpenIntended` is the
corrected definition, with `OpenIntendedFollowsFilename` and
`OpenMissesExistingFile` contrasting the two.

## Left out

- The OS calls themselves (`::stat`, `::lstat`, `::unlink`, `::rmdir`, `::mkdir`, `::access`) and the contents of `struct stat`: each is an oracle return code in `Env.sys`.
- `PlainFile`, `MemFile` and `PlainDirectory` internals, `StaticContentCache` and `FileCache::GetRelativePath`: success/failure oracles and a pure path mapping. Handles are opaque values; allocation and release through `NEWOBJ`/`unique_ptr` is not modelled.
- `File::TranslatePath`, `Eval::resolveVmInclude`, `FileUtil::rename`, `FileUtil::directRename` and `FileUtil::mkdir` are not part of this model: they are uninterpreted oracles. `TranslatePath` and `GetRelativePath` are taken as pure and are not recorded as calls; `resolveVmInclude` is recorded, since it searches the file system. The `struct stat` it fills is discarded by the source and not modelled.
- The order in which C++ evaluates the two `TranslatePath` arguments of the plain `rename` is unspecified; the model records only the resulting call.
- `FileUtil::mkdir`'s answer is an `int` oracle read as a C truth value (non-zero is success) by the `file://` wrapper, as its `&&` does; the plain wrapper returns it as is.
- `raise_warning` formatting: only the printed message is recorded (`HostlessWarning` for the gate, the handle's last error otherwise), each cut at its first NUL by `CString` as `%s` does.
- `FileStreamWrapper.Check`: a path shorter than 8 characters is treated as invalid. For exactly 7 characters this is what the source does (index 7 is the string's terminating NUL); for shorter paths the source reads past the end of the string, which is undefined behaviour the model does not capture.
- FileStreamWrapper.Check: a path is a sequence of characters, while HHVM's `String` is bytes and `valid` reads byte 7. The model agrees with the source when the first seven characters are ASCII (one byte each); with a multi-byte character among them (`"é12345/x"`, say) the source looks at a different character than the model does.
- FileStreamWrapper.Strip: for the same reason it drops seven characters where the source drops seven bytes; the two agree when the first seven characters are ASCII.
- Embedded NUL characters: the source passes `.data()` to the OS calls, which then see the path only up to its first NUL; the model passes the whole string to them (the warnings, by contrast, are cut at the first NUL as `%s` does).
- The unused `context` and `options` parameters of `open` in the `file://` wrapper, and thread safety. `access` is not overridden by the `file://` wrapper, so it has no `access` here.
- The values of `k_STREAM_MKDIR_RECURSIVE` and `File::USE_INCLUDE_PATH` are defined outside the two files; both are taken as bit 1 (PHP's `STREAM_MKDIR_RECURSIVE` and `FILE_USE_INCLUDE_PATH`). Only whether the bit is set matters to the model.
