/**
 * Vocabulary shared by the two stream wrappers of the HHVM runtime: the
 * external calls a wrapper issues, the handles it hands back, the oracles
 * that stand for the code it calls into, and the record of what one
 * operation did.
 *
 * The wrappers hold no state of their own. Each operation is therefore a
 * function of its arguments and of an `Env`, which bundles the process-wide
 * configuration and the answers the collaborators would give.
 */
module StreamWrapper {

  type Path = string

  datatype Option<+T> = None | Some(value: T)

  /** Option bits are C `int`s; a `bv32` holds their bit pattern. */
  type Flags = bv32

  predicate HasFlag(options: Flags, flag: Flags) {
    options & flag != 0
  }

  /** `k_STREAM_MKDIR_RECURSIVE`, PHP's STREAM_MKDIR_RECURSIVE bit. */
  const STREAM_MKDIR_RECURSIVE: Flags := 1

  /** `File::USE_INCLUDE_PATH`, PHP's FILE_USE_INCLUDE_PATH bit. */
  const USE_INCLUDE_PATH: Flags := 1

  /** The external calls a wrapper issues, with the arguments it passes. */
  datatype Call =
    | PlainFileOpen(path: Path, mode: string)     // PlainFile::open
    | PlainDirectoryOpen(path: Path)              // constructing a PlainDirectory
    | MemFileOpen(path: Path, mode: string)       // MemFile::open on a cache-relative path
    | ResolveVmInclude(path: Path)                // Eval::resolveVmInclude
    | SysAccess(path: Path, amode: int)           // ::access
    | SysStat(path: Path)                         // ::stat
    | SysLstat(path: Path)                        // ::lstat
    | SysUnlink(path: Path)                       // ::unlink
    | SysRmdir(path: Path)                        // ::rmdir
    | SysMkdir(path: Path, perms: int)            // ::mkdir, one level
    | UtilMkdir(path: Path, perms: int)           // FileUtil::mkdir, creates missing parents
    | UtilRename(from: Path, to: Path)            // FileUtil::rename
    | UtilDirectRename(from: Path, to: Path)      // FileUtil::directRename

  /** The path arguments of a call, in the order they are passed. */
  function CallPaths(c: Call): seq<Path> {
    match c
    case UtilRename(from, to) => [from, to]
    case UtilDirectRename(from, to) => [from, to]
    case _ => [c.path]
  }

  /** Every call reaches the real filesystem except a lookup in the in-memory cache. */
  predicate TouchesDisk(c: Call) {
    !c.MemFileOpen?
  }

  /** What a `PlainFile` or `PlainDirectory` reports after trying to open. */
  datatype OpenStatus = Opened | OpenFailed(lastError: string)

  /** An opened resource; ownership passes to the caller. */
  datatype Handle =
    | PlainFileHandle(path: Path, mode: string)
    | MemFileHandle(relative: Path, mode: string)
    | DirectoryHandle(path: Path)

  /**
   * Process-wide configuration and the collaborators this core calls into.
   * The path mappings are pure; the open oracles say whether a handle opened
   * on a path succeeds; `sys` is the return code of every call that returns
   * an `int`.
   */
  datatype Env = Env(
    useDirectCopy: bool,                          // RuntimeOption::UseDirectCopy
    fileCacheActive: bool,                        // StaticContentCache::TheFileCache is set
    translatePath: Path -> Path,                  // File::TranslatePath
    relativePath: Path -> Path,                   // FileCache::GetRelativePath
    resolveVmInclude: Path -> Path,               // Eval::resolveVmInclude
    memFileOpen: (Path, string) -> bool,          // MemFile::open
    plainFileOpen: (Path, string) -> OpenStatus,  // PlainFile::open and getLastError
    plainDirectoryOpen: Path -> OpenStatus,       // PlainDirectory::isValid and getLastError
    sys: Call -> int)

  /** What one operation returned, the calls it issued in order, and the warnings it raised. */
  datatype Outcome<+T> = Outcome(ret: T, calls: seq<Call>, warnings: seq<string>)

  /** Issues one `int`-returning call and passes its result back unchanged. */
  function Issue(env: Env, c: Call): Outcome<int> {
    Outcome(env.sys(c), [c], [])
  }

  /** The rename strategy `RuntimeOption::UseDirectCopy` selects, on the given operands. */
  function RenameCall(env: Env, from: Path, to: Path): Call {
    if env.useDirectCopy then UtilDirectRename(from, to) else UtilRename(from, to)
  }

  /**
   * What a C `%s` or a syscall sees of `s` through `.data()`: the characters
   * before the first NUL.
   */
  function CString(s: string): (r: string)
    ensures r <= s
    ensures '\0' !in r
    ensures |r| < |s| ==> s[|r|] == '\0'
    ensures '\0' !in s ==> r == s
  {
    if s == [] || s[0] == '\0' then [] else [s[0]] + CString(s[1..])
  }

  /** `part` occurs somewhere inside `s`. */
  ghost predicate Contains(s: string, part: string) {
    exists k :: 0 <= k <= |s| && part <= s[k..]
  }

  lemma ContainsSuffix(prefix: string, part: string)
    ensures Contains(prefix + part, part)
  {
    assert part <= (prefix + part)[|prefix|..];
  }
}
