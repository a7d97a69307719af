/**
 * The plain (schemeless) stream wrapper. `open` first tries the in-memory
 * static-content cache and falls back to a `PlainFile`; every other operation
 * translates its path with `File::TranslatePath` and calls the OS on it.
 */
module PlainStreamWrapper {
  import opened StreamWrapper

  /** The cache key of `filename`: its translated path, relative to the cache root. */
  function CacheKey(env: Env, filename: Path): Path {
    env.relativePath(env.translatePath(filename))
  }

  /** The cache is present and holds `filename` for `mode`. */
  predicate CacheHit(env: Env, filename: Path, mode: string) {
    env.fileCacheActive && env.memFileOpen(CacheKey(env, filename), mode)
  }

  /** `openFromCache`: a `MemFile` for `filename` when the cache holds it, or null. */
  function OpenFromCache(env: Env, filename: Path, mode: string): (r: Outcome<Option<Handle>>)
    ensures !env.fileCacheActive ==> r.ret == None && r.calls == []
    ensures env.fileCacheActive ==> r.calls == [MemFileOpen(CacheKey(env, filename), mode)]
    ensures r.ret.Some? <==> CacheHit(env, filename, mode)
    ensures r.ret.Some? ==> r.ret.value == MemFileHandle(CacheKey(env, filename), mode)
    ensures r.warnings == []
    ensures forall c <- r.calls :: !TouchesDisk(c)
  {
    if !env.fileCacheActive then Outcome(None, [], [])
    else
      var relative := env.relativePath(env.translatePath(filename));
      var found := if env.memFileOpen(relative, mode) then Some(MemFileHandle(relative, mode)) else None;
      Outcome(found, [MemFileOpen(relative, mode)], [])
  }

  /**
   * The path `open` hands to `PlainFile` on a cache miss, as written: the
   * include-path resolution of `filename`, or else the translation of the
   * local `fname`, which is still the empty string at that point.
   */
  function MissPath(env: Env, filename: Path, options: Flags): (r: Path)
    ensures HasFlag(options, USE_INCLUDE_PATH) ==> r == env.resolveVmInclude(filename)
    ensures !HasFlag(options, USE_INCLUDE_PATH) ==> r == env.translatePath("")
  {
    var fname := "";
    if HasFlag(options, USE_INCLUDE_PATH) then env.resolveVmInclude(filename)
    else env.translatePath(fname)
  }

  /** The cache-miss tail of `open`, once the path to open is chosen. */
  function OpenPlain(env: Env, before: seq<Call>, path: Path, mode: string): (r: Outcome<Option<Handle>>)
    ensures r.calls == before + [PlainFileOpen(path, mode)]
    ensures r.ret.Some? <==> env.plainFileOpen(path, mode).Opened?
    ensures r.ret.Some? ==> r.ret.value == PlainFileHandle(path, mode) && r.warnings == []
    ensures r.ret.None? ==> r.warnings == [CString(env.plainFileOpen(path, mode).lastError)]
  {
    match env.plainFileOpen(path, mode)
    case Opened => Outcome(Some(PlainFileHandle(path, mode)), before + [PlainFileOpen(path, mode)], [])
    case OpenFailed(error) => Outcome(None, before + [PlainFileOpen(path, mode)], [CString(error)])
  }

  /** The calls issued before `PlainFile::open` on a miss. */
  function MissPrefix(env: Env, filename: Path, mode: string, options: Flags): seq<Call> {
    OpenFromCache(env, filename, mode).calls
      + (if HasFlag(options, USE_INCLUDE_PATH) then [ResolveVmInclude(filename)] else [])
  }

  /** `PlainStreamWrapper::open`, as written. */
  function Open(env: Env, filename: Path, mode: string, options: Flags): (r: Outcome<Option<Handle>>)
    ensures CacheHit(env, filename, mode) ==>
              && r.ret == Some(MemFileHandle(CacheKey(env, filename), mode))
              && r.calls == [MemFileOpen(CacheKey(env, filename), mode)]
              && r.warnings == []
    ensures !CacheHit(env, filename, mode) ==>
              && r.calls == OpenFromCache(env, filename, mode).calls
                              + (if HasFlag(options, USE_INCLUDE_PATH) then [ResolveVmInclude(filename)] else [])
                              + [PlainFileOpen(MissPath(env, filename, options), mode)]
              && (r.ret.Some? <==> env.plainFileOpen(MissPath(env, filename, options), mode).Opened?)
              && (r.ret.Some? ==> r.ret.value == PlainFileHandle(MissPath(env, filename, options), mode))
              && (r.ret.Some? <==> r.warnings == [])
              && (r.ret.None? ==> r.warnings == [CString(env.plainFileOpen(MissPath(env, filename, options), mode).lastError)])
  {
    var cached := OpenFromCache(env, filename, mode);
    if cached.ret.Some? then cached
    else OpenPlain(env, MissPrefix(env, filename, mode, options), MissPath(env, filename, options), mode)
  }

  /**
   * Without the include-path bit, a cache miss opens `TranslatePath("")`,
   * whatever `filename` is: two different names open the same path and end
   * the same way.
   */
  lemma OpenIgnoresFilename(env: Env, f: Path, g: Path, mode: string, options: Flags)
    requires !HasFlag(options, USE_INCLUDE_PATH)
    requires !CacheHit(env, f, mode) && !CacheHit(env, g, mode)
    ensures Open(env, f, mode, options).ret == Open(env, g, mode, options).ret
    ensures Open(env, f, mode, options).warnings == Open(env, g, mode, options).warnings
    ensures MissPath(env, f, options) == MissPath(env, g, options) == env.translatePath("")
  {
  }

  /** An environment where `/tmp/x.txt` exists on disk, translation is the identity and there is no cache. */
  function OnlyTmpFile(): Env {
    Env(
      useDirectCopy := false,
      fileCacheActive := false,
      translatePath := p => p,
      relativePath := p => p,
      resolveVmInclude := p => p,
      memFileOpen := (p, m) => false,
      plainFileOpen := (p, m) => if p == "/tmp/x.txt" then Opened else OpenFailed("No such file or directory"),
      plainDirectoryOpen := p => OpenFailed("No such file or directory"),
      sys := c => -1)
  }

  /** Opening an existing file without the include-path bit fails, as written. */
  lemma OpenMissesExistingFile()
    ensures Open(OnlyTmpFile(), "/tmp/x.txt", "r", 0).ret == None
    ensures Open(OnlyTmpFile(), "/tmp/x.txt", "r", 0).calls == [PlainFileOpen("", "r")]
    ensures OpenIntended(OnlyTmpFile(), "/tmp/x.txt", "r", 0).ret == Some(PlainFileHandle("/tmp/x.txt", "r"))
  {
  }

  /** The path a cache miss evidently means to open: the include-path resolution or the translation of `filename`. */
  function IntendedMissPath(env: Env, filename: Path, options: Flags): Path {
    if HasFlag(options, USE_INCLUDE_PATH) then env.resolveVmInclude(filename)
    else env.translatePath(filename)
  }

  /**
   * `open` with the translation applied to `filename`. A miss without the
   * include-path bit then opens on disk the very translated path whose
   * cache-relative form was looked up in the cache first.
   */
  function OpenIntended(env: Env, filename: Path, mode: string, options: Flags): (r: Outcome<Option<Handle>>)
    ensures CacheHit(env, filename, mode) ==>
              && r.ret == Some(MemFileHandle(CacheKey(env, filename), mode))
              && r.calls == [MemFileOpen(CacheKey(env, filename), mode)]
              && r.warnings == []
    ensures !CacheHit(env, filename, mode) && !HasFlag(options, USE_INCLUDE_PATH) ==>
              && r.calls == OpenFromCache(env, filename, mode).calls + [PlainFileOpen(env.translatePath(filename), mode)]
              && env.relativePath(r.calls[|r.calls| - 1].path) == CacheKey(env, filename)
              && (r.ret.Some? <==> env.plainFileOpen(env.translatePath(filename), mode).Opened?)
    ensures !CacheHit(env, filename, mode) ==>
              && (r.ret.Some? ==> r.ret.value == PlainFileHandle(IntendedMissPath(env, filename, options), mode) && r.warnings == [])
              && (r.ret.None? ==> && env.plainFileOpen(IntendedMissPath(env, filename, options), mode).OpenFailed?
                                  && r.warnings == [CString(env.plainFileOpen(IntendedMissPath(env, filename, options), mode).lastError)])
    ensures !CacheHit(env, filename, mode) && HasFlag(options, USE_INCLUDE_PATH) ==>
              && r.calls == OpenFromCache(env, filename, mode).calls
                              + [ResolveVmInclude(filename), PlainFileOpen(env.resolveVmInclude(filename), mode)]
              && (r.ret.Some? <==> env.plainFileOpen(env.resolveVmInclude(filename), mode).Opened?)
  {
    var cached := OpenFromCache(env, filename, mode);
    if cached.ret.Some? then cached
    else OpenPlain(env, MissPrefix(env, filename, mode, options), IntendedMissPath(env, filename, options), mode)
  }

  /**
   * The corrected `open` depends on `filename` again: on a miss, each name's
   * `PlainFile` open is on its own translated path, so names translating to
   * different paths open different files.
   */
  lemma OpenIntendedFollowsFilename(env: Env, f: Path, g: Path, mode: string, options: Flags)
    requires !HasFlag(options, USE_INCLUDE_PATH)
    requires !CacheHit(env, f, mode) && !CacheHit(env, g, mode)
    requires env.translatePath(f) != env.translatePath(g)
    ensures var cf := OpenIntended(env, f, mode, options).calls;
            var cg := OpenIntended(env, g, mode, options).calls;
            && cf[|cf| - 1] == PlainFileOpen(env.translatePath(f), mode)
            && cg[|cg| - 1] == PlainFileOpen(env.translatePath(g), mode)
            && cf[|cf| - 1].path != cg[|cg| - 1].path
  {
  }

  /** `PlainStreamWrapper::opendir`: a `PlainDirectory` on the translated path, or null. */
  function Opendir(env: Env, path: Path): (r: Outcome<Option<Handle>>)
    ensures r.calls == [PlainDirectoryOpen(env.translatePath(path))]
    ensures r.ret.Some? <==> env.plainDirectoryOpen(env.translatePath(path)).Opened?
    ensures r.ret.Some? ==> r.ret.value == DirectoryHandle(env.translatePath(path)) && r.warnings == []
    ensures r.ret.None? ==> r.warnings == [CString(env.plainDirectoryOpen(env.translatePath(path)).lastError)]
  {
    var translated := env.translatePath(path);
    match env.plainDirectoryOpen(translated)
    case Opened => Outcome(Some(DirectoryHandle(translated)), [PlainDirectoryOpen(translated)], [])
    case OpenFailed(error) => Outcome(None, [PlainDirectoryOpen(translated)], [CString(error)])
  }

  /** `PlainStreamWrapper::access`. */
  function Access(env: Env, path: Path, mode: int): (r: Outcome<int>)
    ensures r.calls == [SysAccess(env.translatePath(path), mode)]
    ensures r.ret == env.sys(SysAccess(env.translatePath(path), mode)) && r.warnings == []
  {
    Issue(env, SysAccess(env.translatePath(path), mode))
  }

  /** `PlainStreamWrapper::stat`. */
  function Stat(env: Env, path: Path): (r: Outcome<int>)
    ensures r.calls == [SysStat(env.translatePath(path))]
    ensures r.ret == env.sys(SysStat(env.translatePath(path))) && r.warnings == []
  {
    Issue(env, SysStat(env.translatePath(path)))
  }

  /** `PlainStreamWrapper::lstat`. */
  function Lstat(env: Env, path: Path): (r: Outcome<int>)
    ensures r.calls == [SysLstat(env.translatePath(path))]
    ensures r.ret == env.sys(SysLstat(env.translatePath(path))) && r.warnings == []
  {
    Issue(env, SysLstat(env.translatePath(path)))
  }

  /** `PlainStreamWrapper::unlink`. */
  function Unlink(env: Env, path: Path): (r: Outcome<int>)
    ensures r.calls == [SysUnlink(env.translatePath(path))]
    ensures r.ret == env.sys(SysUnlink(env.translatePath(path))) && r.warnings == []
  {
    Issue(env, SysUnlink(env.translatePath(path)))
  }

  /** `PlainStreamWrapper::rmdir`; `options` is accepted and ignored. */
  function Rmdir(env: Env, path: Path, options: Flags): (r: Outcome<int>)
    ensures r.calls == [SysRmdir(env.translatePath(path))]
    ensures r.ret == env.sys(SysRmdir(env.translatePath(path))) && r.warnings == []
  {
    Issue(env, SysRmdir(env.translatePath(path)))
  }

  /** `rmdir` never reads `options`: any two option words give the same outcome. */
  lemma RmdirIgnoresOptions(env: Env, path: Path, a: Flags, b: Flags)
    ensures Rmdir(env, path, a) == Rmdir(env, path, b)
  {
  }

  /** `PlainStreamWrapper::rename`: both operands translated, in order; the result passed back unchanged. */
  function Rename(env: Env, oldname: Path, newname: Path): (r: Outcome<int>)
    ensures |r.calls| == 1 && r.warnings == []
    ensures r.calls[0].UtilDirectRename? <==> env.useDirectCopy
    ensures r.calls[0].UtilRename? <==> !env.useDirectCopy
    ensures CallPaths(r.calls[0]) == [env.translatePath(oldname), env.translatePath(newname)]
    ensures r.ret == env.sys(r.calls[0])
  {
    Issue(env, RenameCall(env, env.translatePath(oldname), env.translatePath(newname)))
  }

  /**
   * `PlainStreamWrapper::mkdir`. The callee's answer is returned as is, in
   * both branches: unlike the `file://` wrapper, the recursive branch is not
   * normalised to 0 or -1.
   */
  function Mkdir(env: Env, path: Path, mode: int, options: Flags): (r: Outcome<int>)
    ensures HasFlag(options, STREAM_MKDIR_RECURSIVE) ==> r.calls == [UtilMkdir(env.translatePath(path), mode)]
    ensures !HasFlag(options, STREAM_MKDIR_RECURSIVE) ==> r.calls == [SysMkdir(env.translatePath(path), mode)]
    ensures |r.calls| == 1 && r.ret == env.sys(r.calls[0]) && r.warnings == []
  {
    if HasFlag(options, STREAM_MKDIR_RECURSIVE) then Issue(env, UtilMkdir(env.translatePath(path), mode))
    else Issue(env, SysMkdir(env.translatePath(path), mode))
  }
}
