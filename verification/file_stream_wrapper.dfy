/**
 * The `file://` stream wrapper. It accepts only hostless URLs
 * (`file:///abs/path`), removes the scheme and hands the rest to the
 * operating system. Every operation first passes its path through the one
 * gate `valid`; a rejected path raises a warning and never reaches the OS.
 */
module FileStreamWrapper {
  import opened StreamWrapper

  /** The scheme prefix; `strip` removes `sizeof("file://") - 1` characters. */
  const Scheme: string := "file://"

  /**
   * The shape `valid` accepts: the character at index 7 is `/`. Nothing else
   * is looked at, in particular not whether the first seven characters spell
   * `file://`. A path of exactly seven characters has its NUL terminator at
   * index 7 and is rejected; shorter ones are rejected too (see README).
   */
  predicate Valid(p: Path) {
    |p| > 7 && p[7] == '/'
  }

  function HostlessWarning(p: Path): string {
    "Only hostless file::// URLs are supported: " + CString(p)
  }

  /**
   * `valid`: the verdict of the gate together with the warning it raises. The
   * warning is formatted with `%s`, so it carries the path up to its first NUL.
   */
  function Check(p: Path): (r: Outcome<bool>)
    ensures r.ret <==> |p| > 7 && p[7] == '/'
    ensures r.calls == []
    ensures r.ret ==> r.warnings == []
    ensures !r.ret ==> |r.warnings| == 1 && Contains(r.warnings[0], CString(p))
    ensures !r.ret && '\0' !in p ==> Contains(r.warnings[0], p)
  {
    if Valid(p) then Outcome(true, [], [])
    else
      ContainsSuffix("Only hostless file::// URLs are supported: ", CString(p));
      Outcome(false, [], [HostlessWarning(p)])
  }

  /** `strip`: the absolute local path left once the scheme is removed. */
  function Strip(p: Path): (r: Path)
    requires Valid(p)
    ensures |r| == |p| - 7
    ensures |r| > 0 && r[0] == '/'
    ensures p[..7] + r == p
  {
    p[|Scheme|..]
  }

  /** A rejected path: the failure value, no call, and one warning naming the path (up to its first NUL). */
  ghost predicate Rejected<T>(p: Path, r: Outcome<T>, failure: T) {
    r.ret == failure && r.calls == [] && |r.warnings| == 1 && Contains(r.warnings[0], CString(p))
  }

  /** Turns a rejection by the gate into the operation's failure outcome. */
  function Reject<T>(gate: Outcome<bool>, failure: T): Outcome<T> {
    Outcome(failure, gate.calls, gate.warnings)
  }

  /** `FileStreamWrapper::open`: a `PlainFile` on the stripped path, or null. */
  function Open(env: Env, filename: Path, mode: string, options: Flags): (r: Outcome<Option<Handle>>)
    ensures !Valid(filename) ==> Rejected(filename, r, None)
    ensures Valid(filename) ==> r.calls == [PlainFileOpen(Strip(filename), mode)]
    ensures r.ret.Some? ==> Valid(filename) && r.ret.value == PlainFileHandle(Strip(filename), mode)
    ensures r.ret.Some? <==> Valid(filename) && env.plainFileOpen(Strip(filename), mode).Opened?
    ensures r.ret.Some? <==> r.warnings == []
    ensures Valid(filename) && r.ret.None? ==>
              r.warnings == [CString(env.plainFileOpen(Strip(filename), mode).lastError)]
  {
    var gate := Check(filename);
    if !gate.ret then Reject(gate, None)
    else
      var path := Strip(filename);
      match env.plainFileOpen(path, mode)
      case Opened => Outcome(Some(PlainFileHandle(path, mode)), [PlainFileOpen(path, mode)], [])
      case OpenFailed(error) => Outcome(None, [PlainFileOpen(path, mode)], [CString(error)])
  }

  /** `FileStreamWrapper::opendir`: a `PlainDirectory` on the stripped path, or null. */
  function Opendir(env: Env, path: Path): (r: Outcome<Option<Handle>>)
    ensures !Valid(path) ==> Rejected(path, r, None)
    ensures Valid(path) ==> r.calls == [PlainDirectoryOpen(Strip(path))]
    ensures r.ret.Some? ==> Valid(path) && r.ret.value == DirectoryHandle(Strip(path))
    ensures r.ret.Some? <==> Valid(path) && env.plainDirectoryOpen(Strip(path)).Opened?
    ensures r.ret.Some? <==> r.warnings == []
    ensures Valid(path) && r.ret.None? ==>
              r.warnings == [CString(env.plainDirectoryOpen(Strip(path)).lastError)]
  {
    var gate := Check(path);
    if !gate.ret then Reject(gate, None)
    else
      var local := Strip(path);
      match env.plainDirectoryOpen(local)
      case Opened => Outcome(Some(DirectoryHandle(local)), [PlainDirectoryOpen(local)], [])
      case OpenFailed(error) => Outcome(None, [PlainDirectoryOpen(local)], [CString(error)])
  }

  /** `FileStreamWrapper::stat`. */
  function Stat(env: Env, path: Path): (r: Outcome<int>)
    ensures !Valid(path) ==> Rejected(path, r, -1)
    ensures Valid(path) ==>
              r.calls == [SysStat(Strip(path))] && r.ret == env.sys(SysStat(Strip(path))) && r.warnings == []
  {
    var gate := Check(path);
    if !gate.ret then Reject(gate, -1) else Issue(env, SysStat(Strip(path)))
  }

  /** `FileStreamWrapper::lstat`. */
  function Lstat(env: Env, path: Path): (r: Outcome<int>)
    ensures !Valid(path) ==> Rejected(path, r, -1)
    ensures Valid(path) ==>
              r.calls == [SysLstat(Strip(path))] && r.ret == env.sys(SysLstat(Strip(path))) && r.warnings == []
  {
    var gate := Check(path);
    if !gate.ret then Reject(gate, -1) else Issue(env, SysLstat(Strip(path)))
  }

  /** `FileStreamWrapper::unlink`. */
  function Unlink(env: Env, path: Path): (r: Outcome<int>)
    ensures !Valid(path) ==> Rejected(path, r, -1)
    ensures Valid(path) ==>
              r.calls == [SysUnlink(Strip(path))] && r.ret == env.sys(SysUnlink(Strip(path))) && r.warnings == []
  {
    var gate := Check(path);
    if !gate.ret then Reject(gate, -1) else Issue(env, SysUnlink(Strip(path)))
  }

  /** `FileStreamWrapper::rmdir`; `options` is accepted and ignored. */
  function Rmdir(env: Env, path: Path, options: Flags): (r: Outcome<int>)
    ensures !Valid(path) ==> Rejected(path, r, -1)
    ensures Valid(path) ==>
              r.calls == [SysRmdir(Strip(path))] && r.ret == env.sys(SysRmdir(Strip(path))) && r.warnings == []
  {
    var gate := Check(path);
    if !gate.ret then Reject(gate, -1) else Issue(env, SysRmdir(Strip(path)))
  }

  /**
   * `FileStreamWrapper::rename`. Both operands must pass the gate. The test
   * is `!valid(old) || !valid(new)`, so a rejected `oldname` means `newname`
   * is never looked at and at most one warning is raised.
   */
  function Rename(env: Env, oldname: Path, newname: Path): (r: Outcome<int>)
    ensures !Valid(oldname) ==> Rejected(oldname, r, -1)
    ensures Valid(oldname) && !Valid(newname) ==> Rejected(newname, r, -1)
    ensures |r.warnings| <= 1
    ensures Valid(oldname) && Valid(newname) ==>
              && r.warnings == []
              && |r.calls| == 1
              && (r.calls[0].UtilDirectRename? <==> env.useDirectCopy)
              && (r.calls[0].UtilRename? <==> !env.useDirectCopy)
              && CallPaths(r.calls[0]) == [Strip(oldname), Strip(newname)]
              && r.ret == env.sys(r.calls[0])
  {
    var oldGate := Check(oldname);
    if !oldGate.ret then Reject(oldGate, -1)
    else
      var newGate := Check(newname);
      if !newGate.ret then Reject(newGate, -1)
      else Issue(env, RenameCall(env, Strip(oldname), Strip(newname)))
  }

  /**
   * `FileStreamWrapper::mkdir`. With the recursive bit, `FileUtil::mkdir`'s
   * answer is read as a C truth value and normalised to 0 or -1; without it,
   * `::mkdir`'s result is returned as is.
   */
  function Mkdir(env: Env, path: Path, mode: int, options: Flags): (r: Outcome<int>)
    ensures !Valid(path) ==> Rejected(path, r, -1)
    ensures HasFlag(options, STREAM_MKDIR_RECURSIVE) ==> r.ret == 0 || r.ret == -1
    ensures HasFlag(options, STREAM_MKDIR_RECURSIVE) && Valid(path) ==>
              && r.calls == [UtilMkdir(Strip(path), mode)]
              && (r.ret == 0 <==> env.sys(UtilMkdir(Strip(path), mode)) != 0)
              && r.warnings == []
    ensures !HasFlag(options, STREAM_MKDIR_RECURSIVE) && Valid(path) ==>
              && r.calls == [SysMkdir(Strip(path), mode)]
              && r.ret == env.sys(SysMkdir(Strip(path), mode))
              && r.warnings == []
  {
    if HasFlag(options, STREAM_MKDIR_RECURSIVE) then
      var gate := Check(path);
      if !gate.ret then Reject(gate, -1)
      else
        var c := UtilMkdir(Strip(path), mode);
        Outcome(if env.sys(c) != 0 then 0 else -1, [c], [])
    else
      var gate := Check(path);
      if !gate.ret then Reject(gate, -1) else Issue(env, SysMkdir(Strip(path), mode))
  }

  // ---------------------------------------------------------------------
  // The gate and the prefix

  /** `valid` never looks at the scheme: any seven characters may stand before the `/`. */
  lemma ValidIgnoresScheme(p: Path, scheme: string)
    requires |p| > 7 && |scheme| == 7
    ensures Valid(scheme + p[7..]) <==> Valid(p)
    ensures Valid(p) ==> Strip(scheme + p[7..]) == Strip(p)
  {
  }

  /** A URL of another scheme is let through: `http:///etc/passwd` reaches the OS as `/etc/passwd`. */
  lemma ForeignSchemeAccepted()
    ensures Valid("http:///etc/passwd") && Strip("http:///etc/passwd") == "/etc/passwd"
  {
  }

  /** `strip` inverts putting `file://` in front of an absolute path, and only such URLs pass. */
  lemma SchemeRoundTrip(rest: Path)
    ensures Valid(Scheme + rest) <==> |rest| > 0 && rest[0] == '/'
    ensures Valid(Scheme + rest) ==> Strip(Scheme + rest) == rest
  {
  }

  // ---------------------------------------------------------------------
  // The isolation boundary over a whole sequence of requests

  /** A call on the wrapper's surface (`access` is not overridden by this wrapper). */
  datatype Request =
    | OpenRequest(path: Path, mode: string, options: Flags)
    | OpendirRequest(path: Path)
    | StatRequest(path: Path)
    | LstatRequest(path: Path)
    | UnlinkRequest(path: Path)
    | RmdirRequest(path: Path, options: Flags)
    | RenameRequest(oldname: Path, newname: Path)
    | MkdirRequest(path: Path, perms: int, options: Flags)

  function RequestPaths(req: Request): seq<Path> {
    match req
    case RenameRequest(oldname, newname) => [oldname, newname]
    case _ => [req.path]
  }

  /** The external calls one request issues. */
  function IssuedCalls(env: Env, req: Request): seq<Call> {
    match req
    case OpenRequest(path, mode, options) => Open(env, path, mode, options).calls
    case OpendirRequest(path) => Opendir(env, path).calls
    case StatRequest(path) => Stat(env, path).calls
    case LstatRequest(path) => Lstat(env, path).calls
    case UnlinkRequest(path) => Unlink(env, path).calls
    case RmdirRequest(path, options) => Rmdir(env, path, options).calls
    case RenameRequest(oldname, newname) => Rename(env, oldname, newname).calls
    case MkdirRequest(path, perms, options) => Mkdir(env, path, perms, options).calls
  }

  /** The external calls a sequence of requests issues, in order. */
  function SessionCalls(env: Env, reqs: seq<Request>): seq<Call> {
    if reqs == [] then [] else IssuedCalls(env, reqs[0]) + SessionCalls(env, reqs[1..])
  }

  /** `x` is what `strip` makes of some valid path among `paths`. */
  ghost predicate StrippedFromAny(x: Path, paths: seq<Path>) {
    exists q :: q in paths && Valid(q) && x == Strip(q)
  }

  /** `x` is what `strip` makes of some valid path named by one of `reqs`. */
  ghost predicate StrippedFrom(x: Path, reqs: seq<Request>) {
    exists i :: 0 <= i < |reqs| && StrippedFromAny(x, RequestPaths(reqs[i]))
  }

  /** Every path that `calls` hand to a collaborator is absolute and stripped from a path of `reqs`. */
  ghost predicate Confined(calls: seq<Call>, reqs: seq<Request>) {
    forall c <- calls, x <- CallPaths(c) :: |x| > 0 && x[0] == '/' && StrippedFrom(x, reqs)
  }

  /** Every path one request hands to a collaborator is a stripped valid path it named. */
  lemma RequestConfined(env: Env, req: Request)
    ensures forall c <- IssuedCalls(env, req), x <- CallPaths(c) :: StrippedFromAny(x, RequestPaths(req))
  {
  }

  /** Confinement to the head of `reqs`, and to its tail, is confinement to `reqs`. */
  lemma ConfinedCons(head: seq<Call>, tail: seq<Call>, reqs: seq<Request>)
    requires reqs != []
    requires forall c <- head, x <- CallPaths(c) :: StrippedFromAny(x, RequestPaths(reqs[0]))
    requires Confined(tail, reqs[1..])
    ensures Confined(head + tail, reqs)
  {
    forall c <- head + tail, x <- CallPaths(c)
      ensures |x| > 0 && x[0] == '/' && StrippedFrom(x, reqs)
    {
      if c in head {
        assert StrippedFromAny(x, RequestPaths(reqs[0]));
      } else {
        assert c in tail;
        var i :| 0 <= i < |reqs[1..]| && StrippedFromAny(x, RequestPaths(reqs[1..][i]));
        assert reqs[1..][i] == reqs[i + 1];
      }
    }
  }

  /**
   * The reason the wrapper exists: whatever a caller asks, in whatever order,
   * every path that reaches the OS or a file handle is an absolute path left
   * by stripping a valid path the caller named. Invalid paths never get there.
   */
  lemma {:induction false} SessionConfined(env: Env, reqs: seq<Request>)
    ensures Confined(SessionCalls(env, reqs), reqs)
  {
    if reqs != [] {
      var head := IssuedCalls(env, reqs[0]);
      var tail := SessionCalls(env, reqs[1..]);
      assert SessionCalls(env, reqs) == head + tail;
      RequestConfined(env, reqs[0]);
      SessionConfined(env, reqs[1..]);
      ConfinedCons(head, tail, reqs);
    }
  }
}
