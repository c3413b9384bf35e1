/**
 * The engine's file-system helpers: joining a path onto PhysicsFS's base
 * directory, loading a whole file into a NUL-terminated heap buffer,
 * mounting the read paths and the write directory at start-up, and
 * wrapping a loaded file in an SDL memory stream.
 *
 * PhysicsFS and SDL are not part of this model: what their calls answer
 * arrives as parameters.  A `CharPtr` stands for a `char*` variable whose
 * address the C code passes around, and a `Heap` records every buffer
 * handed to free().
 */
module FsUtils {
  import opened Wrappers
  import opened CStrings

  /** A `char*` variable, passed by address as a `char**`. */
  class CharPtr {
    var p: array?<char>

    constructor (p: array?<char>)
      ensures this.p == p
    {
      this.p := p;
    }
  }

  /** The buffers given back to free(), in order. */
  class Heap {
    var freed: seq<array<char>>

    constructor ()
      ensures freed == []
    {
      freed := [];
    }
  }

  // ---------------------------------------------------------------------
  // Joining a path onto the base directory
  // ---------------------------------------------------------------------

  /** `s` ends with `suffix`. */
  predicate EndsWith(s: string, suffix: string) {
    |suffix| <= |s| && s[|s| - |suffix|..] == suffix
  }

  /** The base directory, a separator unless the base already ends in one, then the path. */
  function Joined(base: string, sep: string, path: string): string {
    base + (if EndsWith(base, sep) then "" else sep) + path
  }

  /**
   * The joined path starts with the base, ends with the path, has a
   * separator right before the path, and fits the base + path + separator
   * + NUL bytes the C code allocates.
   */
  lemma JoinedShape(base: string, sep: string, path: string)
    ensures var j := Joined(base, sep, path);
            j[..|base|] == base && j[|j| - |path|..] == path
            && EndsWith(j[..|j| - |path|], sep)
            && |j| + 1 <= |base| + |path| + |sep| + 1
  {
    var j := Joined(base, sep, path);
    if EndsWith(base, sep) {
      assert j[..|j| - |path|] == base;
    } else {
      assert j[..|j| - |path|] == base + sep;
    }
  }

  /** A base that already ends in the separator gets none added. */
  lemma JoinedNoDoubleSeparator(base: string, sep: string, path: string)
    requires EndsWith(base, sep)
    ensures Joined(base, sep, path) == base + path
  {
  }

  /**
   * Whether `base` ends with `sep`, comparing from the last character
   * backwards; the loop of XENO_concatBasePath with its indices one
   * lower than written, and the base's length guarded.
   */
  method EndsWithSeparator(base: string, sep: string) returns (ends: bool)
    ensures ends <==> EndsWith(base, sep)
  {
    if |sep| > |base| {
      return false;
    }
    var fromEnd := 1;
    while fromEnd <= |sep| && sep[|sep| - fromEnd] == base[|base| - fromEnd]
      invariant 1 <= fromEnd <= |sep| + 1
      invariant sep[|sep| - fromEnd + 1..] == base[|base| - fromEnd + 1..]
    {
      assert sep[|sep| - fromEnd..] == [sep[|sep| - fromEnd]] + sep[|sep| - fromEnd + 1..];
      assert base[|base| - fromEnd..] == [base[|base| - fromEnd]] + base[|base| - fromEnd + 1..];
      fromEnd := fromEnd + 1;
    }
    ends := fromEnd > |sep|;
    if !ends {
      assert base[|base| - |sep|..][|sep| - fromEnd] == base[|base| - fromEnd];
    }
  }

  /** How the scan of XENO_concatBasePath as written ends. */
  datatype SeparatorScan = ReadsOutOfBounds | NeedsSeparator | HasSeparator

  /**
   * The scan as written, from position `fromEnd` on: it compares
   * sep[|sep| - fromEnd - 1] with base[|base| - fromEnd - 1] while
   * fromEnd <= |sep|, so its last comparison reads index -1.
   */
  function ScanAsWritten(base: string, sep: string, fromEnd: nat): SeparatorScan
    requires fromEnd >= 1
    decreases |sep| + 1 - fromEnd
  {
    if fromEnd > |sep| then HasSeparator
    else if |sep| - fromEnd - 1 < 0 || |base| - fromEnd - 1 < 0 then ReadsOutOfBounds
    else if sep[|sep| - fromEnd - 1] == base[|base| - fromEnd - 1] then ScanAsWritten(base, sep, fromEnd + 1)
    else NeedsSeparator
  }

  /** The scan as written never concludes that a non-empty separator is already there. */
  lemma {:induction false} ScanAsWrittenNeverFindsSeparator(base: string, sep: string, fromEnd: nat)
    requires 1 <= fromEnd <= |sep|
    ensures ScanAsWritten(base, sep, fromEnd) != HasSeparator
    decreases |sep| + 1 - fromEnd
  {
    if fromEnd < |sep| && |base| - fromEnd - 1 >= 0 && sep[|sep| - fromEnd - 1] == base[|base| - fromEnd - 1] {
      ScanAsWrittenNeverFindsSeparator(base, sep, fromEnd + 1);
    }
  }

  /** With a one-character separator, the very first comparison reads before the separator string. */
  lemma SingleCharSeparatorReadsOutOfBounds(base: string, sep: string)
    requires |sep| == 1
    ensures ScanAsWritten(base, sep, 1) == ReadsOutOfBounds
  {
  }

  /** The scan loop of XENO_concatBasePath as written. */
  method ScanSeparatorAsWritten(base: string, sep: string) returns (r: SeparatorScan)
    ensures r == ScanAsWritten(base, sep, 1)
  {
    var fromEnd := 1;
    while fromEnd <= |sep|
      invariant 1 <= fromEnd <= |sep| + 1
      invariant ScanAsWritten(base, sep, fromEnd) == ScanAsWritten(base, sep, 1)
      decreases |sep| + 1 - fromEnd
    {
      if |sep| - fromEnd - 1 < 0 || |base| - fromEnd - 1 < 0 {
        return ReadsOutOfBounds;
      }
      if sep[|sep| - fromEnd - 1] != base[|base| - fromEnd - 1] {
        return NeedsSeparator;
      }
      fromEnd := fromEnd + 1;
    }
    r := HasSeparator;
  }

  /**
   * XENO_concatBasePath as written, for whichever verdict
   * (`needsSeparator`) its scan reaches: the separator is appended and
   * then cut off again by the terminator written at the base's length.
   */
  method ConcatBasePathAsWritten(path: string, target: CharPtr, base: string, sep: string,
                                 needsSeparator: bool, heap: Heap)
    requires NoNul(path) && NoNul(base) && NoNul(sep)
    modifies target, heap
    ensures heap.freed == old(heap.freed) + (if old(target.p) == null then [] else [old(target.p)])
    ensures target.p != null && fresh(target.p)
    ensures target.p.Length == |base| + |path| + |sep| + 1
    ensures Holds(target.p, base + path)
  {
    if target.p != null {
      heap.freed := heap.freed + [target.p];
      target.p := null;
    }
    var buffer := new char[|base| + |path| + |sep| + 1];
    StrCpy(buffer, base);
    buffer[|base|] := NUL;
    if needsSeparator {
      StrCat(buffer, base, sep);
      buffer[|base|] := NUL;
      assert buffer[..|base|] == base;
    }
    StrCat(buffer, base, path);
    target.p := buffer;
  }

  /** Whenever the base lacks the separator, the as-written result differs from the joined path. */
  lemma AsWrittenDropsSeparator(base: string, sep: string, path: string)
    requires !EndsWith(base, sep)
    ensures base + path != Joined(base, sep, path)
  {
  }

  /** A concrete case: base "D:\game", separator "\", path "data". */
  lemma AsWrittenDropsSeparatorExample()
    ensures Joined("D:\\game", "\\", "data") == "D:\\game\\data"
    ensures "D:\\game" + "data" == "D:\\gamedata"
  {
    assert !EndsWith("D:\\game", "\\") by {
      assert "D:\\game"[6..] == "e";
    }
  }

  /**
   * XENO_concatBasePath, corrected: frees the old target, allocates
   * base + path + separator + NUL bytes and fills them with the joined
   * path.  `base` and `sep` are what PHYSFS_getBaseDir and
   * PHYSFS_getDirSeparator answer.
   */
  method ConcatBasePath(path: string, target: CharPtr, base: string, sep: string, heap: Heap)
    requires NoNul(path) && NoNul(base) && NoNul(sep)
    modifies target, heap
    ensures heap.freed == old(heap.freed) + (if old(target.p) == null then [] else [old(target.p)])
    ensures target.p != null && fresh(target.p)
    ensures target.p.Length == |base| + |path| + |sep| + 1
    ensures Holds(target.p, Joined(base, sep, path))
  {
    if target.p != null {
      heap.freed := heap.freed + [target.p];
      target.p := null;
    }
    var buffer := new char[|base| + |path| + |sep| + 1];
    StrCpy(buffer, base);
    buffer[|base|] := NUL;
    var hasSeparator := EndsWithSeparator(base, sep);
    ghost var held := base;
    if !hasSeparator {
      StrCat(buffer, base, sep);
      held := base + sep;
    }
    StrCat(buffer, held, path);
    target.p := buffer;
  }

  // ---------------------------------------------------------------------
  // Loading a whole file
  // ---------------------------------------------------------------------

  /**
   * XENO_readFile: loads the file `name` of the mounted tree `files` into
   * a fresh buffer with a NUL after its last byte, and stores it in
   * `outData`, freeing what that held.  `mallocOk` says whether the
   * allocation succeeded, `readCount` is what PHYSFS_read answered (-1 on
   * an I/O error).  Returns the number of bytes loaded, 0 on any failure.
   */
  method ReadFile(files: map<string, string>, name: Option<string>, outData: CharPtr?,
                  mallocOk: bool, readCount: int, heap: Heap) returns (n: nat)
    requires name.Some? && name.value in files ==> |files[name.value]| < 0xFFFF_FFFF
    requires name.Some? && name.value in files ==> -1 <= readCount <= |files[name.value]|
    modifies outData, heap
    ensures name.None? || outData == null || name.value !in files || !mallocOk ==>
              n == 0 && heap.freed == old(heap.freed) && (outData != null ==> outData.p == old(outData.p))
    ensures name.Some? && outData != null && name.value in files && mallocOk
            && readCount != |files[name.value]| ==>
              n == 0 && outData.p == old(outData.p)
              && |heap.freed| == |old(heap.freed)| + 1 && heap.freed[..|old(heap.freed)|] == old(heap.freed)
              && fresh(heap.freed[|old(heap.freed)|])
    ensures name.Some? && outData != null && name.value in files && mallocOk
            && readCount == |files[name.value]| ==>
              n == |files[name.value]|
              && outData.p != null && fresh(outData.p) && outData.p.Length == n + 1
              && outData.p[..n] == files[name.value] && outData.p[n] == NUL
              && heap.freed == old(heap.freed) + (if old(outData.p) == null then [] else [old(outData.p)])
  {
    if name.None? || outData == null {
      return 0;
    }
    if name.value !in files {
      return 0;
    }
    var contents := files[name.value];
    var fileSize := |contents|;
    if !mallocOk {
      return 0;
    }
    var buffer := new char[fileSize + 1];
    var lengthRead := if readCount < 0 then 0xFFFF_FFFF else readCount;
    var j := 0;
    while j < lengthRead && j < fileSize
      modifies buffer
      invariant 0 <= j <= fileSize
      invariant buffer[..j] == contents[..j]
    {
      buffer[j] := contents[j];
      j := j + 1;
    }
    if lengthRead == fileSize {
      if outData.p != null {
        heap.freed := heap.freed + [outData.p];
      }
      buffer[lengthRead] := NUL;
      assert buffer[..fileSize] == contents;
      outData.p := buffer;
      return lengthRead;
    } else {
      heap.freed := heap.freed + [buffer];
      return 0;
    }
  }

  // ---------------------------------------------------------------------
  // Start-up mounting
  // ---------------------------------------------------------------------

  /** The part of the PhysicsFS state the start-up sequence changes. */
  class Vfs {
    var initialised: bool
    var searchPath: seq<string>
    var writeDir: Option<string>

    constructor ()
      ensures !initialised && searchPath == [] && writeDir == None
    {
      initialised := false;
      searchPath := [];
      writeDir := None;
    }
  }

  /** The number of read paths, from `i` on, mounted before the first one PhysicsFS refuses. */
  function MountablePrefix(paths: seq<string>, i: nat, base: string, sep: string, mountOk: string -> bool): (k: nat)
    requires i <= |paths|
    ensures i <= k <= |paths|
    ensures forall j :: i <= j < k ==> mountOk(Joined(base, sep, paths[j]))
    ensures k < |paths| ==> !mountOk(Joined(base, sep, paths[k]))
    decreases |paths| - i
  {
    if i == |paths| || !mountOk(Joined(base, sep, paths[i])) then i
    else MountablePrefix(paths, i + 1, base, sep, mountOk)
  }

  /** The joined form of each of `paths`, in order. */
  function JoinedAll(paths: seq<string>, base: string, sep: string): (r: seq<string>)
    ensures |r| == |paths|
    ensures forall j :: 0 <= j < |paths| ==> r[j] == Joined(base, sep, paths[j])
  {
    if paths == [] then [] else [Joined(base, sep, paths[0])] + JoinedAll(paths[1..], base, sep)
  }

  /**
   * For a base that already ends in the separator, as PhysicsFS's nxdk
   * base directory "T:\\" does, each joined path is the base followed by
   * the path: the intended join and the one XENO_concatBasePath computes
   * as written agree.
   */
  lemma {:induction false} JoinedAllIsConcatenation(paths: seq<string>, base: string, sep: string)
    requires EndsWith(base, sep)
    ensures forall j :: 0 <= j < |paths| ==> JoinedAll(paths, base, sep)[j] == base + paths[j]
  {
    forall j | 0 <= j < |paths|
      ensures JoinedAll(paths, base, sep)[j] == base + paths[j]
    {
      JoinedNoDoubleSeparator(base, sep, paths[j]);
    }
  }

  /**
   * The mounting loop of XENO_initFilesystem: joins each read path onto
   * the base directory into one reused target buffer and mounts it at the
   * root, stopping at the first mount PhysicsFS refuses; the target
   * buffer is freed on the way out either way.
   */
  method MountReadPaths(paths: seq<string>, base: string, sep: string, mountOk: string -> bool,
                        vfs: Vfs, heap: Heap) returns (ok: bool)
    requires forall j :: 0 <= j < |paths| ==> NoNul(paths[j])
    requires NoNul(base) && NoNul(sep)
    requires EndsWith(base, sep)
    modifies vfs`searchPath, heap
    ensures var k := MountablePrefix(paths, 0, base, sep, mountOk);
            vfs.searchPath == old(vfs.searchPath) + JoinedAll(paths[..k], base, sep)
            && (ok <==> k == |paths|)
            && |heap.freed| == |old(heap.freed)| + (if k < |paths| then k + 1 else |paths|)
    ensures var k := MountablePrefix(paths, 0, base, sep, mountOk);
            forall j :: 0 <= j < k ==> vfs.searchPath[|old(vfs.searchPath)| + j] == base + paths[j]
  {
    var target := new CharPtr(null);
    ghost var k := MountablePrefix(paths, 0, base, sep, mountOk);
    var n := 0;
    while n < |paths|
      invariant 0 <= n <= |paths| && n <= k
      invariant vfs.searchPath == old(vfs.searchPath) + JoinedAll(paths[..n], base, sep)
      invariant n == 0 ==> target.p == null && |heap.freed| == |old(heap.freed)|
      invariant n > 0 ==> target.p != null && |heap.freed| == |old(heap.freed)| + n - 1
      decreases |paths| - n
    {
      ConcatBasePath(paths[n], target, base, sep, heap);
      PrefixOfMountable(paths, base, sep, mountOk, n);
      if !mountOk(target.p[..|Joined(base, sep, paths[n])|]) {
        heap.freed := heap.freed + [target.p];
        JoinedAllIsConcatenation(paths[..k], base, sep);
        return false;
      }
      JoinedAllStep(paths, n, base, sep);
      vfs.searchPath := vfs.searchPath + [Joined(base, sep, paths[n])];
      n := n + 1;
    }
    assert paths[..n] == paths;
    JoinedAllIsConcatenation(paths[..k], base, sep);
    if target.p != null {
      heap.freed := heap.freed + [target.p];
    }
    ok := true;
  }

  /** The read paths XENO_initFilesystem is asked to mount. */
  function RequestedPaths(readPaths: Option<seq<string>>, nReadPaths: nat): seq<string>
    requires readPaths.Some? ==> nReadPaths <= |readPaths.value|
  {
    if readPaths.Some? then readPaths.value[..nReadPaths] else []
  }

  /**
   * XENO_initFilesystem: after PHYSFS_init (`initOk`), mounts the first
   * `nReadPaths` read paths, each joined onto the base directory, in
   * order at the root of the tree, stopping at the first that
   * PHYSFS_mount (`mountOk`) refuses; then sets the preference directory
   * (`prefDir`) as the write directory, which PHYSFS_setWriteDir accepts
   * or not (`writeDirOk`).
   */
  method InitFilesystem(readPaths: Option<seq<string>>, nReadPaths: nat, base: string, sep: string,
                        initOk: bool, mountOk: string -> bool, prefDir: Option<string>, writeDirOk: bool,
                        vfs: Vfs, heap: Heap) returns (rv: bool)
    requires readPaths.Some? ==> nReadPaths <= |readPaths.value|
    requires readPaths.Some? ==> forall j :: 0 <= j < |readPaths.value| ==> NoNul(readPaths.value[j])
    requires NoNul(base) && NoNul(sep)
    requires EndsWith(base, sep)
    modifies vfs, heap
    ensures !initOk ==> !rv && vfs.searchPath == old(vfs.searchPath) && vfs.writeDir == old(vfs.writeDir)
                        && heap.freed == old(heap.freed)
    ensures initOk ==>
              var paths := RequestedPaths(readPaths, nReadPaths);
              var k := MountablePrefix(paths, 0, base, sep, mountOk);
              vfs.initialised
              && vfs.searchPath == old(vfs.searchPath) + JoinedAll(paths[..k], base, sep)
              && (k < |paths| ==> !rv && vfs.writeDir == old(vfs.writeDir))
              && (k == |paths| ==> rv == writeDirOk && vfs.writeDir == if writeDirOk then prefDir else old(vfs.writeDir))
              && |heap.freed| == |old(heap.freed)| + (if k < |paths| then k + 1 else |paths|)
    ensures initOk ==>
              var paths := RequestedPaths(readPaths, nReadPaths);
              var k := MountablePrefix(paths, 0, base, sep, mountOk);
              forall j :: 0 <= j < k ==> vfs.searchPath[|old(vfs.searchPath)| + j] == base + paths[j]
  {
    if !initOk {
      return false;
    }
    vfs.initialised := true;
    var paths := RequestedPaths(readPaths, nReadPaths);
    var ok := MountReadPaths(paths, base, sep, mountOk, vfs, heap);
    if !ok {
      return false;
    }
    rv := writeDirOk;
    if writeDirOk {
      vfs.writeDir := prefDir;
    }
  }

  lemma JoinedAllStep(paths: seq<string>, n: nat, base: string, sep: string)
    requires n < |paths|
    ensures JoinedAll(paths[..n + 1], base, sep) == JoinedAll(paths[..n], base, sep) + [Joined(base, sep, paths[n])]
  {
  }

  /**
   * At step n of the mounting loop, either the n-th path is the first one
   * refused (and n is the prefix length) or it is accepted and the prefix
   * reaches beyond n.
   */
  lemma PrefixOfMountable(paths: seq<string>, base: string, sep: string, mountOk: string -> bool, n: nat)
    requires n < |paths| && n <= MountablePrefix(paths, 0, base, sep, mountOk)
    ensures mountOk(Joined(base, sep, paths[n])) ==> n < MountablePrefix(paths, 0, base, sep, mountOk)
    ensures !mountOk(Joined(base, sep, paths[n])) ==> n == MountablePrefix(paths, 0, base, sep, mountOk)
  {
  }

  // ---------------------------------------------------------------------
  // SDL memory streams
  // ---------------------------------------------------------------------

  /** An SDL_RWops over a memory block. */
  class RwOps {
    var base: array?<char>
    var size: nat
    var closed: bool

    constructor (base: array<char>, size: nat)
      ensures this.base == base && this.size == size && !closed
    {
      this.base := base;
      this.size := size;
      closed := false;
    }
  }

  /**
   * XENO_openSDLBuffer: loads the file and wraps the loaded bytes, NUL
   * excluded, in a memory stream; `rwOk` says whether SDL_RWFromMem
   * succeeded.  An empty or unreadable file gives no stream.
   */
  method OpenSdlBuffer(files: map<string, string>, name: Option<string>, mallocOk: bool, readCount: int,
                       rwOk: bool, heap: Heap) returns (rw: RwOps?)
    requires name.Some? && name.value in files ==> |files[name.value]| < 0xFFFF_FFFF
    requires name.Some? && name.value in files ==> -1 <= readCount <= |files[name.value]|
    modifies heap
    ensures var loaded := name.Some? && name.value in files && mallocOk && readCount == |files[name.value]|;
            (rw != null <==> loaded && |files[name.value]| > 0 && rwOk)
    ensures rw != null ==>
              fresh(rw) && rw.base != null && fresh(rw.base) && !rw.closed
              && rw.size == |files[name.value]| && rw.size < rw.base.Length && rw.base[..rw.size] == files[name.value]
    ensures rw != null ==> heap.freed == old(heap.freed)
    ensures !(name.Some? && name.value in files && mallocOk) ==> rw == null && heap.freed == old(heap.freed)
    ensures name.Some? && name.value in files && mallocOk
            && (readCount != |files[name.value]| || |files[name.value]| == 0) ==>
              rw == null
              && |heap.freed| == |old(heap.freed)| + 1 && heap.freed[..|old(heap.freed)|] == old(heap.freed)
              && fresh(heap.freed[|old(heap.freed)|])
    ensures name.Some? && name.value in files && mallocOk
            && readCount == |files[name.value]| && |files[name.value]| > 0 && !rwOk ==>
              rw == null && heap.freed == old(heap.freed)
  {
    var buffer := new CharPtr(null);
    var size := ReadFile(files, name, buffer, mallocOk, readCount, heap);
    if buffer.p != null {
      if size != 0 {
        if rwOk {
          rw := new RwOps(buffer.p, size);
        } else {
          rw := null;
        }
      } else {
        heap.freed := heap.freed + [buffer.p];
        rw := null;
      }
    } else {
      rw := null;
    }
  }

  /** XENO_closeSDLBuffer: closes the stream and frees the memory block under it. */
  method CloseSdlBuffer(rw: RwOps?, heap: Heap)
    modifies rw, heap
    ensures rw == null ==> heap.freed == old(heap.freed)
    ensures rw != null ==>
              rw.closed
              && heap.freed == old(heap.freed) + (if old(rw.base) == null then [] else [old(rw.base)])
  {
    if rw != null {
      var buf := rw.base;
      rw.closed := true;
      if buf != null {
        heap.freed := heap.freed + [buf];
      }
    }
  }
}
