/**
 * The PhysicsFS platform layer for the original Xbox (nxdk): how Win32 and
 * C-library failures become PhysicsFS error codes, how 64-bit file
 * positions travel through the 32-bit Win32 calls, the chunked read and
 * write loops, directory enumeration, the preference directory, the
 * CD-media bitmap and the classification done by stat.
 *
 * Win32 and libc calls are not part of this model: each appears as a
 * parameter carrying what the call answered.
 */
module PhysfsNxdk {
  import opened Wrappers
  import opened CStrings

  /** A Win32 DWORD. */
  type Dword = x: int | 0 <= x <= 0xFFFF_FFFF

  // ---------------------------------------------------------------------
  // Error codes
  // ---------------------------------------------------------------------

  /** The PhysicsFS error codes this platform layer can report. */
  datatype ErrorCode =
    | Ok | Permission | Io | BadFilename | NotFound | NoSpace | ReadOnly
    | Busy | OutOfMemory | DirNotEmpty | OsError | SymlinkLoop | NotAFile
    | AppCallback | InvalidArgument

  // Win32 error numbers, as winerror.h defines them.
  const ERROR_SUCCESS: Dword := 0
  const ERROR_FILE_NOT_FOUND: Dword := 2
  const ERROR_PATH_NOT_FOUND: Dword := 3
  const ERROR_ACCESS_DENIED: Dword := 5
  const ERROR_NOT_ENOUGH_MEMORY: Dword := 8
  const ERROR_OUTOFMEMORY: Dword := 14
  const ERROR_INVALID_DRIVE: Dword := 15
  const ERROR_CURRENT_DIRECTORY: Dword := 16
  const ERROR_WRITE_PROTECT: Dword := 19
  const ERROR_NOT_READY: Dword := 21
  const ERROR_CRC: Dword := 23
  const ERROR_SEEK: Dword := 25
  const ERROR_NOT_DOS_DISK: Dword := 26
  const ERROR_SECTOR_NOT_FOUND: Dword := 27
  const ERROR_WRITE_FAULT: Dword := 29
  const ERROR_READ_FAULT: Dword := 30
  const ERROR_SHARING_VIOLATION: Dword := 32
  const ERROR_LOCK_VIOLATION: Dword := 33
  const ERROR_HANDLE_DISK_FULL: Dword := 39
  const ERROR_DEV_NOT_EXIST: Dword := 55
  const ERROR_NETWORK_ACCESS_DENIED: Dword := 65
  const ERROR_DRIVE_LOCKED: Dword := 108
  const ERROR_BUFFER_OVERFLOW: Dword := 111
  const ERROR_DISK_FULL: Dword := 112
  const ERROR_INVALID_NAME: Dword := 123
  const ERROR_DIR_NOT_EMPTY: Dword := 145
  const ERROR_PATH_BUSY: Dword := 148
  const ERROR_BAD_PATHNAME: Dword := 161
  const ERROR_BUSY: Dword := 170
  const ERROR_DIRECTORY: Dword := 267
  const ERROR_DELETE_PENDING: Dword := 303

  const WinPermissionErrors: set<int> := {ERROR_ACCESS_DENIED, ERROR_NETWORK_ACCESS_DENIED}
  const WinIoErrors: set<int> :=
    {ERROR_NOT_READY, ERROR_CRC, ERROR_SEEK, ERROR_SECTOR_NOT_FOUND, ERROR_NOT_DOS_DISK,
     ERROR_WRITE_FAULT, ERROR_READ_FAULT, ERROR_DEV_NOT_EXIST}
  const WinBadFilenameErrors: set<int> :=
    {ERROR_BUFFER_OVERFLOW, ERROR_INVALID_NAME, ERROR_BAD_PATHNAME, ERROR_DIRECTORY}
  const WinNotFoundErrors: set<int> :=
    {ERROR_FILE_NOT_FOUND, ERROR_PATH_NOT_FOUND, ERROR_DELETE_PENDING, ERROR_INVALID_DRIVE}
  const WinNoSpaceErrors: set<int> := {ERROR_HANDLE_DISK_FULL, ERROR_DISK_FULL}
  const WinBusyErrors: set<int> :=
    {ERROR_LOCK_VIOLATION, ERROR_SHARING_VIOLATION, ERROR_CURRENT_DIRECTORY,
     ERROR_DRIVE_LOCKED, ERROR_PATH_BUSY, ERROR_BUSY}
  const WinOutOfMemoryErrors: set<int> := {ERROR_NOT_ENOUGH_MEMORY, ERROR_OUTOFMEMORY}

  /** Every Win32 error number the translation table names. */
  const WinListedErrors: set<int> :=
    {ERROR_SUCCESS, ERROR_WRITE_PROTECT, ERROR_DIR_NOT_EMPTY} + WinPermissionErrors
    + WinIoErrors + WinBadFilenameErrors + WinNotFoundErrors + WinNoSpaceErrors
    + WinBusyErrors + WinOutOfMemoryErrors

  /** Translates a GetLastError() value into a PhysicsFS error code. */
  function ErrcodeFromWinApiError(err: Dword): (r: ErrorCode)
    ensures r == Ok <==> err == ERROR_SUCCESS
    ensures r == Permission <==> err in WinPermissionErrors
    ensures r == Io <==> err in WinIoErrors
    ensures r == BadFilename <==> err in WinBadFilenameErrors
    ensures r == NotFound <==> err in WinNotFoundErrors
    ensures r == NoSpace <==> err in WinNoSpaceErrors
    ensures r == ReadOnly <==> err == ERROR_WRITE_PROTECT
    ensures r == Busy <==> err in WinBusyErrors
    ensures r == OutOfMemory <==> err in WinOutOfMemoryErrors
    ensures r == DirNotEmpty <==> err == ERROR_DIR_NOT_EMPTY
  {
    match err
    case 0 => Ok              // ERROR_SUCCESS
    case 5 => Permission      // ERROR_ACCESS_DENIED
    case 65 => Permission     // ERROR_NETWORK_ACCESS_DENIED
    case 21 => Io             // ERROR_NOT_READY
    case 23 => Io             // ERROR_CRC
    case 25 => Io             // ERROR_SEEK
    case 27 => Io             // ERROR_SECTOR_NOT_FOUND
    case 26 => Io             // ERROR_NOT_DOS_DISK
    case 29 => Io             // ERROR_WRITE_FAULT
    case 30 => Io             // ERROR_READ_FAULT
    case 55 => Io             // ERROR_DEV_NOT_EXIST
    case 111 => BadFilename   // ERROR_BUFFER_OVERFLOW
    case 123 => BadFilename   // ERROR_INVALID_NAME
    case 161 => BadFilename   // ERROR_BAD_PATHNAME
    case 267 => BadFilename   // ERROR_DIRECTORY
    case 2 => NotFound        // ERROR_FILE_NOT_FOUND
    case 3 => NotFound        // ERROR_PATH_NOT_FOUND
    case 303 => NotFound      // ERROR_DELETE_PENDING
    case 15 => NotFound       // ERROR_INVALID_DRIVE
    case 39 => NoSpace        // ERROR_HANDLE_DISK_FULL
    case 112 => NoSpace       // ERROR_DISK_FULL
    case 19 => ReadOnly       // ERROR_WRITE_PROTECT
    case 33 => Busy           // ERROR_LOCK_VIOLATION
    case 32 => Busy           // ERROR_SHARING_VIOLATION
    case 16 => Busy           // ERROR_CURRENT_DIRECTORY
    case 108 => Busy          // ERROR_DRIVE_LOCKED
    case 148 => Busy          // ERROR_PATH_BUSY
    case 170 => Busy          // ERROR_BUSY
    case 8 => OutOfMemory     // ERROR_NOT_ENOUGH_MEMORY
    case 14 => OutOfMemory    // ERROR_OUTOFMEMORY
    case 145 => DirNotEmpty   // ERROR_DIR_NOT_EMPTY
    case _ => OsError
  }

  // errno values in the common POSIX numbering; the translation depends
  // only on their being distinct.
  const EPERM: int := 1
  const ENOENT: int := 2
  const EIO: int := 5
  const ENOMEM: int := 12
  const EACCES: int := 13
  const EBUSY: int := 16
  const ENOTDIR: int := 20
  const EISDIR: int := 21
  const ETXTBSY: int := 26
  const ENOSPC: int := 28
  const EROFS: int := 30
  const EMLINK: int := 31
  const ENAMETOOLONG: int := 36
  const ENOTEMPTY: int := 39
  const ELOOP: int := 40

  const ErrnoListed: set<int> :=
    {0, EACCES, EPERM, EIO, ELOOP, EMLINK, ENAMETOOLONG, ENOENT, ENOSPC, ENOTDIR,
     EISDIR, EROFS, ETXTBSY, EBUSY, ENOMEM, ENOTEMPTY}

  /** Translates an errno value into a PhysicsFS error code. */
  function ErrcodeFromErrnoError(err: int): (r: ErrorCode)
    ensures r == Ok <==> err == 0
    ensures r == Permission <==> err in {EACCES, EPERM}
    ensures r == Io <==> err == EIO
    ensures r == SymlinkLoop <==> err == ELOOP
    ensures r == NoSpace <==> err in {EMLINK, ENOSPC}
    ensures r == BadFilename <==> err == ENAMETOOLONG
    ensures r == NotFound <==> err in {ENOENT, ENOTDIR}
    ensures r == NotAFile <==> err == EISDIR
    ensures r == ReadOnly <==> err == EROFS
    ensures r == Busy <==> err in {ETXTBSY, EBUSY}
    ensures r == OutOfMemory <==> err == ENOMEM
    ensures r == DirNotEmpty <==> err == ENOTEMPTY
    ensures r == OsError <==> err !in ErrnoListed
  {
    match err
    case 0 => Ok
    case 13 => Permission     // EACCES
    case 1 => Permission      // EPERM
    case 5 => Io              // EIO
    case 40 => SymlinkLoop    // ELOOP
    case 31 => NoSpace        // EMLINK
    case 36 => BadFilename    // ENAMETOOLONG
    case 2 => NotFound        // ENOENT
    case 28 => NoSpace        // ENOSPC
    case 20 => NotFound       // ENOTDIR
    case 21 => NotAFile       // EISDIR
    case 30 => ReadOnly       // EROFS
    case 26 => Busy           // ETXTBSY
    case 16 => Busy           // EBUSY
    case 12 => OutOfMemory    // ENOMEM
    case 39 => DirNotEmpty    // ENOTEMPTY
    case _ => OsError
  }

  /** Exactly the Win32 errors the table does not name fall back to the generic OS error. */
  lemma WinUnlistedIsOsError(err: Dword)
    ensures ErrcodeFromWinApiError(err) == OsError <==> err !in WinListedErrors
  {
  }

  /** The Win32 table never reports the codes that only errno or PhysicsFS itself produce. */
  lemma WinApiErrorsNeverPosixOnly(err: Dword)
    ensures ErrcodeFromWinApiError(err) !in {SymlinkLoop, NotAFile, AppCallback, InvalidArgument}
  {
  }

  // ---------------------------------------------------------------------
  // 64-bit positions through 32-bit Win32 calls
  // ---------------------------------------------------------------------

  const INVALID_SET_FILE_POINTER: bv32 := 0xFFFF_FFFF
  const NO_ERROR: Dword := 0

  /** The (low, high) halves a 64-bit position is cut into for SetFilePointer. */
  function SplitPosition(pos: bv64): (bv32, bv32) {
    ((pos & 0xFFFF_FFFF) as bv32, ((pos >> 32) & 0xFFFF_FFFF) as bv32)
  }

  /** The 64-bit value whose low half is `low` and whose high half is `high`. */
  function CombineHalves(low: bv32, high: bv32): bv64 {
    (low as bv64) | ((high as bv64) << 32)
  }

  /** Converting a signed 32-bit LONG to a signed 64-bit integer. */
  function SignExtend(x: bv32): bv64 {
    if x & 0x8000_0000 == 0 then x as bv64 else (x as bv64) | 0xFFFF_FFFF_0000_0000
  }

  /** Combining the halves SplitPosition produced gives the position back. */
  lemma CombineSplit(pos: bv64)
    ensures CombineHalves(SplitPosition(pos).0, SplitPosition(pos).1) == pos
  {
  }

  /** Splitting a combined value gives back the halves. */
  lemma SplitCombine(low: bv32, high: bv32)
    ensures SplitPosition(CombineHalves(low, high)) == (low, high)
  {
  }

  /** Sign-extending the high half first makes no difference once it is shifted up by 32. */
  lemma SignExtensionShiftedOut(high: bv32)
    ensures SignExtend(high) << 32 == (high as bv64) << 32
  {
    if high & 0x8000_0000 != 0 {
      var wide := high as bv64;
      assert (wide | 0xFFFF_FFFF_0000_0000) << 32 == wide << 32;
    }
  }

  /** What SetFilePointer answered: the low half of the new position, the new high half and GetLastError(). */
  datatype SeekReply = SeekReply(low: bv32, high: bv32, lastError: Dword)

  /**
   * winSetFilePointer: passes the halves of `pos` to SetFilePointer
   * (modelled by `seek`), rebuilds the new 64-bit position from its answer
   * and fails only when the low half is 0xFFFFFFFF and an error is pending.
   */
  function WinSetFilePointer(pos: bv64, seek: (bv32, bv32) -> SeekReply): (r: (bool, bv64))
    ensures !r.0 <==> seek(SplitPosition(pos).0, SplitPosition(pos).1).low == INVALID_SET_FILE_POINTER
                      && seek(SplitPosition(pos).0, SplitPosition(pos).1).lastError != NO_ERROR
    ensures SplitPosition(r.1) == (seek(SplitPosition(pos).0, SplitPosition(pos).1).low,
                                   seek(SplitPosition(pos).0, SplitPosition(pos).1).high)
  {
    var halves := SplitPosition(pos);
    var reply := seek(halves.0, halves.1);
    SignExtensionShiftedOut(reply.high);
    SplitCombine(reply.low, reply.high);
    var newPos := (reply.low as bv64) | (SignExtend(reply.high) << 32);
    (!(reply.low == INVALID_SET_FILE_POINTER && reply.lastError != NO_ERROR), newPos)
  }

  /** When SetFilePointer lands exactly on the requested position, that position is reported back. */
  lemma SeekToRequestedReportsIt(pos: bv64, seek: (bv32, bv32) -> SeekReply)
    requires seek(SplitPosition(pos).0, SplitPosition(pos).1).low == SplitPosition(pos).0
    requires seek(SplitPosition(pos).0, SplitPosition(pos).1).high == SplitPosition(pos).1
    ensures WinSetFilePointer(pos, seek).1 == pos
  {
    var r := WinSetFilePointer(pos, seek);
    SplitCombine(SplitPosition(pos).0, SplitPosition(pos).1);
    CombineSplit(pos);
    CombineSplit(r.1);
  }

  /** The signed 64-bit integer a 64-bit pattern denotes. */
  function Signed64(u: nat): int
    requires u < 0x1_0000_0000_0000_0000
  {
    if u < 0x8000_0000_0000_0000 then u else u - 0x1_0000_0000_0000_0000
  }

  /**
   * winGetFileSize: -1 when GetFileSize answered 0xFFFFFFFF with an error
   * pending, otherwise the 64-bit size read as a signed value.
   */
  function WinGetFileSize(low: Dword, high: Dword, lastError: Dword): (size: int)
    ensures low == 0xFFFF_FFFF && lastError != NO_ERROR ==> size == -1
    ensures size == -1 ==> low == 0xFFFF_FFFF
    ensures !(low == 0xFFFF_FFFF && lastError != NO_ERROR) && high < 0x8000_0000 ==>
              size == high * 0x1_0000_0000 + low
    ensures !(low == 0xFFFF_FFFF && lastError != NO_ERROR) && high >= 0x8000_0000 ==> size < 0
  {
    if low == 0xFFFF_FFFF && lastError != NO_ERROR then -1
    else Signed64(high * 0x1_0000_0000 + low)
  }

  /** The arithmetic of WinGetFileSize is the bit-level combination of the two halves. */
  lemma FileSizeIsCombinedHalves(low: bv32, high: bv32)
    ensures CombineHalves(low, high) as int == high as int * 0x1_0000_0000 + low as int
  {
    assert CombineHalves(low, high) == (low as bv64) | ((high as bv64) << 32);
  }

  // ---------------------------------------------------------------------
  // Chunked reading and writing
  // ---------------------------------------------------------------------

  const MAX_CHUNK: nat := 0xFFFF_FFFF

  /** What one ReadFile or WriteFile call answered. */
  datatype IoReply = IoFailed(lastError: Dword) | IoDone(count: nat)

  /** The outcome of a whole transfer: -1 with an error code, or the byte count. */
  datatype IoResult = IoError(code: ErrorCode) | IoCount(total: nat)

  /** A ReadFile/WriteFile never reports more bytes than it was asked for. */
  ghost predicate HonestDevice(device: (nat, nat) -> IoReply) {
    forall call: nat, want: nat {:trigger device(call, want)} ::
      device(call, want).IoDone? ==> device(call, want).count <= want
  }

  /** The length of the next call: what remains, capped at a DWORD. */
  function ChunkLength(remaining: nat): (n: nat)
    ensures n <= MAX_CHUNK && n <= remaining
    ensures remaining > 0 ==> n > 0
  {
    if remaining > MAX_CHUNK then MAX_CHUNK else remaining
  }

  /**
   * The transfer loop from a state where `remaining` bytes are left,
   * `total` have been moved and the lengths in `asked` have been asked
   * for; `device(call, want)` is the answer of the call numbered `call`.
   * The result is the outcome and every length asked for.
   */
  function Transfer(remaining: nat, device: (nat, nat) -> IoReply, call: nat, total: nat, asked: seq<nat>)
    : (IoResult, seq<nat>)
    decreases remaining
  {
    if remaining == 0 then (IoCount(total), asked)
    else
      var want := ChunkLength(remaining);
      match device(call, want)
      case IoFailed(e) => (IoError(ErrcodeFromWinApiError(e)), asked + [want])
      case IoDone(n) =>
        if n != want then (IoCount(total + n), asked + [want])
        else Transfer(remaining - n, device, call + 1, total + n, asked + [want])
  }

  /** The whole transfer of `len` bytes. */
  function TransferAll(len: nat, device: (nat, nat) -> IoReply): (IoResult, seq<nat>) {
    Transfer(len, device, 0, 0, [])
  }

  /** A call answered in full moves the loop on to the rest. */
  lemma TransferFullCall(remaining: nat, device: (nat, nat) -> IoReply, call: nat, total: nat, asked: seq<nat>)
    requires remaining > 0 && device(call, ChunkLength(remaining)) == IoDone(ChunkLength(remaining))
    ensures var want := ChunkLength(remaining);
            Transfer(remaining, device, call, total, asked)
              == Transfer(remaining - want, device, call + 1, total + want, asked + [want])
  {
  }

  /** A call that fails or comes up short ends the loop. */
  lemma TransferLastCall(remaining: nat, device: (nat, nat) -> IoReply, call: nat, total: nat, asked: seq<nat>)
    requires remaining > 0 && device(call, ChunkLength(remaining)) != IoDone(ChunkLength(remaining))
    ensures var want := ChunkLength(remaining);
            Transfer(remaining, device, call, total, asked).1 == asked + [want]
            && (device(call, want).IoFailed? ==>
                  Transfer(remaining, device, call, total, asked).0
                    == IoError(ErrcodeFromWinApiError(device(call, want).lastError)))
            && (device(call, want).IoDone? ==>
                  Transfer(remaining, device, call, total, asked).0 == IoCount(total + device(call, want).count))
  {
  }

  /** A transfer never reports more bytes than were asked for. */
  lemma {:induction false} TransferBounded(remaining: nat, device: (nat, nat) -> IoReply, call: nat,
                                           total: nat, asked: seq<nat>)
    requires HonestDevice(device)
    ensures var r := Transfer(remaining, device, call, total, asked).0;
            r.IoCount? ==> total <= r.total <= total + remaining
    decreases remaining
  {
    if remaining > 0 {
      var want := ChunkLength(remaining);
      if device(call, want) == IoDone(want) {
        TransferFullCall(remaining, device, call, total, asked);
        TransferBounded(remaining - want, device, call + 1, total + want, asked + [want]);
      } else {
        TransferLastCall(remaining, device, call, total, asked);
      }
    }
  }

  /** The lengths asked for extend the ones asked before. */
  lemma {:induction false} TransferExtendsAsked(remaining: nat, device: (nat, nat) -> IoReply, call: nat,
                                                total: nat, asked: seq<nat>)
    ensures var out := Transfer(remaining, device, call, total, asked).1;
            |asked| < |out| || (remaining == 0 && out == asked)
    ensures var out := Transfer(remaining, device, call, total, asked).1;
            |asked| <= |out| && out[..|asked|] == asked
    decreases remaining
  {
    if remaining > 0 {
      var want := ChunkLength(remaining);
      if device(call, want) == IoDone(want) {
        TransferFullCall(remaining, device, call, total, asked);
        TransferExtendsAsked(remaining - want, device, call + 1, total + want, asked + [want]);
        var out := Transfer(remaining, device, call, total, asked).1;
        assert out[..|asked|] == out[..|asked| + 1][..|asked|];
      } else {
        TransferLastCall(remaining, device, call, total, asked);
      }
    }
  }

  /**
   * The lengths asked for extend `asked`; each new one is at least one
   * byte and at most a DWORD's worth, and together they are no more than
   * `remaining`.
   */
  lemma {:induction false} TransferChunksValid(remaining: nat, device: (nat, nat) -> IoReply, call: nat,
                                               total: nat, asked: seq<nat>)
    ensures var out := Transfer(remaining, device, call, total, asked).1;
            |asked| <= |out| && out[..|asked|] == asked
            && (forall i :: |asked| <= i < |out| ==> 0 < out[i] <= MAX_CHUNK)
            && Sum(out[|asked|..]) <= remaining
    decreases remaining
  {
    var out := Transfer(remaining, device, call, total, asked).1;
    if remaining == 0 {
      assert out[|asked|..] == [];
    } else {
      var want := ChunkLength(remaining);
      if device(call, want) == IoDone(want) {
        TransferFullCall(remaining, device, call, total, asked);
        TransferChunksValid(remaining - want, device, call + 1, total + want, asked + [want]);
        assert out[..|asked| + 1] == asked + [want];
        assert out[|asked|] == want;
        assert out[|asked|..][1..] == out[|asked| + 1..];
      } else {
        TransferLastCall(remaining, device, call, total, asked);
        assert out[|asked|..] == [want];
      }
    }
  }

  function Sum(s: seq<nat>): nat {
    if s == [] then 0 else s[0] + Sum(s[1..])
  }

  /** A device that always delivers everything makes the transfer report every byte. */
  lemma {:induction false} FullDeviceTransfersAll(remaining: nat, device: (nat, nat) -> IoReply, call: nat,
                                                  total: nat, asked: seq<nat>)
    requires forall c: nat, w: nat {:trigger device(c, w)} :: device(c, w) == IoDone(w)
    ensures Transfer(remaining, device, call, total, asked).0 == IoCount(total + remaining)
    decreases remaining
  {
    if remaining > 0 {
      var want := ChunkLength(remaining);
      TransferFullCall(remaining, device, call, total, asked);
      FullDeviceTransfersAll(remaining - want, device, call + 1, total + want, asked + [want]);
    }
  }

  /** Every new call but the last was answered in full: the loop stops at the first short or failed call. */
  lemma {:induction false} TransferStopsAtFirstShortCall(remaining: nat, device: (nat, nat) -> IoReply, call: nat,
                                                         total: nat, asked: seq<nat>)
    ensures var out := Transfer(remaining, device, call, total, asked).1;
            forall i :: |asked| <= i < |out| - 1 ==> device(call + (i - |asked|), out[i]) == IoDone(out[i])
    decreases remaining
  {
    if remaining > 0 {
      var want := ChunkLength(remaining);
      if device(call, want) == IoDone(want) {
        TransferFullCall(remaining, device, call, total, asked);
        TransferStopsAtFirstShortCall(remaining - want, device, call + 1, total + want, asked + [want]);
        TransferExtendsAsked(remaining - want, device, call + 1, total + want, asked + [want]);
        var out := Transfer(remaining, device, call, total, asked).1;
        assert out[..|asked| + 1] == asked + [want];
        assert out[|asked|] == want;
        forall i | |asked| < i < |out| - 1
          ensures device(call + (i - |asked|), out[i]) == IoDone(out[i])
        {
          assert call + (i - |asked|) == (call + 1) + (i - |asked + [want]|);
        }
      } else {
        TransferLastCall(remaining, device, call, total, asked);
      }
    }
  }

  /** A length that fits a DWORD is moved by exactly one call. */
  lemma OneCallForDwordLength(remaining: nat, device: (nat, nat) -> IoReply, call: nat, total: nat, asked: seq<nat>)
    requires 0 < remaining <= MAX_CHUNK
    ensures |Transfer(remaining, device, call, total, asked).1| == |asked| + 1
  {
  }

  /**
   * The loop shared by __PHYSFS_platformRead and __PHYSFS_platformWrite:
   * calls the device with at most a DWORD's worth of bytes at a time until
   * everything is moved, a call fails or a call comes up short.
   */
  method ChunkedTransfer(len: nat, device: (nat, nat) -> IoReply) returns (r: IoResult, asked: seq<nat>)
    ensures (r, asked) == TransferAll(len, device)
  {
    var remaining := len;
    var total: nat := 0;
    var call: nat := 0;
    asked := [];
    while remaining > 0
      invariant TransferAll(len, device) == Transfer(remaining, device, call, total, asked)
      decreases remaining
    {
      var thisLen := ChunkLength(remaining);
      var reply := device(call, thisLen);
      asked := asked + [thisLen];
      if reply.IoFailed? {
        return IoError(ErrcodeFromWinApiError(reply.lastError)), asked;
      }
      var n := reply.count;
      total := total + n;
      if n != thisLen {
        return IoCount(total), asked;
      }
      remaining := remaining - n;
      call := call + 1;
    }
    r := IoCount(total);
  }

  /** __PHYSFS_platformRead: refuses a length beyond the address space, otherwise reads in chunks. */
  method PlatformRead(len: nat, fitsAddressSpace: bool, readFile: (nat, nat) -> IoReply)
    returns (r: IoResult, asked: seq<nat>)
    ensures !fitsAddressSpace ==> r == IoError(InvalidArgument) && asked == []
    ensures fitsAddressSpace ==> (r, asked) == TransferAll(len, readFile)
  {
    if !fitsAddressSpace {
      return IoError(InvalidArgument), [];
    }
    r, asked := ChunkedTransfer(len, readFile);
  }

  /** __PHYSFS_platformWrite: refuses a length beyond the address space, otherwise writes in chunks. */
  method PlatformWrite(len: nat, fitsAddressSpace: bool, writeFile: (nat, nat) -> IoReply)
    returns (r: IoResult, asked: seq<nat>)
    ensures !fitsAddressSpace ==> r == IoError(InvalidArgument) && asked == []
    ensures fitsAddressSpace ==> (r, asked) == TransferAll(len, writeFile)
  {
    if !fitsAddressSpace {
      return IoError(InvalidArgument), [];
    }
    r, asked := ChunkedTransfer(len, writeFile);
  }

  // ---------------------------------------------------------------------
  // Directory enumeration
  // ---------------------------------------------------------------------

  /** What an enumeration callback answers: -1, 0 or 1 in PhysicsFS. */
  datatype EnumResult = EnumError | EnumStop | EnumOk

  /** What an enumeration ends with: its result, the error code it set, and the names it handed on. */
  datatype EnumOutcome = EnumOutcome(result: EnumResult, error: Option<ErrorCode>, delivered: seq<string>)

  predicate IsDotEntry(name: string) {
    name == "." || name == ".."
  }

  /** The FindFirstFile pattern: the directory, a backslash unless it already ends in one, then "*". */
  function SearchPattern(dirname: string): string
    requires dirname != []
  {
    dirname + (if dirname[|dirname| - 1] == '\\' then "" else "\\") + "*"
  }

  /** The pattern and its terminator fit the len + 3 bytes allocated for it, and it ends in "\*". */
  lemma SearchPatternFits(dirname: string)
    requires dirname != []
    ensures |SearchPattern(dirname)| + 1 <= |dirname| + 3
    ensures SearchPattern(dirname)[..|dirname|] == dirname
    ensures SearchPattern(dirname)[|SearchPattern(dirname)| - 2..] == "\\*"
  {
  }

  /** One directory entry: skipped when it is "." or "..", otherwise converted and handed to the callback. */
  function VisitEntry(name: string, toUtf8: string -> Option<string>, callback: string -> EnumResult): EnumOutcome {
    if IsDotEntry(name) then EnumOutcome(EnumOk, None, [])
    else
      match toUtf8(name)
      case None => EnumOutcome(EnumError, Some(OutOfMemory), [])
      case Some(utf8) =>
        var cr := callback(utf8);
        EnumOutcome(cr, if cr == EnumError then Some(AppCallback) else None, [name])
  }

  /** The enumeration loop from entry `i` on: it goes on while the result is OK and entries remain. */
  function EnumerateFrom(entries: seq<string>, i: nat, toUtf8: string -> Option<string>,
                         callback: string -> EnumResult): (r: EnumOutcome)
    requires i < |entries|
    ensures r.result == EnumError <==> r.error.Some?
    ensures r.error.Some? ==> r.error.value in {OutOfMemory, AppCallback}
    ensures |r.delivered| <= |entries| - i
    decreases |entries| - i
  {
    var step := VisitEntry(entries[i], toUtf8, callback);
    if step.result == EnumOk && i + 1 < |entries| then
      var rest := EnumerateFrom(entries, i + 1, toUtf8, callback);
      EnumOutcome(rest.result, rest.error, step.delivered + rest.delivered)
    else step
  }

  /** An outcome with `prefix` handed on before its own names. */
  function AfterDelivered(prefix: seq<string>, o: EnumOutcome): EnumOutcome {
    EnumOutcome(o.result, o.error, prefix + o.delivered)
  }

  lemma AfterDeliveredTwice(a: seq<string>, b: seq<string>, o: EnumOutcome)
    ensures AfterDelivered(a, AfterDelivered(b, o)) == AfterDelivered(a + b, o)
  {
    assert a + (b + o.delivered) == (a + b) + o.delivered;
  }

  /** One step of the enumeration loop. */
  lemma EnumerateUnfold(entries: seq<string>, i: nat, toUtf8: string -> Option<string>, callback: string -> EnumResult)
    requires i < |entries|
    ensures var step := VisitEntry(entries[i], toUtf8, callback);
            EnumerateFrom(entries, i, toUtf8, callback) ==
              if step.result == EnumOk && i + 1 < |entries|
              then AfterDelivered(step.delivered, EnumerateFrom(entries, i + 1, toUtf8, callback))
              else step
  {
  }

  /** The entries other than "." and "..", in order. */
  function NonDotEntries(entries: seq<string>): seq<string> {
    if entries == [] then []
    else (if IsDotEntry(entries[0]) then [] else [entries[0]]) + NonDotEntries(entries[1..])
  }

  /** "." and ".." are never handed on, and every name handed on is a listed entry. */
  lemma {:induction false} EnumerateSkipsDots(entries: seq<string>, i: nat, toUtf8: string -> Option<string>,
                                              callback: string -> EnumResult)
    requires i < |entries|
    ensures forall name :: name in EnumerateFrom(entries, i, toUtf8, callback).delivered ==>
              !IsDotEntry(name) && name in entries[i..]
    decreases |entries| - i
  {
    var step := VisitEntry(entries[i], toUtf8, callback);
    if step.result == EnumOk && i + 1 < |entries| {
      EnumerateSkipsDots(entries, i + 1, toUtf8, callback);
      assert entries[i + 1..] == entries[i..][1..];
    }
  }

  /** Every name of `d` but the last was converted and accepted by the callback. */
  predicate AllButLastAccepted(d: seq<string>, toUtf8: string -> Option<string>, callback: string -> EnumResult) {
    forall j :: 0 <= j < |d| - 1 ==> toUtf8(d[j]).Some? && callback(toUtf8(d[j]).value) == EnumOk
  }

  /** Only the last name handed on can have stopped the loop: every earlier one was converted and answered OK. */
  lemma {:induction false} EnumerateStopsAtFirstNonOk(entries: seq<string>, i: nat, toUtf8: string -> Option<string>,
                                                      callback: string -> EnumResult)
    requires i < |entries|
    ensures AllButLastAccepted(EnumerateFrom(entries, i, toUtf8, callback).delivered, toUtf8, callback)
    decreases |entries| - i
  {
    var step := VisitEntry(entries[i], toUtf8, callback);
    if step.result == EnumOk && i + 1 < |entries| {
      EnumerateStopsAtFirstNonOk(entries, i + 1, toUtf8, callback);
      var rest := EnumerateFrom(entries, i + 1, toUtf8, callback).delivered;
      var d := step.delivered + rest;
      assert EnumerateFrom(entries, i, toUtf8, callback).delivered == d;
      if step.delivered != [] {
        assert step.delivered == [entries[i]];
        assert toUtf8(entries[i]).Some? && callback(toUtf8(entries[i]).value) == EnumOk;
        assert d == [entries[i]] + rest;
      } else {
        assert d == rest;
      }
    }
  }

  /** Every name of `d` was converted and accepted by the callback. */
  predicate AllAccepted(d: seq<string>, toUtf8: string -> Option<string>, callback: string -> EnumResult) {
    forall j :: 0 <= j < |d| ==> toUtf8(d[j]).Some? && callback(toUtf8(d[j]).value) == EnumOk
  }

  lemma NonDotEntriesStep(entries: seq<string>, i: nat)
    requires i < |entries|
    ensures NonDotEntries(entries[i..]) ==
              (if IsDotEntry(entries[i]) then [] else [entries[i]]) + NonDotEntries(entries[i + 1..])
  {
    assert entries[i..][1..] == entries[i + 1..];
  }

  /**
   * Whatever the conversions and the callback answer, the names handed on
   * are the first non-dot entries, in listing order, and the loop ends
   * with OK exactly when every non-dot entry was converted and accepted;
   * then all of them were handed on.
   */
  lemma {:induction false} EnumerateDeliversInOrder(entries: seq<string>, i: nat, toUtf8: string -> Option<string>,
                                                    callback: string -> EnumResult)
    requires i < |entries|
    ensures var r := EnumerateFrom(entries, i, toUtf8, callback);
            |r.delivered| <= |NonDotEntries(entries[i..])|
            && r.delivered == NonDotEntries(entries[i..])[..|r.delivered|]
    ensures var r := EnumerateFrom(entries, i, toUtf8, callback);
            r.result == EnumOk <==> AllAccepted(NonDotEntries(entries[i..]), toUtf8, callback)
    ensures var r := EnumerateFrom(entries, i, toUtf8, callback);
            r.result == EnumOk ==> r.delivered == NonDotEntries(entries[i..])
    decreases |entries| - i
  {
    var step := VisitEntry(entries[i], toUtf8, callback);
    var all := NonDotEntries(entries[i..]);
    NonDotEntriesStep(entries, i);
    if step.result == EnumOk && i + 1 < |entries| {
      EnumerateDeliversInOrder(entries, i + 1, toUtf8, callback);
      var rest := EnumerateFrom(entries, i + 1, toUtf8, callback);
      var tail := NonDotEntries(entries[i + 1..]);
      assert all == step.delivered + tail;
      assert step.delivered + rest.delivered == all[..|step.delivered| + |rest.delivered|];
      if step.delivered != [] {
        assert step.delivered == [entries[i]] && all[0] == entries[i];
        assert toUtf8(entries[i]).Some? && callback(toUtf8(entries[i]).value) == EnumOk;
        assert AllAccepted(all, toUtf8, callback) <==> AllAccepted(tail, toUtf8, callback) by {
          if AllAccepted(tail, toUtf8, callback) {
            forall j | 0 <= j < |all|
              ensures toUtf8(all[j]).Some? && callback(toUtf8(all[j]).value) == EnumOk
            {
              if j > 0 { assert all[j] == tail[j - 1]; }
            }
          }
          if AllAccepted(all, toUtf8, callback) {
            forall j | 0 <= j < |tail|
              ensures toUtf8(tail[j]).Some? && callback(toUtf8(tail[j]).value) == EnumOk
            {
              assert tail[j] == all[j + 1];
            }
          }
        }
      } else {
        assert all == tail;
      }
    } else if step.result == EnumOk {
      assert entries[i + 1..] == [];
      assert all == step.delivered;
    } else {
      assert all[0] == entries[i];
    }
  }

  /** When every conversion succeeds and the callback always answers OK, every entry but "." and ".." is handed on. */
  lemma {:induction false} EnumerateAllOk(entries: seq<string>, i: nat, toUtf8: string -> Option<string>,
                                          callback: string -> EnumResult)
    requires i < |entries|
    requires forall name :: toUtf8(name).Some?
    requires forall name :: callback(name) == EnumOk
    ensures EnumerateFrom(entries, i, toUtf8, callback) == EnumOutcome(EnumOk, None, NonDotEntries(entries[i..]))
    decreases |entries| - i
  {
    assert entries[i..][1..] == entries[i + 1..];
    if i + 1 < |entries| {
      EnumerateAllOk(entries, i + 1, toUtf8, callback);
    } else {
      assert entries[i + 1..] == [];
    }
  }

  /**
   * The first half of __PHYSFS_platformEnumerate: copies the directory
   * into a buffer of len + 3 bytes, adds a backslash unless it already
   * ends in one, then appends "*".
   */
  method BuildSearchPattern(dirname: string) returns (searchPath: string)
    requires dirname != [] && NoNul(dirname)
    ensures searchPath == SearchPattern(dirname)
  {
    var len := |dirname|;
    var buf := new char[len + 3];
    StrCpy(buf, dirname);
    ghost var dirPart := dirname;
    if buf[len - 1] != '\\' {
      buf[len] := '\\';
      len := len + 1;
      buf[len] := NUL;
      dirPart := dirname + "\\";
      assert buf[..len] == dirPart;
    }
    StrCat(buf, dirPart, "*");
    searchPath := buf[..len + 1];
  }

  /**
   * The do-while loop of __PHYSFS_platformEnumerate over the entries
   * FindFirstFile and FindNextFile return.
   */
  method EnumerateListing(entries: seq<string>, toUtf8: string -> Option<string>, callback: string -> EnumResult)
    returns (r: EnumOutcome)
    requires entries != []
    ensures r == EnumerateFrom(entries, 0, toUtf8, callback)
  {
    var retval := EnumOk;
    var error: Option<ErrorCode> := None;
    var delivered: seq<string> := [];
    var i := 0;
    while true
      invariant 0 <= i < |entries|
      invariant retval == EnumOk && error == None
      invariant EnumerateFrom(entries, 0, toUtf8, callback) ==
                AfterDelivered(delivered, EnumerateFrom(entries, i, toUtf8, callback))
      decreases |entries| - i
    {
      var name := entries[i];
      EnumerateUnfold(entries, i, toUtf8, callback);
      var handed: seq<string> := [];
      if !IsDotEntry(name) {
        var utf8 := toUtf8(name);
        if utf8.None? {
          retval := EnumError;
          error := Some(OutOfMemory);
        } else {
          retval := callback(utf8.value);
          handed := [name];
          if retval == EnumError {
            error := Some(AppCallback);
          }
        }
      }
      assert VisitEntry(name, toUtf8, callback) == EnumOutcome(retval, error, handed);
      if !(retval == EnumOk && i + 1 < |entries|) {
        return EnumOutcome(retval, error, delivered + handed);
      }
      AfterDeliveredTwice(delivered, handed, EnumerateFrom(entries, i + 1, toUtf8, callback));
      delivered := delivered + handed;
      i := i + 1;
    }
  }

  /**
   * __PHYSFS_platformEnumerate: `allocOk` says whether the pattern buffer
   * could be allocated, `listing` is what FindFirstFile/FindNextFile
   * return (None when FindFirstFile failed with `lastError`) and `toUtf8`
   * the name conversion (None when its allocation failed).
   */
  method PlatformEnumerate(dirname: string, allocOk: bool, listing: Option<seq<string>>, lastError: Dword,
                           toUtf8: string -> Option<string>, callback: string -> EnumResult)
    returns (r: EnumOutcome, searchPath: string)
    requires dirname != [] && NoNul(dirname)
    requires listing.Some? ==> listing.value != []
    ensures !allocOk ==> r == EnumOutcome(EnumError, Some(OutOfMemory), [])
    ensures allocOk ==> searchPath == SearchPattern(dirname)
    ensures allocOk && listing.None? ==>
              r == EnumOutcome(EnumError, Some(ErrcodeFromWinApiError(lastError)), [])
    ensures allocOk && listing.Some? ==> r == EnumerateFrom(listing.value, 0, toUtf8, callback)
  {
    if !allocOk {
      return EnumOutcome(EnumError, Some(OutOfMemory), []), [];
    }
    searchPath := BuildSearchPattern(dirname);
    if listing.None? {
      return EnumOutcome(EnumError, Some(ErrcodeFromWinApiError(lastError)), []), searchPath;
    }
    r := EnumerateListing(listing.value, toUtf8, callback);
  }

  // ---------------------------------------------------------------------
  // The preference directory
  // ---------------------------------------------------------------------

  /** __PHYSFS_platformCalcUserDir: the user-data partition. */
  const USER_DIR: string := "E:\\"

  /** The preference directory for an organisation and an application. */
  function PrefDir(org: string, app: string): string {
    USER_DIR + org + "\\" + app + "\\"
  }

  /** The preference directory lies under the user directory, names org then app, and ends in a separator. */
  lemma PrefDirShape(org: string, app: string)
    ensures |PrefDir(org, app)| == |USER_DIR| + |org| + |app| + 2
    ensures PrefDir(org, app)[..|USER_DIR|] == USER_DIR
    ensures PrefDir(org, app)[|USER_DIR|..|USER_DIR| + |org|] == org
    ensures PrefDir(org, app)[|USER_DIR| + |org| + 1..|USER_DIR| + |org| + 1 + |app|] == app
    ensures PrefDir(org, app)[|PrefDir(org, app)| - 1] == '\\'
  {
  }

  /**
   * The static state of __PHYSFS_platformCalcPrefDir: the cached buffer
   * and the lengths it was last sized for.  The organisation length is
   * never recorded, so it stays 0 and every call with a non-empty
   * organisation reallocates.
   */
  class PrefDirCache {
    var dir: array?<char>
    var oldOrgLen: nat
    var oldAppLen: nat

    ghost predicate Valid()
      reads this
    {
      oldOrgLen == 0
    }

    constructor ()
      ensures Valid() && dir == null && oldAppLen == 0
    {
      dir := null;
      oldOrgLen := 0;
      oldAppLen := 0;
    }

    /**
     * Rebuilds the cached buffer as USER_DIR + org + "\" + app + "\" when
     * both names are given and returns it; `reallocOk` says whether the
     * reallocation succeeded.
     */
    method CalcPrefDir(org: Option<string>, app: Option<string>, reallocOk: bool) returns (r: array?<char>)
      requires Valid()
      requires org.Some? && app.Some? ==>
                 org.value != [] && app.value != [] && NoNul(org.value) && NoNul(app.value)
      modifies this
      ensures Valid() && r == dir
      ensures org.None? || app.None? ==> dir == old(dir) && oldAppLen == old(oldAppLen)
      ensures org.Some? && app.Some? && !reallocOk ==> r == null && oldAppLen == old(oldAppLen)
      ensures org.Some? && app.Some? && reallocOk ==>
                r != null && fresh(r) && oldAppLen == |app.value|
                && r.Length == |PrefDir(org.value, app.value)| + 1
                && Holds(r, PrefDir(org.value, app.value))
    {
      if org.Some? && app.Some? {
        var o := org.value;
        var a := app.value;
        var base := USER_DIR;
        if |a| > oldAppLen || |o| > oldOrgLen {
          if !reallocOk {
            dir := null;
            return null;
          }
          dir := new char[|base| + |o| + |a| + 3];
          oldAppLen := |a|;
        }
        WritePrefDir(dir, o, a);
      }
      r := dir;
    }
  }

  /** The string building of __PHYSFS_platformCalcPrefDir, into a buffer sized for it. */
  method WritePrefDir(buf: array<char>, o: string, a: string)
    requires NoNul(o) && NoNul(a)
    requires buf.Length == |USER_DIR| + |o| + |a| + 3
    modifies buf
    ensures Holds(buf, PrefDir(o, a))
  {
    var base := USER_DIR;
    StrCpy(buf, base);
    StrCat(buf, base, o);
    buf[|base| + |o|] := '\\';
    buf[|base| + |o| + 1] := NUL;
    assert buf[..|base| + |o| + 1] == base + o + "\\";
    StrCat(buf, base + o + "\\", a);
    buf[|base| + |o| + 1 + |a|] := '\\';
    buf[|base| + |o| + 1 + |a| + 1] := NUL;
    assert buf[..|base| + |o| + 1 + |a| + 1] == base + o + "\\" + a + "\\";
    NoNulConcat(o + "\\", a + "\\");
    assert PrefDir(o, a) == base + (o + "\\" + a + "\\");
  }

  // ---------------------------------------------------------------------
  // CD media detection
  // ---------------------------------------------------------------------

  const WM_DESTROY: int := 0x0002
  const WM_DEVICECHANGE: int := 0x0219
  const DBT_DEVICEARRIVAL: int := 0x8000
  const DBT_DEVICEREMOVECOMPLETE: int := 0x8004
  const DBT_DEVTYP_VOLUME: int := 0x0000_0002

  /**
   * A DWORD used as a bitmap of drives (bit 0 for A:, bit 1 for B:, ...),
   * represented by the indices of its set bits.
   */
  type DriveBitmap = set<nat>

  /** The bits a DWORD can hold. */
  predicate IsDword(b: DriveBitmap) {
    forall i :: i in b ==> i < 32
  }

  /** The DEV_BROADCAST_VOLUME a WM_DEVICECHANGE message points to. */
  datatype VolumeBroadcast = VolumeBroadcast(deviceType: int, unitmask: DriveBitmap, mediaFlag: bool)

  /** What the window procedure does with a message. */
  datatype WndProcAnswer = Destroyed | DefaultProcessing | MediaChangeHandled

  /** The messages that change the bitmap: media arriving in or leaving a volume. */
  predicate IsMediaChange(msg: int, wp: int, lparam: VolumeBroadcast) {
    msg == WM_DEVICECHANGE
    && (wp == DBT_DEVICEARRIVAL || wp == DBT_DEVICEREMOVECOMPLETE)
    && lparam.deviceType == DBT_DEVTYP_VOLUME
    && lparam.mediaFlag
  }

  /** The root path of drive index `i` ('A' is 0), such as "D:\". */
  function DriveRoot(i: nat): string
    requires i < 26
  {
    [('A' as int + i) as char, ':', '\\']
  }

  /** The roots of the drives from index `i` on whose bit is set, in letter order. */
  function DriveRoots(drives: DriveBitmap, i: nat): seq<string>
    requires i <= 26
    decreases 26 - i
  {
    if i == 26 then []
    else (if i in drives then [DriveRoot(i)] else []) + DriveRoots(drives, i + 1)
  }

  /** Roots listed from index `i` on all belong to letters at or after `i`. */
  lemma {:induction false} DriveRootsAbove(drives: DriveBitmap, i: nat, k: nat)
    requires k < i <= 26
    ensures DriveRoot(k) !in DriveRoots(drives, i)
    decreases 26 - i
  {
    if i < 26 {
      DriveRootsAbove(drives, i + 1, k);
      assert DriveRoot(k)[0] != DriveRoot(i)[0];
    }
  }

  /** A drive's root is reported exactly when its bit is set. */
  lemma {:induction false} DriveRootsExactly(drives: DriveBitmap, i: nat, k: nat)
    requires i <= k < 26
    ensures DriveRoot(k) in DriveRoots(drives, i) <==> k in drives
    decreases 26 - i
  {
    if i < k {
      DriveRootsExactly(drives, i + 1, k);
      assert DriveRoot(k)[0] != DriveRoot(i)[0];
    } else {
      DriveRootsAbove(drives, i + 1, k);
    }
  }

  /** Every reported root is the root of a drive letter. */
  lemma {:induction false} DriveRootsAreDrives(drives: DriveBitmap, i: nat)
    requires i <= 26
    ensures forall root :: root in DriveRoots(drives, i) ==>
              exists k :: i <= k < 26 && k in drives && root == DriveRoot(k)
    decreases 26 - i
  {
    if i < 26 {
      DriveRootsAreDrives(drives, i + 1);
    }
  }

  /** Bits above 'Z' never produce a report. */
  lemma {:induction false} DriveRootsIgnoreHighBits(drives: DriveBitmap, i: nat)
    requires i <= 26
    ensures DriveRoots((set k | k in drives && k < 26), i) == DriveRoots(drives, i)
    decreases 26 - i
  {
    if i < 26 {
      DriveRootsIgnoreHighBits(drives, i + 1);
    }
  }

  /**
   * pollDiscDrives: walks the letters A to Z and sets the bit of each
   * drive that is a CD-ROM drive (`isCdRom`) holding a readable volume
   * (`hasVolume`).
   */
  method PollDiscDrives(isCdRom: char -> bool, hasVolume: char -> bool) returns (drives: DriveBitmap)
    ensures IsDword(drives)
    ensures forall k: nat :: k in drives <==> k < 26 && isCdRom(DriveRoot(k)[0]) && hasVolume(DriveRoot(k)[0])
  {
    drives := {};
    var i := 'A' as int;
    while i <= 'Z' as int
      invariant 'A' as int <= i <= 'Z' as int + 1
      invariant forall k: nat :: k in drives <==>
                  k < i - 'A' as int && isCdRom(DriveRoot(k)[0]) && hasVolume(DriveRoot(k)[0])
    {
      var letter := i as char;
      assert letter == DriveRoot(i - 'A' as int)[0];
      if isCdRom(letter) && hasVolume(letter) {
        drives := drives + {i - 'A' as int};
      }
      i := i + 1;
    }
  }

  /**
   * The CD detection state: whether the detection thread runs, and the
   * bitmap of drives holding media that its window procedure keeps.
   */
  class CdDetector {
    var threadStarted: bool
    var drivesWithMediaBitmap: DriveBitmap

    constructor ()
      ensures !threadStarted && drivesWithMediaBitmap == {}
    {
      threadStarted := false;
      drivesWithMediaBitmap := {};
    }

    /**
     * detectCDWndProc: media arriving in a volume sets the drives of its
     * unit mask, media leaving clears them; other messages change nothing.
     */
    method WndProc(msg: int, wp: int, lparam: VolumeBroadcast) returns (r: WndProcAnswer)
      modifies this
      ensures threadStarted == old(threadStarted)
      ensures r == Destroyed <==> msg == WM_DESTROY
      ensures r == MediaChangeHandled <==> IsMediaChange(msg, wp, lparam)
      ensures r == MediaChangeHandled && wp == DBT_DEVICEREMOVECOMPLETE ==>
                drivesWithMediaBitmap == old(drivesWithMediaBitmap) - lparam.unitmask
      ensures r == MediaChangeHandled && wp == DBT_DEVICEARRIVAL ==>
                drivesWithMediaBitmap == old(drivesWithMediaBitmap) + lparam.unitmask
      ensures r != MediaChangeHandled ==> drivesWithMediaBitmap == old(drivesWithMediaBitmap)
    {
      var removed := wp == DBT_DEVICEREMOVECOMPLETE;
      if msg == WM_DESTROY {
        return Destroyed;
      } else if msg != WM_DEVICECHANGE
                || (wp != DBT_DEVICEARRIVAL && wp != DBT_DEVICEREMOVECOMPLETE)
                || lparam.deviceType != DBT_DEVTYP_VOLUME
                || !lparam.mediaFlag {
        return DefaultProcessing;
      }
      if removed {
        drivesWithMediaBitmap := drivesWithMediaBitmap - lparam.unitmask;
      } else {
        drivesWithMediaBitmap := drivesWithMediaBitmap + lparam.unitmask;
      }
      r := MediaChangeHandled;
    }

    /**
     * detectAvailableCDs: starts the detection thread on first use
     * (`eventOk` and `threadOk` say whether its event and thread could be
     * created; `initialPoll` is the thread's first poll, None when it
     * could not create its window) and reports the root of every drive
     * whose bit is set.
     */
    method DetectAvailableCds(eventOk: bool, threadOk: bool, initialPoll: Option<DriveBitmap>)
      returns (reported: seq<string>)
      modifies this
      ensures old(threadStarted) ==> threadStarted && drivesWithMediaBitmap == old(drivesWithMediaBitmap)
      ensures !old(threadStarted) && !(eventOk && threadOk) ==>
                !threadStarted && drivesWithMediaBitmap == old(drivesWithMediaBitmap) && reported == []
      ensures !old(threadStarted) && eventOk && threadOk ==>
                threadStarted
                && drivesWithMediaBitmap == (if initialPoll.Some? then initialPoll.value else old(drivesWithMediaBitmap))
      ensures threadStarted ==> reported == DriveRoots(drivesWithMediaBitmap, 0)
    {
      if !threadStarted {
        if !eventOk {
          return [];
        }
        if !threadOk {
          return [];
        }
        threadStarted := true;
        if initialPoll.Some? {
          drivesWithMediaBitmap := initialPoll.value;
        }
      }
      reported := ReportDrives(drivesWithMediaBitmap);
    }
  }

  /** The reporting loop of detectAvailableCDs: one root per set bit, from A to Z. */
  method ReportDrives(drives: DriveBitmap) returns (reported: seq<string>)
    ensures reported == DriveRoots(drives, 0)
  {
    reported := [];
    var i: nat := 0;
    while i < 26
      invariant i <= 26
      invariant reported + DriveRoots(drives, i) == DriveRoots(drives, 0)
    {
      ghost var rest := DriveRoots(drives, i + 1);
      if i in drives {
        assert DriveRoots(drives, i) == [DriveRoot(i)] + rest;
        assert reported + ([DriveRoot(i)] + rest) == (reported + [DriveRoot(i)]) + rest;
        reported := reported + [DriveRoot(i)];
      } else {
        assert DriveRoots(drives, i) == rest;
      }
      i := i + 1;
    }
    assert reported + [] == reported;
  }

  /** After a poll, the reported roots are exactly those of the CD-ROM drives holding a volume. */
  lemma PolledDrivesReported(isCdRom: char -> bool, hasVolume: char -> bool, drives: DriveBitmap, k: nat)
    requires k < 26
    requires forall j: nat :: j in drives <==> j < 26 && isCdRom(DriveRoot(j)[0]) && hasVolume(DriveRoot(j)[0])
    ensures DriveRoot(k) in DriveRoots(drives, 0) <==> isCdRom(DriveRoot(k)[0]) && hasVolume(DriveRoot(k)[0])
  {
    DriveRootsExactly(drives, 0, k);
  }

  // ---------------------------------------------------------------------
  // stat
  // ---------------------------------------------------------------------

  const S_IFMT: bv32 := 0xF000
  const S_IFREG: bv32 := 0x8000
  const S_IFDIR: bv32 := 0x4000
  const S_IFLNK: bv32 := 0xA000
  const S_IWRITE: bv32 := 0x0080

  datatype FileType = Regular | Directory | Symlink | Other

  /** The fields of struct stat the platform layer reads. */
  datatype StatBuf = StatBuf(mode: bv32, size: int, mtime: int, ctime: int, atime: int)

  /** A PHYSFS_Stat. */
  datatype PhysfsStat = PhysfsStat(filetype: FileType, filesize: int, modtime: int, createtime: int,
                                   accesstime: int, readonly: bool)

  datatype StatOutcome = StatFailed(code: ErrorCode) | StatDone(st: PhysfsStat)

  function FileTypeOf(mode: bv32): FileType {
    if mode & S_IFMT == S_IFREG then Regular
    else if mode & S_IFMT == S_IFDIR then Directory
    else if mode & S_IFMT == S_IFLNK then Symlink
    else Other
  }

  /**
   * __PHYSFS_platformStat: `rc` and `errno` are what stat() answered and
   * `buf` what it filled in.
   */
  function PlatformStat(rc: int, errno: int, buf: StatBuf): (r: StatOutcome)
    ensures r.StatFailed? <==> rc == -1
    ensures r.StatFailed? ==> r.code == ErrcodeFromErrnoError(errno)
    ensures r.StatDone? ==> (r.st.filetype == Regular <==> buf.mode & S_IFMT == S_IFREG)
    ensures r.StatDone? ==> (r.st.filetype == Directory <==> buf.mode & S_IFMT == S_IFDIR)
    ensures r.StatDone? ==> (r.st.filetype == Symlink <==> buf.mode & S_IFMT == S_IFLNK)
    ensures r.StatDone? ==> r.st.filesize == (if r.st.filetype in {Directory, Symlink} then 0 else buf.size)
    ensures r.StatDone? ==> (r.st.readonly <==> buf.mode & S_IWRITE == 0)
    ensures r.StatDone? ==>
              r.st.modtime == buf.mtime && r.st.createtime == buf.ctime && r.st.accesstime == buf.atime
  {
    if rc == -1 then StatFailed(ErrcodeFromErrnoError(errno))
    else
      var ft := FileTypeOf(buf.mode);
      var size := if ft == Regular || ft == Other then buf.size else 0;
      StatDone(PhysfsStat(ft, size, buf.mtime, buf.ctime, buf.atime, buf.mode & S_IWRITE == 0))
  }

  /** The file type depends only on the type bits of the mode, and read-only-ness only on the owner-write bit. */
  lemma StatModeBitsIndependent(mode: bv32, perms: bv32)
    requires perms & S_IFMT == 0
    ensures FileTypeOf((mode & S_IFMT) | perms) == FileTypeOf(mode)
  {
  }
}
