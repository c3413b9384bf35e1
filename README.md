# Xeno engine core, modelled in Dafny

This project models three pieces of a homebrew game engine for the original
Xbox (nxdk). Each piece is written as imperative Dafny where the C or C++
code updates state in place, and as functions and lemmas where it computes
values. The three pieces are:

- **The engine's file helpers** (`engine/fsutils.c`, module `FsUtils`, with
  C-string buffers in module `CStrings`):
  - joining the PhysicsFS base directory, a separator and a relative path
    into a freshly allocated buffer;
  - loading a whole file into a NUL-terminated buffer;
  - mounting the read paths in order;
  - wrapping a loaded file in an SDL memory stream, and closing it again.

  Allocation and freeing are explicit: buffers are `array<char>`, and a
  `Heap` object records the buffers that were freed.
- **The PhysicsFS platform layer for nxdk**
  (`libs/physfs/src/physfs_platform_nxdk.c`, module `PhysfsNxdk`):
  - the Win32 and errno error-code tables;
  - how 64-bit file positions cross the 32-bit Win32 calls;
  - the chunked read and write loops;
  - the `dir\*` search pattern and the enumeration loop that skips `.` and
    `..`;
  - the preference directory, built in a reused static buffer;
  - the CD-media bitmap and its A-to-Z report;
  - the stat classification.
- **Irrlicht's SDL2 device** (`libs/irrlicht/src/CIrrDeviceSDL.cpp`):
  - Module `SdlKeyMap` covers the key table: the pushed pairs, their sort
    and the binary search.
  - Module `SdlEvents` holds value-level definitions:
    - one pass of the event switch of `run` (`Step`) and the pump over an
      event queue (`RunFrom`);
    - the window-creation fallback order;
    - hat-to-POV and button masks;
    - colour formats and resize guards.
  - Module `SdlDevice` holds class `Device`, with the fields the device
    updates in place: `Close`, `WindowHasFocus`, `WindowMinimized`,
    `MouseX`/`MouseY`, `MouseButtonStates`, `Width`/`Height`, `KeyMap`,
    the window and its flags, and the creation parameters. Each of its
    methods is proved against the `SdlEvents` definitions.

Calls into SDL, PhysicsFS, Win32 and libc are not part of this model.
Each one appears as a parameter that carries what the call answered:

- a map of mounted files;
- `mallocOk` and `readCount`;
- a `mountOk` predicate;
- the set of window-creation attempts SDL accepts;
- the queue of SDL events;
- joystick readings;
- a device function answering `ReadFile`/`WriteFile` calls;
- and so on.

## Model

| member | source | states |
|---|---|---|
| CStrings.StrLen | engine/fsutils.c:29-31 | the length found is the index of the first NUL: every earlier character is non-NUL |
| CStrings.StrCpy | engine/fsutils.c:35-36 | after the copy the buffer holds exactly the source string followed by a NUL; cells beyond are untouched |
| CStrings.StrCat | engine/fsutils.c:43-47 | a buffer holding `prefix` holds `prefix + s` after the append |
| FsUtils.JoinedShape | engine/fsutils.c:38-47 | the joined path starts with the base, ends with the path, and has the separator between them exactly when the base did not already end in it |
| FsUtils.JoinedNoDoubleSeparator | engine/fsutils.c:38-45 | a base that already ends in the separator gets no second one |
| FsUtils.EndsWithSeparator | engine/fsutils.c:40-42 | the corrected suffix scan answers true exactly when the base ends with the separator |
| FsUtils.ScanSeparatorAsWritten | engine/fsutils.c:40-41 | the loop as written computes the as-written scan from `fromEnd = 1` |
| FsUtils.ScanAsWrittenNeverFindsSeparator | engine/fsutils.c:41 | as written, the scan never concludes that a non-empty separator is already present |
| FsUtils.SingleCharSeparatorReadsOutOfBounds | engine/fsutils.c:41 | with a one-character separator, the first comparison reads before the start of the separator |
| FsUtils.ConcatBasePathAsWritten | engine/fsutils.c:17-49 | as written: the old target is freed, and the new buffer has base + separator + path + 1 cells and holds base + path, with the separator cut off |
| FsUtils.AsWrittenDropsSeparator | engine/fsutils.c:42-45 | when the base lacks the separator, base + path differs from the intended joined path |
| FsUtils.AsWrittenDropsSeparatorExample | engine/fsutils.c:42-47 | "D:\game" with "data" joins to "D:\game\data" as intended, but "D:\gamedata" as written |
| FsUtils.ConcatBasePath | engine/fsutils.c:17-49 | the old target is freed exactly when it was set; the new buffer has base + separator + path + 1 cells and holds the joined path |
| FsUtils.ReadFile | engine/fsutils.c:52-93 | a missing name, pointer or file, or a failed malloc, gives 0 and leaves `*outData` and the heap alone; a short read gives 0, frees the new buffer and keeps `*outData`; otherwise it returns the length, frees the old buffer, and the new one holds the file's bytes then NUL |
| FsUtils.MountablePrefix | engine/fsutils.c:107-117 | the paths before the index mount, and the path at the index (if any) is refused |
| FsUtils.JoinedAll | engine/fsutils.c:108-110 | each read path is joined onto the base, position by position |
| FsUtils.JoinedAllIsConcatenation | engine/fsutils.c:17-49 | for a base that already ends in the separator, every joined path is base + path, so the intended join and the one written agree |
| FsUtils.MountReadPaths | engine/fsutils.c:107-121 | for a base ending in the separator: the search path gains base + path for each path of the mountable prefix, in order; success iff all mount; one buffer is freed per path built |
| FsUtils.InitFilesystem | engine/fsutils.c:97-135 | for a base ending in the separator: a failed init changes nothing; otherwise the read paths mount as base + path, in order, up to the first refusal, which returns failure without setting the write dir; else the result is that of setting the preference dir |
| FsUtils.OpenSdlBuffer | engine/fsutils.c:138-154 | a stream results iff the file loaded with a non-zero length and SDL made the stream, and it wraps exactly the file's bytes with nothing freed; a missing name or file or a failed malloc gives NULL and frees nothing; a short read or an empty file gives NULL and frees exactly the one new buffer; a failed SDL_RWFromMem gives NULL and frees nothing, leaking the buffer |
| FsUtils.CloseSdlBuffer | engine/fsutils.c:157-164 | a null stream frees nothing; otherwise the stream is closed and its memory base, if any, freed |
| PhysfsNxdk.ErrcodeFromWinApiError | libs/physfs/src/physfs_platform_nxdk.c:161-208 | each PhysicsFS code is produced exactly by the Win32 errors the table lists for it (success gives OK) |
| PhysfsNxdk.WinUnlistedIsOsError | libs/physfs/src/physfs_platform_nxdk.c:206 | exactly the unlisted Win32 errors give the generic OS error |
| PhysfsNxdk.WinApiErrorsNeverPosixOnly | libs/physfs/src/physfs_platform_nxdk.c:161-208 | no Win32 error yields symlink-loop, not-a-file, app-callback or invalid-argument |
| PhysfsNxdk.ErrcodeFromErrnoError | libs/physfs/src/physfs_platform_nxdk.c:216-239 | each code is produced exactly by its errno values (0 gives OK, ENOENT/ENOTDIR give NOT_FOUND, EISDIR NOT_A_FILE, EROFS READ_ONLY), and every unlisted errno gives OS_ERROR |
| PhysfsNxdk.CombineSplit | libs/physfs/src/physfs_platform_nxdk.c:132-137 | recombining the low and high halves of a position gives the position back |
| PhysfsNxdk.SplitCombine | libs/physfs/src/physfs_platform_nxdk.c:132-137 | splitting a combined value gives back its halves |
| PhysfsNxdk.SignExtensionShiftedOut | libs/physfs/src/physfs_platform_nxdk.c:137 | sign-extending the LONG high half is harmless once shifted up by 32 |
| PhysfsNxdk.WinSetFilePointer | libs/physfs/src/physfs_platform_nxdk.c:119-142 | failure iff SetFilePointer answers INVALID_SET_FILE_POINTER with an error pending; the new position is the answered halves recombined |
| PhysfsNxdk.SeekToRequestedReportsIt | libs/physfs/src/physfs_platform_nxdk.c:132-137 | when the callee lands on the requested position, that position is reported back |
| PhysfsNxdk.WinGetFileSize | libs/physfs/src/physfs_platform_nxdk.c:144-158 | -1 exactly on the error pair (and otherwise only for a low half of all ones); otherwise high * 2^32 + low, negative only when the top bit is set |
| PhysfsNxdk.FileSizeIsCombinedHalves | libs/physfs/src/physfs_platform_nxdk.c:156 | the bitwise combination equals high * 2^32 + low |
| PhysfsNxdk.ChunkLength | libs/physfs/src/physfs_platform_nxdk.c:667 | a chunk never exceeds 0xFFFFFFFF or what remains, and is positive while bytes remain |
| PhysfsNxdk.TransferFullCall | libs/physfs/src/physfs_platform_nxdk.c:669-675 | a call answered in full moves on to the remaining bytes |
| PhysfsNxdk.TransferLastCall | libs/physfs/src/physfs_platform_nxdk.c:669-674 | a failed call ends with -1 and its error; a short one ends with the running total |
| PhysfsNxdk.TransferBounded | libs/physfs/src/physfs_platform_nxdk.c:665-677 | with a device that never over-reports, the reported total never exceeds the requested length |
| PhysfsNxdk.TransferExtendsAsked | libs/physfs/src/physfs_platform_nxdk.c:665-675 | the call lengths asked for so far are a prefix of the final list |
| PhysfsNxdk.TransferChunksValid | libs/physfs/src/physfs_platform_nxdk.c:667 | every call asks for between 1 and 0xFFFFFFFF bytes |
| PhysfsNxdk.FullDeviceTransfersAll | libs/physfs/src/physfs_platform_nxdk.c:665-677 | a device that always delivers in full yields exactly the requested length |
| PhysfsNxdk.TransferStopsAtFirstShortCall | libs/physfs/src/physfs_platform_nxdk.c:673-674 | every call but the last was answered in full |
| PhysfsNxdk.OneCallForDwordLength | libs/physfs/src/physfs_platform_nxdk.c:665-675 | a length that fits a DWORD takes exactly one call |
| PhysfsNxdk.ChunkedTransfer | libs/physfs/src/physfs_platform_nxdk.c:660-677 | the loop's result and call lengths are those of the transfer definition |
| PhysfsNxdk.PlatformRead | libs/physfs/src/physfs_platform_nxdk.c:657-678 | a length outside the address space fails with INVALID_ARGUMENT and no call; otherwise the chunked transfer over ReadFile |
| PhysfsNxdk.PlatformWrite | libs/physfs/src/physfs_platform_nxdk.c:681-703 | as for reading, over WriteFile |
| PhysfsNxdk.SearchPatternFits | libs/physfs/src/physfs_platform_nxdk.c:541-556 | the pattern starts with the directory, ends in `\*`, and with its NUL fits the len + 3 bytes allocated |
| PhysfsNxdk.BuildSearchPattern | libs/physfs/src/physfs_platform_nxdk.c:542-556 | the buffer-building code produces the search pattern |
| PhysfsNxdk.EnumerateFrom | libs/physfs/src/physfs_platform_nxdk.c:567-588 | an error result always comes with an error code (out-of-memory or app-callback), and no more names are delivered than remain |
| PhysfsNxdk.EnumerateUnfold | libs/physfs/src/physfs_platform_nxdk.c:567-588 | one entry is visited, then the loop goes on only while the result is OK and entries remain |
| PhysfsNxdk.EnumerateSkipsDots | libs/physfs/src/physfs_platform_nxdk.c:572-576 | "." and ".." are never handed to the callback, and every delivered name is a listed entry |
| PhysfsNxdk.EnumerateStopsAtFirstNonOk | libs/physfs/src/physfs_platform_nxdk.c:588 | every delivered name but the last was converted and answered OK |
| PhysfsNxdk.EnumerateAllOk | libs/physfs/src/physfs_platform_nxdk.c:567-588 | with conversions and callbacks always succeeding, every non-dot entry is delivered, in order |
| PhysfsNxdk.EnumerateDeliversInOrder | libs/physfs/src/physfs_platform_nxdk.c:567-588 | whatever the conversions and callback answer, the names handed on are the first non-dot entries in listing order; the result is OK iff every non-dot entry was converted and accepted, and then all of them were handed on |
| PhysfsNxdk.EnumerateListing | libs/physfs/src/physfs_platform_nxdk.c:567-592 | the loop computes the enumeration definition |
| PhysfsNxdk.PlatformEnumerate | libs/physfs/src/physfs_platform_nxdk.c:530-593 | a failed allocation reports out-of-memory; otherwise FindFirstFile gets the search pattern; its failure reports the mapped Win32 error; otherwise the listing is enumerated |
| PhysfsNxdk.PrefDirCache.constructor | libs/physfs/src/physfs_platform_nxdk.c:456-458 | the static buffer starts null and the recorded lengths at 0 |
| PhysfsNxdk.PrefDirShape | libs/physfs/src/physfs_platform_nxdk.c:473-479 | the preference dir is the user dir, org, a backslash, app and a backslash, with length base + org + app + 2 |
| PhysfsNxdk.WritePrefDir | libs/physfs/src/physfs_platform_nxdk.c:473-479 | the strcpy/strcat sequence leaves the buffer holding the preference dir |
| PhysfsNxdk.PrefDirCache.CalcPrefDir | libs/physfs/src/physfs_platform_nxdk.c:454-483 | a missing name returns the cached buffer unchanged; a failed realloc returns null; otherwise a buffer of base + org + app + 3 cells holds the preference dir, oldAppLen is updated and oldOrgLen stays 0 |
| PhysfsNxdk.DriveRootsAbove | libs/physfs/src/physfs_platform_nxdk.c:412-419 | the roots reported from letter i on belong to letters at or after i |
| PhysfsNxdk.DriveRootsExactly | libs/physfs/src/physfs_platform_nxdk.c:412-419 | a drive's root is reported iff its bit is set |
| PhysfsNxdk.DriveRootsAreDrives | libs/physfs/src/physfs_platform_nxdk.c:412-419 | every reported root is `X:\` for a letter A to Z |
| PhysfsNxdk.DriveRootsIgnoreHighBits | libs/physfs/src/physfs_platform_nxdk.c:412-419 | bits above Z never produce a report |
| PhysfsNxdk.PollDiscDrives | libs/physfs/src/physfs_platform_nxdk.c:258-298 | bit k is set iff drive k is a CD-ROM holding a volume |
| PhysfsNxdk.PolledDrivesReported | libs/physfs/src/physfs_platform_nxdk.c:277-287 | after a poll, a root is reported iff its drive is a CD-ROM holding a volume |
| PhysfsNxdk.CdDetector.constructor | libs/physfs/src/physfs_platform_nxdk.c:252-254 | no detection thread yet and an empty media bitmap |
| PhysfsNxdk.CdDetector.WndProc | libs/physfs/src/physfs_platform_nxdk.c:301-324 | media arrival adds the unit mask, removal clears exactly it, and any other message leaves the bitmap alone |
| PhysfsNxdk.CdDetector.DetectAvailableCds | libs/physfs/src/physfs_platform_nxdk.c:382-420 | the first call starts the thread (failures report nothing) and takes its initial poll; then one root is reported per set bit |
| PhysfsNxdk.ReportDrives | libs/physfs/src/physfs_platform_nxdk.c:411-419 | the reporting loop yields the drive roots, A to Z |
| PhysfsNxdk.PlatformStat | libs/physfs/src/physfs_platform_nxdk.c:814-851 | stat failure iff rc is -1, with the errno mapped; the type follows the mode's type bits; size is 0 for directories and symlinks; read-only iff the owner-write bit is clear; the times are copied |
| PhysfsNxdk.StatModeBitsIndependent | libs/physfs/src/physfs_platform_nxdk.c:821-843 | permission bits never change the file type |
| SdlKeyMap.PushedEntries | libs/irrlicht/src/CIrrDeviceSDL.cpp:1469-1608 | the pushed entries follow the push order, each pairing its SDL code with its Irrlicht key |
| SdlKeyMap.PermutationPaired | libs/irrlicht/src/CIrrDeviceSDL.cpp:1469-1609 | any rearrangement of the pushed entries pairs each code with its key, and contains exactly the pushed codes |
| SdlKeyMap.DuplicatePushesAgree | libs/irrlicht/src/CIrrDeviceSDL.cpp:1557-1560 | a code pushed twice is paired with the same key both times (KP_MEMDIVIDE with KEY_DIVIDE) |
| SdlKeyMap.SortedPermutationUnique | libs/irrlicht/src/CIrrDeviceSDL.cpp:1609 | two sorted arrangements of the same paired entries are equal, so the sorted table is unique |
| SdlKeyMap.SwapDown | libs/irrlicht/src/CIrrDeviceSDL.cpp:1609 | exchanging neighbours keeps the table a permutation |
| SdlKeyMap.SinkInto | libs/irrlicht/src/CIrrDeviceSDL.cpp:1609 | inserting one more entry extends the sorted prefix, keeping the entries |
| SdlKeyMap.SortKeyMap | libs/irrlicht/src/CIrrDeviceSDL.cpp:1609 | the table ends sorted by SDL code, with the same entries |
| SdlKeyMap.CreateKeyMap | libs/irrlicht/src/CIrrDeviceSDL.cpp:1463-1610 | a fresh table holding exactly the pushed entries, sorted |
| SdlKeyMap.SearchIndex | libs/irrlicht/src/CIrrDeviceSDL.cpp:676 | the search answers -1 or an index whose entry has the code |
| SdlKeyMap.SearchIndexComplete | libs/irrlicht/src/CIrrDeviceSDL.cpp:676 | on a sorted table the search answers -1 iff no entry has the code |
| SdlKeyMap.TableKeyInKeyMap | libs/irrlicht/src/CIrrDeviceSDL.cpp:675-678 | with the table createKeyMap builds, a code gets its paired key when pushed, KEY_UNKNOWN otherwise |
| SdlKeyMap.FindKey | libs/irrlicht/src/CIrrDeviceSDL.cpp:676 | the array binary search computes the search definition |
| SdlKeyMap.TranslateKey | libs/irrlicht/src/CIrrDeviceSDL.cpp:675-678 | the key a key event carries: the found entry's key, or KEY_UNKNOWN |
| SdlEvents.ButtonStatesRoundTrip | libs/irrlicht/src/CIrrDeviceSDL.cpp:755-759 | only the five SDL button bits matter, no other state bit is set, and the translation round-trips on them |
| SdlEvents.ClickEvent | libs/irrlicht/src/CIrrDeviceSDL.cpp:780-848 | a press event is set iff the button is left, middle or right and the click count is 1, 2 or 3 |
| SdlEvents.ReleaseEvent | libs/irrlicht/src/CIrrDeviceSDL.cpp:866-883 | a release event is set iff the button is left, middle or right |
| SdlEvents.ClickEventsDistinct | libs/irrlicht/src/CIrrDeviceSDL.cpp:780-883 | each press event names exactly one button and click count, and each release exactly one button |
| SdlEvents.HatToPovAngles | libs/irrlicht/src/CIrrDeviceSDL.cpp:1121-1153 | the k-th direction clockwise from up gives 4500 * k; a centred or unknown hat gives 65535 |
| SdlEvents.HatPovRoundTrip | libs/irrlicht/src/CIrrDeviceSDL.cpp:1124-1153 | directions and angles convert into each other without loss |
| SdlEvents.AxisValues | libs/irrlicht/src/CIrrDeviceSDL.cpp:1111-1118 | there are always six axis values |
| SdlEvents.JoystickEventsFrom | libs/irrlicht/src/CIrrDeviceSDL.cpp:1100-1161 | one event per joystick, in order, each the event for that joystick |
| SdlEvents.JoystickButtonMask | libs/irrlicht/src/CIrrDeviceSDL.cpp:1105-1108 | bit j is set iff button j is pressed and j is below min(button count, 32) |
| SdlEvents.JoystickAxes | libs/irrlicht/src/CIrrDeviceSDL.cpp:1111-1118 | the first six readings, with zeros where the joystick has fewer |
| SdlEvents.CreationSize | libs/irrlicht/src/CIrrDeviceSDL.cpp:235-245 | the requested size when both dimensions are positive, 640 x 480 otherwise; always positive |
| SdlEvents.ColorFormatFor | libs/irrlicht/src/CIrrDeviceSDL.cpp:1444-1461 | no window gives the stub's format; otherwise the format has alpha iff the pixel format does, and is 16-bit iff below 24 bits per pixel |
| SdlEvents.Resize | libs/irrlicht/src/CIrrDeviceSDL.cpp:1171-1172 | each dimension takes the reported value only when it is positive |
| SdlEvents.ResizeKeepsPositive | libs/irrlicht/src/CIrrDeviceSDL.cpp:1171-1172 | a positive size stays positive, and reporting the current size changes nothing |
| SdlEvents.WheelAsWrittenMovesPointer | libs/irrlicht/src/CIrrDeviceSDL.cpp:892-899 | as written, a vertical wheel turn moves the pointer and reports no wheel amount; the corrected step keeps the pointer and reports the amount |
| SdlEvents.KeyEventsCarryTableKeys | libs/irrlicht/src/CIrrDeviceSDL.cpp:670-712 | with the built table, a key press or release posts its code cut to a 16-bit `wchar_t` with its paired key, or KEY_UNKNOWN when the code was never pushed |
| SdlEvents.KeyStepPosts | libs/irrlicht/src/CIrrDeviceSDL.cpp:675-712 | a key press or release posts one key event carrying the code cut to 16 bits and the table lookup of the full code |
| SdlEvents.KeyCharacterIsNarrowed | libs/irrlicht/src/CIrrDeviceSDL.cpp:681 | F1, whose SDL code 0x4000003A has no character, posts the character ':' |
| SdlEvents.StepSetsCloseOnlyOnCloseEvents | libs/irrlicht/src/CIrrDeviceSDL.cpp:490-503 | after one event, Close is set iff it was already set or the event is SDL_QUIT, SDL_APP_TERMINATING or a window close |
| SdlEvents.TouchStepInert | libs/irrlicht/src/CIrrDeviceSDL.cpp:749 | mouse events synthesised from touches change no state and post nothing |
| SdlEvents.StepCloseAndTouch | libs/irrlicht/src/CIrrDeviceSDL.cpp:490-503 | both of the above for one event |
| SdlEvents.StepDispatch | libs/irrlicht/src/CIrrDeviceSDL.cpp:488-1089 | key events reach the key cases, mouse events the mouse cases, and window events the window switch, posting nothing |
| SdlEvents.ClosedDeviceTakesNoEvent | libs/irrlicht/src/CIrrDeviceSDL.cpp:485 | once Close is set, no event is polled, nothing changes and nothing is posted |
| SdlEvents.RunFromNext | libs/irrlicht/src/CIrrDeviceSDL.cpp:485-1091 | an open device takes one event; a close event makes run return at once, any other event continues the loop |
| SdlEvents.NothingPolledAfterClose | libs/irrlicht/src/CIrrDeviceSDL.cpp:485 | events queued after the one that sets Close are never polled |
| SdlEvents.WithoutTouch | libs/irrlicht/src/CIrrDeviceSDL.cpp:749 | removing touch-synthesised mouse events keeps only events of the queue |
| SdlEvents.TouchEventsInvisible | libs/irrlicht/src/CIrrDeviceSDL.cpp:749-892 | the pump ends in the same state, posting the same events, with or without touch-synthesised mouse events |
| SdlEvents.LastSetSnoc | libs/irrlicht/src/CIrrDeviceSDL.cpp:509-661 | one more event sets the field if it sets it at all |
| SdlEvents.StepFollowsSettings | libs/irrlicht/src/CIrrDeviceSDL.cpp:504-1089 | every non-close event moves each field to exactly what that event sets, and keeps Close, the key table and the rest (with the wheel case corrected, Findings row 3) |
| SdlEvents.WindowEventSteps | libs/irrlicht/src/CIrrDeviceSDL.cpp:537-664 | a window event changes only what the window switch changes, and posts nothing |
| SdlEvents.WheelStepFollowsSettings | libs/irrlicht/src/CIrrDeviceSDL.cpp:889-906 | the corrected wheel event changes no field |
| SdlEvents.RunSnoc | libs/irrlicht/src/CIrrDeviceSDL.cpp:485-1091 | without close events the pump takes every event in order: one more event is one more step |
| SdlEvents.RunFollowsLastSettings | libs/irrlicht/src/CIrrDeviceSDL.cpp:483-1091 | without close events, every field ends at the value set by the last event setting it (or its start value), all events are polled, and Close stays clear (with the wheel case corrected, Findings row 3) |
| SdlEvents.TextInputFollowsPendingKey | libs/irrlicht/src/CIrrDeviceSDL.cpp:721-740 | text after a run of events posts nothing iff the last key event was a press; otherwise it posts a press and a release of its first byte as a `wchar_t`, with that value's key |
| SdlEvents.TextStepPosts | libs/irrlicht/src/CIrrDeviceSDL.cpp:721-740 | text posts nothing while a key press is pending, and otherwise a press and a release of the first byte converted to `wchar_t` |
| SdlEvents.CreationFlags | libs/irrlicht/src/CIrrDeviceSDL.cpp:230-253 | hidden iff the null driver, shown otherwise, fullscreen-desktop iff fullscreen, OpenGL iff the GL driver; resizable is not among them |
| SdlEvents.TryInOrderFindsFirstAccepted | libs/irrlicht/src/CIrrDeviceSDL.cpp:302-334 | a window results iff some planned attempt is acceptable; when none is, every attempt was made |
| SdlEvents.TryInOrderStopsAtFirstAccepted | libs/irrlicht/src/CIrrDeviceSDL.cpp:302-334 | the attempts made are a prefix of the plan, and every one but the last was refused |
| SdlEvents.CreatedWindowIsFirstAccepted | libs/irrlicht/src/CIrrDeviceSDL.cpp:226-343 | no window iff SDL refuses every planned attempt; otherwise the window has the creation size and flags and comes from the first attempt SDL accepts |
| SdlEvents.SampleCountAfterAccepted | libs/irrlicht/src/CIrrDeviceSDL.cpp:312-317 | AntiAlias only goes down and stays positive; it ends at an accepted sample count, or at 1 iff every count was refused |
| SdlEvents.TryInOrderStep | libs/irrlicht/src/CIrrDeviceSDL.cpp:302-334 | one more attempt extends what was tried by one call, stopping when it is accepted |
| SdlEvents.TryInOrderAppend | libs/irrlicht/src/CIrrDeviceSDL.cpp:304-326 | a later group of fallbacks is reached only when the earlier group yields no window, and then all of it was tried |
| SdlEvents.SampleRetryStep | libs/irrlicht/src/CIrrDeviceSDL.cpp:312-317 | one turn of the sample loop: k samples, then fewer |
| SdlEvents.TrySampleCounts | libs/irrlicht/src/CIrrDeviceSDL.cpp:312-317 | the loop tries n, n - 1, ..., 2 samples in order until one is accepted, and leaves AntiAlias at the count accepted (or 1) |
| SdlEvents.TryAsAsked | libs/irrlicht/src/CIrrDeviceSDL.cpp:294-309 | the first GL attempt, then one without stereo when stereo was asked; a window results iff one of them is accepted |
| SdlEvents.TryPlainGl | libs/irrlicht/src/CIrrDeviceSDL.cpp:318-332 | without multisampling (after the sample loop), then single-buffered when double buffering was asked |
| SdlEvents.TryFallbacks | libs/irrlicht/src/CIrrDeviceSDL.cpp:310-332 | the fallbacks in order, leaving AntiAlias where the sample loop stopped |
| SdlEvents.TryGlWindow | libs/irrlicht/src/CIrrDeviceSDL.cpp:249-333 | the GL attempts are made in the planned order and AntiAlias ends as the fallbacks leave it |
| SdlDevice.Device.constructor | libs/irrlicht/src/CIrrDeviceSDL.cpp:73-211 | the fields start at their initial values and the table is built; a failed SDL init closes the device; otherwise the window is kept or created, and Close is set iff window, renderer or driver creation fails |
| SdlDevice.Device.CreateWindow | libs/irrlicht/src/CIrrDeviceSDL.cpp:226-343 | an existing window is kept untouched; otherwise the flags are added, the window is the first accepted attempt, AntiAlias is updated, and success iff a window exists |
| SdlDevice.Device.UpdateWindowSize | libs/irrlicht/src/CIrrDeviceSDL.cpp:1166-1172 | the size follows the resize guards |
| SdlDevice.Device.HandleWindowEvent | libs/irrlicht/src/CIrrDeviceSDL.cpp:537-664 | the fields become what the window switch makes them |
| SdlDevice.Device.HandleKeyEvent | libs/irrlicht/src/CIrrDeviceSDL.cpp:670-742 | the pending-key flag and posted events follow the key cases, with the table's binary search and the character cut to a 16-bit `wchar_t` |
| SdlDevice.Device.RebuildButtonStates | libs/irrlicht/src/CIrrDeviceSDL.cpp:755-759 | the button states built bit by bit equal the mask translation |
| SdlDevice.Device.HandleMouseEvent | libs/irrlicht/src/CIrrDeviceSDL.cpp:746-906 | the fields and posted events follow the mouse cases (with the wheel case corrected, Findings row 3) |
| SdlDevice.Device.HandleAppEvent | libs/irrlicht/src/CIrrDeviceSDL.cpp:490-536 | the fields and posted events follow the application and user-event cases |
| SdlDevice.Device.HandleEvent | libs/irrlicht/src/CIrrDeviceSDL.cpp:488-1089 | one event moves the fields as the switch does; run must stop iff it was a close event, and then Close is set (with the wheel case corrected, Findings row 3) |
| SdlDevice.Device.PostJoystickEvents | libs/irrlicht/src/CIrrDeviceSDL.cpp:1100-1161 | exactly one event per joystick is posted, in order |
| SdlDevice.Device.Pump | libs/irrlicht/src/CIrrDeviceSDL.cpp:483-1091 | the polling loop ends in the state the pump definition gives, having polled and posted as it says; a close stop leaves Close set (with the wheel case corrected, Findings row 3) |
| SdlDevice.Device.Run | libs/irrlicht/src/CIrrDeviceSDL.cpp:479-1164 | the event loop, then the joystick events unless a close event returned early; the result is !Close (with the wheel case corrected, Findings row 3) |
| SdlDevice.Device.CloseDevice | libs/irrlicht/src/CIrrDeviceSDL.cpp:1342-1345 | Close is set |
| SdlDevice.Device.MinimizeWindow | libs/irrlicht/src/CIrrDeviceSDL.cpp:1379-1384 | the window is minimised and without focus |
| SdlDevice.Device.MaximizeWindow | libs/irrlicht/src/CIrrDeviceSDL.cpp:1387-1392 | the window is not minimised and has focus |
| SdlDevice.Device.RestoreWindow | libs/irrlicht/src/CIrrDeviceSDL.cpp:1403-1407 | the window is not minimised; focus is left alone |

## Left out

**Foreign calls and state the model does not carry**
- Every call into SDL, PhysicsFS, Win32, the nxdk kernel and libc is a parameter of the member that makes it. What those libraries do inside is not modelled.
- Logging, `debugPrint` and `sprintf` formatting are left out. They only produce text.
- Floating point is left out: the camera aspect ratio in updateWindowSize, the wheel amount as `f32` (kept as an integer) and the gamma stubs.

**engine/fsutils.c**
- `assert` calls and `PHYSFS_isInit` are preconditions of the C code, not modelled paths.
- FsUtils.ReadFile: requires the file to be shorter than 0xFFFFFFFF bytes. The C code keeps the length in a `uint32_t`, so longer files wrap around; that case is not modelled.
- FsUtils.MountReadPaths, FsUtils.InitFilesystem: require a base directory that already ends in the separator, as the nxdk base directory `T:\` does (libs/physfs/src/physfs_platform_nxdk.c:443). For such a base the C code's join is base + path, and that is what the model mounts. For a base without the separator, the C code mounts base + path with the separator dropped (Findings row 2); the model does not cover that case.
- FsUtils.OpenSdlBuffer: when SDL_RWFromMem fails, the loaded buffer is neither wrapped nor freed (engine/fsutils.c:146-147). The model keeps this leak: no stream results and the freed list is unchanged. It does not track that the buffer can no longer be reached.
- FsUtils.InitFilesystem: the `#if 0` block is dead code and is not modelled.
- FsUtils.InitFilesystem: the preference directory it sets is a parameter. PhysicsFS's own `PHYSFS_getPrefDir` is not part of this model.

**libs/physfs/src/physfs_platform_nxdk.c**
- The CD-detection thread, its window and message pump, the critical-section mutexes and the sharing of the `volatile` bitmap are not modelled. A flag records that the thread was started.
- Also not modelled, being OS I/O:
  - kernel mounting in `__PHYSFS_platformInit`;
  - `isSymlink`;
  - `__PHYSFS_platformDelete`, `MkDir`, `Open*`, `Seek`, `Tell`, `FileLength`, `Flush` and `Close`;
  - the base-dir and thread-id queries.
- The UTF-16 and UTF-8 conversions are a conversion parameter. They can fail, but their text is not modelled.
- `physfs_internal.h` (`__PHYSFS_ui64FitsAddressSpace`, `BAIL` and the allocator) is not part of this model. The address-space test is a boolean parameter.
- PhysfsNxdk.PrefDirCache.CalcPrefDir: requires non-empty organisation and application names. With an empty name and no buffer yet, the C code would copy through a null pointer. PhysicsFS's caller refuses empty names, and that caller is not part of this model.
- PhysfsNxdk.PlatformEnumerate: requires a non-empty directory name. The C code reads the byte before the start for an empty name.
- PhysfsNxdk.PlatformEnumerate: requires a successful FindFirstFile to list at least one entry.
- PhysfsNxdk.PlatformStat: `st_mode`, `st_size` and the times are taken as `struct stat` delivers them. The libc `stat` implementation is not part of this model.

**libs/irrlicht/src/CIrrDeviceSDL.cpp: creation and window handling**
- Renderer and video-driver creation, the GUI and scene, the cursor control and `SDL_GetWindowWMInfo` are boolean outcomes in the constructor.
- The GL colour, depth, buffer-size and context-profile attributes do not differ between attempts, so they are not part of `Attempt`. Double buffering is recorded as on when not asked for, since that is SDL's default.
- `irrArray.h` is not part of this model. The table's sort and binary search are this model's own: an insertion sort, proved sorted and a permutation, and a binary search whose answer on a sorted table is proved complete. For a table with duplicate keys, which entry is found may differ from Irrlicht's, but the duplicates carry the same key.
- `isWindowActive`, `isWindowFocused` and `isWindowMinimized` are plain field reads and are not modelled.
- Also not modelled: `getWindowPosition`, `present`, the video mode list, `setResizable`, `setWindowCaption`, the gamma stubs, `activateJoysticks`, and joystick open and close.
- SdlDevice.Device.UpdateWindowSize: the `(u32)` cast is not modelled. Only positive values are stored, so it is the identity.
- SdlDevice.Device.CloseDevice, MinimizeWindow, MaximizeWindow, RestoreWindow: the SDL window calls they make are not modelled, only the fields.

**libs/irrlicht/src/CIrrDeviceSDL.cpp: events**
- `os::Timer::tick` is not modelled.
- A resize event carries the size SDL reports when the device asks for it.
- SdlEvents.Step, SdlEvents.MouseStep, SdlDevice.Device.HandleMouseEvent, HandleEvent, Pump and Run: these use the corrected wheel case of Findings row 3. The pointer stays where it is and the vertical amount is reported. The C code, modelled by SdlEvents.WheelStepAsWritten, moves the pointer to (wheel.y, direction) and reports wheel.x.
- Mouse events carry no Control or Shift flags. The C code reads them through the key-event member of the event union, which is undefined for a mouse event.
- A mouse press with an unhandled button or click count posts an event whose kind is `None`. The C code leaves that field uninitialised.
- A text event carries the value of its first byte, as a signed `char` reads it. The UTF-8 decoding that the C code comments out is not modelled.
- The `SDL_USEREVENT` data is not carried: it is an unportable pointer reinterpretation.
- Not modelled: the joystick add and remove events, the game-controller events and the joystick number's `u8` cast beyond 256 joysticks (the number is taken modulo 256).

## Findings

| source | as written | input that shows it | evidently intended | confidence | as-written member | corrected member |
|---|---|---|---|---|---|---|
| engine/fsutils.c:41 | the suffix scan compares `dirSep[dirSepLen - fromEnd - 1]` with `base[baseLen - fromEnd - 1]`, one position too far back | the one-character separator `\`: the first comparison reads `dirSep[-1]` | compare `dirSep[dirSepLen - fromEnd]` with `base[baseLen - fromEnd]`, answering whether the base ends in the separator | high; not executed | FsUtils.SingleCharSeparatorReadsOutOfBounds | FsUtils.EndsWithSeparator |
| engine/fsutils.c:44 | after appending the separator, a NUL is written at `baseLen`, which cuts the separator off again | base `D:\game`, separator `\`, path `data` gives `D:\gamedata` | base, then the separator when missing, then the path (`D:\game\data`) | high; not executed | FsUtils.AsWrittenDropsSeparatorExample | FsUtils.ConcatBasePath |
| libs/irrlicht/src/CIrrDeviceSDL.cpp:895-899 | the wheel case reads `button.x` and `button.y`, which overlay the wheel's `y` and `direction`, and reports the horizontal `wheel.x` | one vertical notch (`wheel.x` 0, `wheel.y` 1, `direction` 0) moves the pointer to (1, 0) and reports a wheel amount of 0 | keep the pointer where it is and report the vertical amount `wheel.y` | high; not executed | SdlEvents.WheelAsWrittenMovesPointer | SdlEvents.MouseStep |
