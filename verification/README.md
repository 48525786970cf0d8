# node-crash-dump: the Windows crash-capture core in Dafny

`src_win/dumper.cpp` installs a vectored exception handler in a Node.js process. For
each exception the handler first checks the code. Codes below `0x80000000` and eleven
known benign codes are ignored. For any other code the handler takes a reentrancy
guard (`writing`). It appends a header to `<dmpPath>.log` and asks `dbghelp.dll` to
write a minidump. Then it frees the guard. It never claims to have handled the
exception. `init` stores the path and registers the handler once. `deinit` unregisters it.

This project models that core:

- `win_types.dfy` (`WinTypes`): DWORD codes, 64-bit addresses, handler tokens and the
  handler's return value `EXCEPTION_CONTINUE_SEARCH`.
- `classifier.dfy` (`Classifier`): `DoIgnore` and the full ignore test from `VEHandler`,
  checked against the denylist written as a table.
- `dump_writer.dfy` (`DumpWriter`): `createMiniDump` as a decision tree over what the
  OS answers (an `Environment`). It gives the log lines the routine writes and the
  resource calls it makes. `ResourceSafe` is an independent checker of call traces: a
  trace passes when everything it acquires is released and it never uses a resource it
  does not hold.
- `interceptor.dfy` (`Interceptor`): the process-wide state as a value. `Intercept` is
  one handler invocation and `Run` is a sequence of them. This module holds the
  lemmas about the guard, the log header and the dump count.
- `dumper.dfy` (`Dumper`): class `CrashCapture` with the globals of `dumper.cpp` as
  fields. Its methods `Write`, `OpenLogFile`, `CreateMiniDump`, `WriteDumpFile` and
  `VEHandler` run step by step and are each proved against the functions above. `Init`,
  `Deinit` and `DeinitCorrected` state their new fields directly and keep `Valid`. A few client
  methods state end-to-end scenarios.

The model treats every Win32 call as an answer the caller supplies: whether the library
loaded, whether the entry point was found, whether the file was created, whether the
dump succeeded, what `GetLastError` returned, and what `time` returned. Log lines are
structured values instead of formatted text. `Environment.faultsDuringDump` lists the
exceptions raised on the faulting thread while `MiniDumpWriteDump` runs.
`CreateMiniDump` dispatches each of them to `VEHandler` again, so the reentrancy guard
is exercised and proved, not assumed.

## Points a reader of dumper.cpp may miss

- The dump file is the `init` path itself. `CreateFileW` opens `dmpPathW` with no
  extension added. Only the log gets a suffix (`.log`).
- The denylist has exactly the eleven codes in `DoIgnore`. Other high-bit codes, such as
  `0x80320012`, `0xe0000001` and `0xe0000002`, are captured (`Classifier.CapturedExamples`).
- `deinit` does not clear the stored token. After `init`, `deinit`, `init`, no handler
  is registered (see Findings).
- `deinit` does not require an earlier `init`. Without one it passes a null token to
  the OS, which has no effect.

## Model

| member | source | states |
|---|---|---|
| `Classifier.DoIgnore` | src_win/dumper.cpp:62-76 | true exactly for the codes in the eleven-entry denylist table; every ignored code has the severity bit set |
| `Classifier.IsIgnored` | src_win/dumper.cpp:87-91 | a code is captured exactly when it is at least 0x80000000 and not in the denylist |
| `Classifier.CapturedExamples` | src_win/dumper.cpp:87-91 | access violation and stack overflow are captured, as are 0x80320012, 0xe0000001 and 0xe0000002; low codes are ignored |
| `DumpWriter.DumpLines` | src_win/dumper.cpp:26-59 | one line when the routine stops before the dump file exists, two lines once it does, and the first line is "writing dump <path>" exactly then |
| `DumpWriter.DumpLinesReportOutcome` | src_win/dumper.cpp:40-58 | the last line names the outcome (library missing, wrong version, create failed, write failed, success) and carries GetLastError for every failure except a wrong version; no header line is written |
| `DumpWriter.DumpCalls` | src_win/dumper.cpp:26-56 | the routine always starts by loading dbghelp.dll |
| `DumpWriter.DumpCallsPairAcquireWithRelease` | src_win/dumper.cpp:34-56 | FreeLibrary happens exactly when the library loaded and CloseHandle exactly when the file was created; MiniDumpWriteDump is called exactly when library, entry point and file are all there |
| `DumpWriter.DumpCallsReleaseEverything` | src_win/dumper.cpp:26-59 | for every OS outcome the call trace is resource-safe: nothing is used unheld, acquired twice or left held |
| `Interceptor.Intercept` | src_win/dumper.cpp:85-103 | an ignored code or a busy guard changes nothing; otherwise one dump attempt, the guard is free again, only the current log file changes, and nothing is logged when the log cannot be opened |
| `Interceptor.InterceptPreservesValid` | src_win/dumper.cpp:85-103 | a handler invocation keeps the guard free, at most one registration, and every resource released |
| `Interceptor.CaptureAppendsOneHeaderBlock` | src_win/dumper.cpp:78-83 | a capture keeps the old log and appends exactly one header block (time, code, address, in that order), ending with the line that reports the outcome |
| `Interceptor.RunDumpsOncePerCapture` | src_win/dumper.cpp:85-103 | over any run of exceptions the dump count grows by exactly the number of capture-worthy codes; the guard ends free and the registration and path are untouched |
| `Interceptor.RunWhileWritingChangesNothing` | src_win/dumper.cpp:93-100 | while the guard is taken, no run of nested exceptions changes the state |
| `Interceptor.RunPreservesValid` | src_win/dumper.cpp:85-103 | the state invariant holds after any run of exceptions |
| `Dumper.CrashCapture.constructor` | src_win/dumper.cpp:14-18 | initial globals: no handler, empty paths, guard free, no log and no calls |
| `Dumper.CrashCapture.Write` | src_win/dumper.cpp:79-82 | a line is appended to the open log file, or dropped when the stream failed to open |
| `Dumper.CrashCapture.OpenLogFile` | src_win/dumper.cpp:78-83 | opens <dmpPath>.log for appending and appends the header block, changing nothing else |
| `Dumper.CrashCapture.CreateMiniDump` | src_win/dumper.cpp:20-60 | the log gains DumpLines, the call record gains DumpCalls and the dump count grows by one; the guard, paths and registration are untouched |
| `Dumper.CrashCapture.WriteDumpFile` | src_win/dumper.cpp:34-49 | with the file open: "writing dump", then success or the error, then MiniDumpWriteDump and CloseHandle are recorded |
| `Dumper.CrashCapture.FaultsDuringDump` | src_win/dumper.cpp:93-100 | exceptions raised while the dump is written re-enter VEHandler and change nothing, because the guard is taken |
| `Dumper.CrashCapture.VEHandler` | src_win/dumper.cpp:85-103 | always returns EXCEPTION_CONTINUE_SEARCH; the new state is Intercept of the old one; the state invariant is kept |
| `Dumper.CrashCapture.Init` | src_win/dumper.cpp:105-114 | always overwrites both paths; registers and stores a token only when none is stored; at most one registration ever |
| `Dumper.CrashCapture.Deinit` | src_win/dumper.cpp:116-118 | unregisters the handler but keeps the stored token |
| `Dumper.CrashCapture.DeinitCorrected` | src_win/dumper.cpp:116-118 | unregisters the handler and clears the stored token |
| `Dumper.InitTwice` | src_win/dumper.cpp:111-113 | two init calls leave one registration with the first token |
| `Dumper.AccessViolationCaptured` | src_win/dumper.cpp:85-103 | after init, an access violation gives EXCEPTION_CONTINUE_SEARCH and one dump attempt, whatever else faults during the dump, and one header block in <path>.log when the log opens |
| `Dumper.InitAfterDeinit` | src_win/dumper.cpp:105-118 | as written: init, deinit, init leaves no handler registered |
| `Dumper.InitAfterCorrectedDeinit` | src_win/dumper.cpp:105-118 | with the corrected deinit, init, deinit, init leaves one registration with the new token |

## Findings

| source | as written | input that shows it | evidently intended | confidence | as-written member | corrected member |
|---|---|---|---|---|---|---|
| src_win/dumper.cpp:116-118 | `deinit` removes the handler but leaves `exceptionHandler` non-null, so a later `init` skips registration | `init(p)`, `deinit()`, `init(p)`: afterwards no vectored handler is registered, so the OS never calls `VEHandler` | `deinit` also resets the stored token so that `init` can install the handler again | medium, not executed | `Dumper.InitAfterDeinit` | `Dumper.InitAfterCorrectedDeinit` |

## Left out

- Win32 and DbgHelp calls are not modelled. This covers `LoadLibraryW`, `GetProcAddress`, `CreateFileW`, `MiniDumpWriteDump`, `GetLastError`, `CloseHandle`, `FreeLibrary`, `AddVectoredExceptionHandler` and `RemoveVectoredExceptionHandler`. Their results come from the caller as an `Environment` or an `Option<Token>`. Only their order and whether they happened are recorded.
- The contents of the dump are not modelled: the `MiniDumpNormal` type, the thread id, the exception pointers, the process handle and the sharing mode.
- `time(nullptr)` is not modelled. It is the `clock` field of the `Environment`.
- The hex and decimal formatting of log lines is not modelled. Lines are structured values.
- `toWC`, the UTF-8 to UTF-16 conversion, is not part of this model, because `string_cast.h` is not available. `Init` takes the converted path as a parameter.
- The Nan/V8 glue (`NAN_METHOD`, `NAN_MODULE_INIT`, `String::Utf8Value`) and `index.js` are not modelled. They are an adapter with no logic of their own.
- `crash` is not modelled. It is a deliberate null write whose effect is the hardware fault itself.
- Concurrent faults on several threads are not modelled, and so neither is the race on `writing`. The handler runs as sequential invocations.
- Re-entry is modelled only at the `MiniDumpWriteDump` call. Faults raised by the other calls inside the guard would be turned back the same way.
- Closing the log stream at the end of `VEHandler` is not modelled. It only flushes what was already written.
- How the OS dispatches one exception to several registered handlers is not modelled. `Valid` proves that at most one registration of `VEHandler` ever exists, so each exception reaches it at most once, and not at all once `deinit` has run.
