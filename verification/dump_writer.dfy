/**
 * createMiniDump as a decision tree over what the operating system answers: the log
 * lines it writes and the calls it makes, with the resources those calls acquire.
 */
module DumpWriter {
  import opened WinTypes

  /** What the operating system answers to the calls one handler invocation makes. */
  datatype Environment = Environment(
    clock: int,                    // what time(nullptr) returns
    logOpens: bool,                // whether <dmpPath>.log can be opened for appending
    dllLoaded: bool,               // LoadLibraryW("dbghelp.dll") returns a module
    procFound: bool,               // GetProcAddress(.., "MiniDumpWriteDump") returns a function
    fileCreated: bool,             // CreateFileW returns a valid handle
    dumpWritten: bool,             // MiniDumpWriteDump returns TRUE
    lastError: DWord,              // what GetLastError returns after the call that failed
    faultsDuringDump: seq<Fault>)  // exceptions raised on this thread while MiniDumpWriteDump runs

  /** One line of the <dmpPath>.log file; the numbers are written in hexadecimal, the time in decimal. */
  datatype LogLine =
    | ExceptionTime(seconds: int)
    | ExceptionCode(code: DWord)
    | ExceptionAddress(address: Address)
    | WritingDump(path: string)
    | Success
    | FailedToWriteDump(error: DWord)
    | FailedToCreateDmpFile(error: DWord)
    | WrongDbgHelpVersion
    | DbgHelpNotLoaded(error: DWord)

  /** The calls createMiniDump makes that acquire, use or release a resource, with their results. */
  datatype OsCall =
    | LoadLibrary(loaded: bool)
    | GetProcAddress(found: bool)
    | CreateFile(path: string, created: bool)
    | MiniDumpWriteDump(written: bool)
    | CloseHandle
    | FreeLibrary

  datatype Resource = DbgHelpModule | DumpFileHandle

  /** How one attempt ended: the error taxonomy of the dump writer. */
  datatype Outcome = DbgHelpMissing | WrongVersion | CreateFailed | WriteFailed | DumpWritten

  /** The dump routine is only called once the library, its entry point and the file are all there. */
  predicate ReachesDump(env: Environment)
  {
    env.dllLoaded && env.procFound && env.fileCreated
  }

  /** The outcome of an attempt, failures checked in the order the routine meets them. */
  function Classify(env: Environment): Outcome
  {
    if !env.dllLoaded then DbgHelpMissing
    else if !env.procFound then WrongVersion
    else if !env.fileCreated then CreateFailed
    else if !env.dumpWritten then WriteFailed
    else DumpWritten
  }

  /** What a reader of the log learns from the last line an attempt writes. */
  function OutcomeOf(line: LogLine): Option<Outcome>
  {
    match line
    case DbgHelpNotLoaded(_) => Some(DbgHelpMissing)
    case WrongDbgHelpVersion => Some(WrongVersion)
    case FailedToCreateDmpFile(_) => Some(CreateFailed)
    case FailedToWriteDump(_) => Some(WriteFailed)
    case Success => Some(DumpWritten)
    case _ => None
  }

  /** The platform error code a line reports, if any. */
  function ErrorOf(line: LogLine): Option<DWord>
  {
    match line
    case DbgHelpNotLoaded(e) => Some(e)
    case FailedToCreateDmpFile(e) => Some(e)
    case FailedToWriteDump(e) => Some(e)
    case _ => None
  }

  /** The number of header blocks ("Exception time: ..." lines) in a log. */
  function Headers(lines: seq<LogLine>): nat
  {
    if lines == [] then 0
    else (if lines[0].ExceptionTime? then 1 else 0) + Headers(lines[1..])
  }

  lemma {:induction false} HeadersConcat(a: seq<LogLine>, b: seq<LogLine>)
    ensures Headers(a + b) == Headers(a) + Headers(b)
  {
    if a == [] {
      assert a + b == b;
    } else {
      assert (a + b)[0] == a[0] && (a + b)[1..] == a[1..] + b;
      HeadersConcat(a[1..], b);
    }
  }

  /**
   * The lines createMiniDump writes: one error line when it stops before the dump file exists,
   * otherwise "writing dump <path>" and then the dump routine's result.
   */
  function DumpLines(path: string, env: Environment): (lines: seq<LogLine>)
    ensures |lines| == (if ReachesDump(env) then 2 else 1)
    ensures lines[0] == WritingDump(path) <==> ReachesDump(env)
  {
    if !env.dllLoaded then [DbgHelpNotLoaded(env.lastError)]
    else if !env.procFound then [WrongDbgHelpVersion]
    else if !env.fileCreated then [FailedToCreateDmpFile(env.lastError)]
    else [WritingDump(path), if env.dumpWritten then Success else FailedToWriteDump(env.lastError)]
  }

  /**
   * A reader of the log learns from the last line of an attempt how it ended and, for every
   * failure but a wrong library version, the platform error code; the dump writer never
   * writes a header line.
   */
  lemma DumpLinesReportOutcome(path: string, env: Environment)
    ensures var lines := DumpLines(path, env);
            && OutcomeOf(lines[|lines| - 1]) == Some(Classify(env))
            && ErrorOf(lines[|lines| - 1]) == (if Classify(env) in {WrongVersion, DumpWritten} then None else Some(env.lastError))
            && forall i :: 0 <= i < |lines| ==> !lines[i].ExceptionTime?
  {
  }

  /**
   * A call trace that, starting with the resources in `held`, never acquires a resource it
   * already holds, only uses or releases what it holds, and ends holding nothing.
   */
  function ResourceSafe(trace: seq<OsCall>, held: set<Resource>): bool
  {
    if trace == [] then held == {}
    else
      var rest := trace[1..];
      match trace[0]
      case LoadLibrary(loaded) =>
        DbgHelpModule !in held && ResourceSafe(rest, if loaded then held + {DbgHelpModule} else held)
      case GetProcAddress(_) =>
        DbgHelpModule in held && ResourceSafe(rest, held)
      case CreateFile(_, created) =>
        DumpFileHandle !in held && ResourceSafe(rest, if created then held + {DumpFileHandle} else held)
      case MiniDumpWriteDump(_) =>
        DbgHelpModule in held && DumpFileHandle in held && ResourceSafe(rest, held)
      case CloseHandle =>
        DumpFileHandle in held && ResourceSafe(rest, held - {DumpFileHandle})
      case FreeLibrary =>
        DbgHelpModule in held && ResourceSafe(rest, held - {DbgHelpModule})
  }

  /** Running a safe trace after one that releases everything it takes is safe as a whole. */
  lemma {:induction false} ResourceSafeConcat(a: seq<OsCall>, b: seq<OsCall>, held: set<Resource>)
    requires ResourceSafe(a, held) && ResourceSafe(b, {})
    ensures ResourceSafe(a + b, held)
  {
    if a == [] {
      assert a + b == b;
    } else {
      assert (a + b)[0] == a[0] && (a + b)[1..] == a[1..] + b;
      match a[0]
      case LoadLibrary(loaded) =>
        ResourceSafeConcat(a[1..], b, if loaded then held + {DbgHelpModule} else held);
      case GetProcAddress(_) =>
        ResourceSafeConcat(a[1..], b, held);
      case CreateFile(_, created) =>
        ResourceSafeConcat(a[1..], b, if created then held + {DumpFileHandle} else held);
      case MiniDumpWriteDump(_) =>
        ResourceSafeConcat(a[1..], b, held);
      case CloseHandle =>
        ResourceSafeConcat(a[1..], b, held - {DumpFileHandle});
      case FreeLibrary =>
        ResourceSafeConcat(a[1..], b, held - {DbgHelpModule});
    }
  }

  /** The resource calls createMiniDump makes, creating the dump file at `widePath`. */
  function DumpCalls(widePath: string, env: Environment): (calls: seq<OsCall>)
    ensures |calls| > 0 && calls[0] == LoadLibrary(env.dllLoaded)
  {
    if !env.dllLoaded then
      [LoadLibrary(false)]
    else if !env.procFound then
      [LoadLibrary(true), GetProcAddress(false), FreeLibrary]
    else if !env.fileCreated then
      [LoadLibrary(true), GetProcAddress(true), CreateFile(widePath, false), FreeLibrary]
    else
      [LoadLibrary(true), GetProcAddress(true), CreateFile(widePath, true),
       MiniDumpWriteDump(env.dumpWritten), CloseHandle, FreeLibrary]
  }

  /**
   * The file handle is closed exactly when it was created, the library freed exactly when it
   * was loaded, and the dump routine called exactly when everything it needs was acquired.
   */
  lemma DumpCallsPairAcquireWithRelease(widePath: string, env: Environment)
    ensures var calls := DumpCalls(widePath, env);
            && (FreeLibrary in calls <==> LoadLibrary(true) in calls)
            && (CloseHandle in calls <==> CreateFile(widePath, true) in calls)
            && (CreateFile(widePath, env.fileCreated) in calls <==> env.dllLoaded && env.procFound)
            && (MiniDumpWriteDump(env.dumpWritten) in calls <==> ReachesDump(env))
            && MiniDumpWriteDump(!env.dumpWritten) !in calls
  {
  }

  /** Whatever the operating system answers, createMiniDump releases everything it acquires. */
  lemma DumpCallsReleaseEverything(widePath: string, env: Environment)
    ensures ResourceSafe(DumpCalls(widePath, env), {})
  {
    var calls := DumpCalls(widePath, env);
    var lib: set<Resource> := {DbgHelpModule};
    if !env.dllLoaded {
      assert ResourceSafe(calls[1..], {});
    } else if !env.procFound {
      assert ResourceSafe(calls[2..], lib);
      assert ResourceSafe(calls[1..], lib);
    } else if !env.fileCreated {
      assert ResourceSafe(calls[3..], lib);
      assert ResourceSafe(calls[2..], lib);
      assert ResourceSafe(calls[1..], lib);
    } else {
      var both: set<Resource> := {DbgHelpModule, DumpFileHandle};
      assert both - {DumpFileHandle} == lib && lib + {DumpFileHandle} == both;
      assert ResourceSafe(calls[5..], lib);
      assert ResourceSafe(calls[4..], both);
      assert ResourceSafe(calls[3..], both);
      assert ResourceSafe(calls[2..], lib);
      assert ResourceSafe(calls[1..], lib);
    }
    assert {} + {DbgHelpModule} == lib;
  }
}
