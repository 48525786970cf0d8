/**
 * dumper.cpp: the process-wide crash-capture state as a class, with the vectored exception
 * handler, the two routines it calls, and init/deinit. The Win32 calls are replaced by the
 * answers in an Environment. Write, OpenLogFile, CreateMiniDump, WriteDumpFile and VEHandler
 * are proved against the functions of Interceptor; Init, Deinit and DeinitCorrected state
 * their new fields directly and keep Valid.
 */
module Dumper {
  import opened WinTypes
  import opened Classifier
  import opened DumpWriter
  import opened Interceptor

  class CrashCapture {
    var exceptionHandler: Option<Token>
    var registrations: nat
    var dmpPath: string
    var dmpPathW: string
    var writing: bool
    var logFiles: map<string, seq<LogLine>>
    var dumpAttempts: nat
    var calls: seq<OsCall>

    /** The fields as one value of Interceptor.State. */
    function Abstract(): State
      reads this
    {
      State(exceptionHandler, registrations, dmpPath, dmpPathW, writing, logFiles, dumpAttempts, calls)
    }

    ghost predicate Valid()
      reads this
    {
      Interceptor.Valid(Abstract())
    }

    /** The globals as the module is loaded: no handler, empty paths, guard free. */
    constructor ()
      ensures Valid()
      ensures exceptionHandler == None && registrations == 0
      ensures dmpPath == "" && dmpPathW == "" && !writing
      ensures logFiles == map[] && dumpAttempts == 0 && calls == []
    {
      exceptionHandler := None;
      registrations := 0;
      dmpPath, dmpPathW := "", "";
      writing := false;
      logFiles := map[];
      dumpAttempts := 0;
      calls := [];
    }

    /** `logFile << line << std::endl`: appended if the stream is open, dropped if it failed. */
    method Write(stream: LogStream, line: LogLine)
      modifies this`logFiles
      ensures logFiles == Written(old(logFiles), stream, [line])
    {
      match stream
      case Failed =>
      case Open(path) =>
        logFiles := logFiles[path := LogOf(logFiles, path) + [line]];
    }

    /** openLogFile: open <dmpPath>.log for appending and write the header block. */
    method OpenLogFile(fault: Fault, env: Environment) returns (logFile: LogStream)
      modifies this`logFiles
      ensures logFile == LogStreamFor(dmpPath, env)
      ensures logFiles == Written(old(logFiles), logFile, HeaderLines(env.clock, fault))
    {
      logFile := if env.logOpens then Open(dmpPath + ".log") else Failed;
      ghost var header := HeaderLines(env.clock, fault);
      assert header[..1] == [ExceptionTime(env.clock)] && header[1..2] == [ExceptionCode(fault.code)];
      assert header[2..] == [ExceptionAddress(fault.address)];
      Write(logFile, ExceptionTime(env.clock));
      Write(logFile, ExceptionCode(fault.code));
      WrittenTwice(old(logFiles), logFile, header[..1], header[1..2]);
      assert header[..1] + header[1..2] == header[..2];
      Write(logFile, ExceptionAddress(fault.address));
      WrittenTwice(old(logFiles), logFile, header[..2], header[2..]);
      assert header[..2] + header[2..] == header;
    }

    /**
     * createMiniDump: load dbghelp.dll, find MiniDumpWriteDump, create the dump file at dmpPathW,
     * write the dump, and log each failure or the result.
     */
    method CreateMiniDump(logFile: LogStream, env: Environment)
      requires writing
      modifies this
      decreases |env.faultsDuringDump|, 2
      ensures logFiles == Written(old(logFiles), logFile, DumpLines(dmpPath, env))
      ensures dumpAttempts == old(dumpAttempts) + 1
      ensures calls == old(calls) + DumpCalls(dmpPathW, env)
      ensures exceptionHandler == old(exceptionHandler) && registrations == old(registrations)
      ensures dmpPath == old(dmpPath) && dmpPathW == old(dmpPathW) && writing == old(writing)
    {
      dumpAttempts := dumpAttempts + 1;
      calls := calls + [LoadLibrary(env.dllLoaded)];
      if env.dllLoaded {
        calls := calls + [GetProcAddress(env.procFound)];
        if env.procFound {
          calls := calls + [CreateFile(dmpPathW, env.fileCreated)];
          if env.fileCreated {
            WriteDumpFile(logFile, env);
          } else {
            Write(logFile, FailedToCreateDmpFile(env.lastError));
          }
        } else {
          Write(logFile, WrongDbgHelpVersion);
        }
        calls := calls + [FreeLibrary];
      } else {
        Write(logFile, DbgHelpNotLoaded(env.lastError));
      }
    }

    /**
     * The part of createMiniDump that runs once the dump file is open: log the path, call
     * MiniDumpWriteDump, log its result and close the file. Exceptions raised on this thread
     * while the dump is written re-enter VEHandler, which the guard turns back.
     */
    method WriteDumpFile(logFile: LogStream, env: Environment)
      requires writing && ReachesDump(env)
      modifies this
      decreases |env.faultsDuringDump|, 1
      ensures logFiles == Written(old(logFiles), logFile, DumpLines(dmpPath, env))
      ensures calls == old(calls) + [MiniDumpWriteDump(env.dumpWritten), CloseHandle]
      ensures dumpAttempts == old(dumpAttempts)
      ensures exceptionHandler == old(exceptionHandler) && registrations == old(registrations)
      ensures dmpPath == old(dmpPath) && dmpPathW == old(dmpPathW) && writing == old(writing)
    {
      Write(logFile, WritingDump(dmpPath));
      FaultsDuringDump(env);
      calls := calls + [MiniDumpWriteDump(env.dumpWritten)];
      if !env.dumpWritten {
        Write(logFile, FailedToWriteDump(env.lastError));
      } else {
        Write(logFile, Success);
      }
      calls := calls + [CloseHandle];
      ghost var lines := DumpLines(dmpPath, env);
      assert lines[..1] == [WritingDump(dmpPath)] && lines[..1] + lines[1..] == lines;
      WrittenTwice(old(logFiles), logFile, lines[..1], lines[1..]);
    }

    /**
     * The exceptions MiniDumpWriteDump raises on the faulting thread, each dispatched to
     * VEHandler while the guard is taken; the guard makes every one of them a no-op.
     */
    method FaultsDuringDump(env: Environment)
      requires writing
      modifies this
      decreases |env.faultsDuringDump|, 0
      ensures writing == old(writing) && logFiles == old(logFiles) && calls == old(calls)
      ensures dumpAttempts == old(dumpAttempts) && registrations == old(registrations)
      ensures exceptionHandler == old(exceptionHandler) && dmpPath == old(dmpPath) && dmpPathW == old(dmpPathW)
    {
      for i := 0 to |env.faultsDuringDump|
        invariant Abstract() == old(Abstract())
      {
        ghost var s := Abstract();
        assert !Captures(s, env.faultsDuringDump[i].code);
        var disposition := VEHandler(env.faultsDuringDump[i], env.(faultsDuringDump := []));
        assert Abstract() == s;
      }
    }

    /**
     * VEHandler: ignored codes return at once; otherwise, unless a capture is in flight, take
     * the guard, write the log header, run createMiniDump and free the guard. The exception is
     * never claimed as handled.
     */
    method VEHandler(fault: Fault, env: Environment) returns (disposition: int)
      modifies this
      decreases |env.faultsDuringDump|, 3
      ensures disposition == ExceptionContinueSearch
      ensures Abstract() == Intercept(old(Abstract()), fault, env)
      ensures old(Valid()) ==> Valid()
    {
      if Valid() {
        InterceptPreservesValid(Abstract(), fault, env);
      }
      if fault.code < HighBit || DoIgnore(fault.code) {
        return ExceptionContinueSearch;
      }
      if !writing {
        ghost var files := logFiles;
        writing := true;
        var logFile := OpenLogFile(fault, env);
        CreateMiniDump(logFile, env);
        writing := false;
        WrittenTwice(files, logFile, HeaderLines(env.clock, fault), DumpLines(dmpPath, env));
      }
      return ExceptionContinueSearch;
    }

    /**
     * init: always take the new path; register the handler only while no token is stored.
     * `registration` is what AddVectoredExceptionHandler answers (None for a NULL return),
     * `widePath` what the UTF-8 to UTF-16 conversion gives for `path`.
     */
    method Init(path: string, widePath: string, registration: Option<Token>)
      requires Valid()
      modifies this
      ensures Valid()
      ensures dmpPath == path && dmpPathW == widePath
      ensures old(exceptionHandler).Some? ==> exceptionHandler == old(exceptionHandler) && registrations == old(registrations)
      ensures old(exceptionHandler).None? ==> exceptionHandler == registration && registrations == (if registration.Some? then 1 else 0)
      ensures writing == old(writing) && logFiles == old(logFiles)
      ensures dumpAttempts == old(dumpAttempts) && calls == old(calls)
    {
      dmpPath := path;
      dmpPathW := widePath;
      if exceptionHandler == None {
        exceptionHandler := registration;
        if registration.Some? {
          registrations := registrations + 1;
        }
      }
    }

    /** deinit: unregister the handler by its token; the token itself stays stored. */
    method Deinit()
      requires Valid()
      modifies this
      ensures Valid()
      ensures registrations == 0
      ensures exceptionHandler == old(exceptionHandler)
      ensures dmpPath == old(dmpPath) && dmpPathW == old(dmpPathW)
      ensures writing == old(writing) && logFiles == old(logFiles)
      ensures dumpAttempts == old(dumpAttempts) && calls == old(calls)
    {
      if exceptionHandler.Some? {
        registrations := 0;
      }
    }

    /** deinit as the lifecycle intends it: unregister and forget the token. */
    method DeinitCorrected()
      requires Valid()
      modifies this
      ensures Valid()
      ensures registrations == 0 && exceptionHandler == None
      ensures dmpPath == old(dmpPath) && dmpPathW == old(dmpPathW)
      ensures writing == old(writing) && logFiles == old(logFiles)
      ensures dumpAttempts == old(dumpAttempts) && calls == old(calls)
    {
      registrations := 0;
      exceptionHandler := None;
    }
  }

  /** Two init calls register once and keep the first token, whatever the second would get. */
  method InitTwice(path: string, widePath: string, first: Token, second: Token)
    returns (registered: nat, token: Option<Token>)
    ensures registered == 1 && token == Some(first)
  {
    var c := new CrashCapture();
    c.Init(path, widePath, Some(first));
    c.Init(path, widePath, Some(second));
    registered, token := c.registrations, c.exceptionHandler;
  }

  /**
   * After init, an access violation yields one dump attempt and, when the log can be opened,
   * exactly one header block in <path>.log, whatever else faults while the dump is written.
   */
  method AccessViolationCaptured(path: string, widePath: string, token: Token, address: Address, env: Environment)
    returns (disposition: int, headers: nat, attempts: nat)
    ensures disposition == ExceptionContinueSearch
    ensures attempts == 1
    ensures headers == (if env.logOpens then 1 else 0)
  {
    var c := new CrashCapture();
    c.Init(path, widePath, Some(token));
    ghost var s := c.Abstract();
    disposition := c.VEHandler(Fault(0xC000_0005, address), env);
    if env.logOpens {
      CaptureAppendsOneHeaderBlock(s, Fault(0xC000_0005, address), env);
    }
    headers := Headers(LogOf(c.logFiles, LogPath(path)));
    attempts := c.dumpAttempts;
  }

  /** init, deinit, init: the second init finds the old token and registers nothing. */
  method InitAfterDeinit(path: string, widePath: string, first: Token, second: Token)
    returns (registered: nat)
    ensures registered == 0
  {
    var c := new CrashCapture();
    c.Init(path, widePath, Some(first));
    c.Deinit();
    c.Init(path, widePath, Some(second));
    registered := c.registrations;
  }

  /** init, corrected deinit, init: capture is armed again, with the new token. */
  method InitAfterCorrectedDeinit(path: string, widePath: string, first: Token, second: Token)
    returns (registered: nat, token: Option<Token>)
    ensures registered == 1 && token == Some(second)
  {
    var c := new CrashCapture();
    c.Init(path, widePath, Some(first));
    c.DeinitCorrected();
    c.Init(path, widePath, Some(second));
    registered, token := c.registrations, c.exceptionHandler;
  }
}
