/**
 * VEHandler as a function of the process-wide state: the state the class in module Dumper
 * keeps, the effect of one handler invocation on it, and what follows for a run of exceptions.
 */
module Interceptor {
  import opened WinTypes
  import opened Classifier
  import opened DumpWriter

  /** The process-wide state of dumper.cpp, together with what the operating system records of it. */
  datatype State = State(
    exceptionHandler: Option<Token>,         // the token of the registered handler, None while null
    registrations: nat,                      // how many entries for VEHandler the OS handler list holds
    dmpPath: string,                         // the path given to init, as UTF-8
    dmpPathW: string,                        // the same path converted to UTF-16, where the dump goes
    writing: bool,                           // the reentrancy guard
    logFiles: map<string, seq<LogLine>>,     // the contents of every log file written so far
    dumpAttempts: nat,                       // how many times createMiniDump has run
    calls: seq<OsCall>)                      // every resource call createMiniDump has made

  /** The std::ofstream the handler writes through: opened on a path, or in a failed state that drops every write. */
  datatype LogStream = Failed | Open(path: string)

  /** One exception as the handler sees it, with what the OS answers while it is handled. */
  datatype Event = Event(fault: Fault, env: Environment)

  function LogPath(dmpPath: string): string
  {
    dmpPath + ".log"
  }

  /** The contents of the file at `path`, empty if it was never written. */
  function LogOf(files: map<string, seq<LogLine>>, path: string): seq<LogLine>
  {
    if path in files then files[path] else []
  }

  /** The log files after `lines` are written through `stream`. */
  function Written(files: map<string, seq<LogLine>>, stream: LogStream, lines: seq<LogLine>): map<string, seq<LogLine>>
  {
    match stream
    case Failed => files
    case Open(path) => files[path := LogOf(files, path) + lines]
  }

  /** Writing two blocks through one stream is writing them one after the other. */
  lemma WrittenTwice(files: map<string, seq<LogLine>>, stream: LogStream, a: seq<LogLine>, b: seq<LogLine>)
    ensures Written(Written(files, stream, a), stream, b) == Written(files, stream, a + b)
  {
    if stream.Open? {
      assert LogOf(files, stream.path) + a + b == LogOf(files, stream.path) + (a + b);
    }
  }

  /** The header block openLogFile writes: time, exception code, exception address. */
  function HeaderLines(clock: int, fault: Fault): seq<LogLine>
  {
    [ExceptionTime(clock), ExceptionCode(fault.code), ExceptionAddress(fault.address)]
  }

  /** The stream openLogFile produces. */
  function LogStreamFor(dmpPath: string, env: Environment): LogStream
  {
    if env.logOpens then Open(LogPath(dmpPath)) else Failed
  }

  /** A handler invocation captures when the code is not ignored and no capture is in flight. */
  predicate Captures(s: State, code: DWord)
  {
    !IsIgnored(code) && !s.writing
  }

  /**
   * One invocation of VEHandler: an ignored code, or any code while a capture is in flight,
   * changes nothing; otherwise the header and the dump writer's lines go to <dmpPath>.log,
   * createMiniDump runs once, and the guard is free again afterwards.
   */
  function Intercept(s: State, fault: Fault, env: Environment): (r: State)
    ensures r.writing == s.writing
    ensures r.exceptionHandler == s.exceptionHandler && r.registrations == s.registrations
    ensures r.dmpPath == s.dmpPath && r.dmpPathW == s.dmpPathW
    ensures r.dumpAttempts == s.dumpAttempts + (if Captures(s, fault.code) then 1 else 0)
    ensures !Captures(s, fault.code) ==> r == s
    ensures !env.logOpens ==> r.logFiles == s.logFiles
    ensures forall p :: p != LogPath(s.dmpPath) ==> LogOf(r.logFiles, p) == LogOf(s.logFiles, p)
  {
    if !Captures(s, fault.code) then s
    else
      s.(logFiles := Written(s.logFiles, LogStreamFor(s.dmpPath, env), HeaderLines(env.clock, fault) + DumpLines(s.dmpPath, env)),
         dumpAttempts := s.dumpAttempts + 1,
         calls := s.calls + DumpCalls(s.dmpPathW, env))
  }

  /**
   * The state between handler invocations: at most one registration, which has its token
   * stored; no capture in flight; every resource the dump writer took has been released.
   */
  predicate Valid(s: State)
  {
    && s.registrations <= 1
    && (s.registrations == 1 ==> s.exceptionHandler.Some?)
    && !s.writing
    && ResourceSafe(s.calls, {})
  }

  lemma InterceptPreservesValid(s: State, fault: Fault, env: Environment)
    requires Valid(s)
    ensures Valid(Intercept(s, fault, env))
  {
    if Captures(s, fault.code) {
      DumpCallsReleaseEverything(s.dmpPathW, env);
      ResourceSafeConcat(s.calls, DumpCalls(s.dmpPathW, env), {});
    }
  }

  lemma {:induction false} NoHeaders(lines: seq<LogLine>)
    requires forall i :: 0 <= i < |lines| ==> !lines[i].ExceptionTime?
    ensures Headers(lines) == 0
  {
    if lines != [] {
      NoHeaders(lines[1..]);
    }
  }

  /**
   * A capture with the log open appends exactly one header block, in the order time, code,
   * address, keeps what the log held before, and ends with the line that reports the outcome.
   */
  lemma CaptureAppendsOneHeaderBlock(s: State, fault: Fault, env: Environment)
    requires Captures(s, fault.code) && env.logOpens
    ensures var before := LogOf(s.logFiles, LogPath(s.dmpPath));
            var after := LogOf(Intercept(s, fault, env).logFiles, LogPath(s.dmpPath));
            && |after| > |before| + 3
            && after[..|before|] == before
            && after[|before|] == ExceptionTime(env.clock)
            && after[|before| + 1] == ExceptionCode(fault.code)
            && after[|before| + 2] == ExceptionAddress(fault.address)
            && Headers(after) == Headers(before) + 1
            && OutcomeOf(after[|after| - 1]) == Some(Classify(env))
  {
    var before := LogOf(s.logFiles, LogPath(s.dmpPath));
    var lines := DumpLines(s.dmpPath, env);
    var after := LogOf(Intercept(s, fault, env).logFiles, LogPath(s.dmpPath));
    assert after == before + HeaderLines(env.clock, fault) + lines;
    DumpLinesReportOutcome(s.dmpPath, env);
    NoHeaders(lines);
    HeadersConcat(HeaderLines(env.clock, fault), lines);
    HeadersConcat(before, HeaderLines(env.clock, fault) + lines);
    assert before + HeaderLines(env.clock, fault) + lines == before + (HeaderLines(env.clock, fault) + lines);
    NoHeaders(HeaderLines(env.clock, fault)[1..]);
  }

  /** The handler invoked on each exception of a run, one after the other. */
  function Run(s: State, events: seq<Event>): State
    decreases |events|
  {
    if events == [] then s
    else Run(Intercept(s, events[0].fault, events[0].env), events[1..])
  }

  /** How many exceptions of a run have a code the handler does not ignore. */
  function CaptureWorthy(events: seq<Event>): nat
  {
    if events == [] then 0
    else (if IsIgnored(events[0].fault.code) then 0 else 1) + CaptureWorthy(events[1..])
  }

  /**
   * From a state with no capture in flight, every capture-worthy exception of a run produces
   * exactly one dump attempt and the others none; the guard is free at the end, and the run
   * leaves the registration and the paths alone.
   */
  lemma {:induction false} RunDumpsOncePerCapture(s: State, events: seq<Event>)
    requires !s.writing
    ensures Run(s, events).dumpAttempts == s.dumpAttempts + CaptureWorthy(events)
    ensures !Run(s, events).writing
    ensures Run(s, events).exceptionHandler == s.exceptionHandler
    ensures Run(s, events).registrations == s.registrations
    ensures Run(s, events).dmpPath == s.dmpPath
    decreases |events|
  {
    if events != [] {
      RunDumpsOncePerCapture(Intercept(s, events[0].fault, events[0].env), events[1..]);
    }
  }

  /**
   * While a capture is in flight, no run of exceptions changes anything. This covers only
   * nested dispatch, from inside a capture: from a Valid state the guard is always free
   * between invocations (RunDumpsOncePerCapture).
   */
  lemma {:induction false} RunWhileWritingChangesNothing(s: State, events: seq<Event>)
    requires s.writing
    ensures Run(s, events) == s
    decreases |events|
  {
    if events != [] {
      RunWhileWritingChangesNothing(Intercept(s, events[0].fault, events[0].env), events[1..]);
    }
  }

  lemma {:induction false} RunPreservesValid(s: State, events: seq<Event>)
    requires Valid(s)
    ensures Valid(Run(s, events))
    decreases |events|
  {
    if events != [] {
      InterceptPreservesValid(s, events[0].fault, events[0].env);
      RunPreservesValid(Intercept(s, events[0].fault, events[0].env), events[1..]);
    }
  }
}
