/** The records that travel between the gateway, the queue, the workers, the
    store and the event bus.  Timestamps are not modelled; float64 is `real`. */
module Models {

  datatype Option<+T> = None | Some(value: T)

  datatype Verdict =
    | Accepted
    | WrongAnswer
    | TimeLimitExceeded
    | MemoryLimitExceeded
    | CompilationError
    | RuntimeError
    | OutputLimitExceeded
    | SystemError

  datatype Status =
    | Queued
    | Compiling
    | Running
    | TestCaseStart
    | TestCasePassed
    | TestCaseFailed
    | Completed
    | Failed

  predicate Terminal(s: Status) {
    s.Completed? || s.Failed?
  }

  datatype TestCase = TestCase(id: string, input: string, expected: string, hidden: bool)

  datatype Limits = Limits(timeMs: int, memoryMB: int, cpuQuota: real, pids: int, outputBytes: int)

  datatype Job = Job(
    id: string,
    language: string,
    code: string,
    limits: Limits,
    sandbox: string,
    tests: seq<TestCase>)

  datatype Compilation = Compilation(success: bool, exitCode: int, stdout: string, stderr: string, timeMs: real)

  /** What a sandbox reports about one execution. */
  datatype Execution = Execution(
    verdict: Verdict,
    exitCode: int,
    stdout: string,
    stderr: string,
    wallMs: real,
    cpuMs: real,
    peakMB: real,
    oomKilled: bool)

  datatype TestResult = TestResult(
    testId: string,
    index: nat,
    verdict: Verdict,
    exitCode: int,
    stdout: string,
    stderr: string,
    wallMs: real,
    cpuMs: real,
    peakMB: real,
    oomKilled: bool)

  /** One frame on the event bus; fields a publisher leaves out are 0, "" or None. */
  datatype Event = Event(
    status: Status,
    current: nat,
    total: nat,
    verdict: Option<Verdict>,
    result: Option<TestResult>,
    compilation: Option<Compilation>,
    wallMs: real,
    cpuMs: real,
    peakMB: real,
    error: string)

  /** The record kept by the state store. */
  datatype State = State(
    id: string,
    status: Status,
    verdict: Verdict,
    language: string,
    total: nat,
    passed: nat,
    results: seq<TestResult>,
    compilation: Option<Compilation>,
    peakMB: real,
    cpuMs: real,
    wallMs: real,
    error: string)

  function Bare(status: Status): Event {
    Event(status, 0, 0, None, None, None, 0.0, 0.0, 0.0, "")
  }
}
