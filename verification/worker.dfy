/** ProcessJob (pkg/worker/worker.go) as a machine that produces a trace of
    store saves, bus publications and the sandbox clean-up. */
module Worker {
  import opened Models
  import opened Requests
  import opened Sandboxes

  datatype Effect = Save(state: State) | Publish(event: Event) | Cleanup

  const DEFAULT_TEST := TestCase("tc-default", "", "", false)
  const HIDDEN := "[Hidden Testcase]"

  function Tests(job: Job): (ts: seq<TestCase>)
    ensures ts != []
  {
    if job.tests == [] then [DEFAULT_TEST] else job.tests
  }

  // ---- Records -----------------------------------------------------------

  function FailedState(job: Job, verdict: Verdict, error: string, comp: Option<Compilation>): State {
    State(job.id, Failed, verdict, job.language, |Tests(job)|, 0, [], comp, 0.0, 0.0, 0.0, error)
  }

  function FailedEvent(verdict: Verdict, error: string, comp: Option<Compilation>): Event {
    Bare(Failed).(verdict := Some(verdict), compilation := comp, error := error)
  }

  function Failure(job: Job, verdict: Verdict, error: string, comp: Option<Compilation>): seq<Effect> {
    [Save(FailedState(job, verdict, error, comp)), Publish(FailedEvent(verdict, error, comp))]
  }

  function CauseText(c: Cause): string {
    if c.Raised? then c.value else "runtime error: invalid memory address or nil pointer dereference"
  }

  function PanicText(p: Panic): string { "panic recovered in worker: " + CauseText(p.cause) + "\n" + p.stack }

  /** What the deferred recovery does after a panic. */
  function Recovery(job: Job, p: Panic): seq<Effect> {
    Failure(job, SystemError, PanicText(p), None)
  }

  function RunningEvent(job: Job, comp: Option<Compilation>): Event {
    Bare(Running).(total := |Tests(job)|, compilation := comp)
  }

  function RunningState(job: Job, comp: Option<Compilation>): State {
    State(job.id, Running, Accepted, job.language, |Tests(job)|, 0, [], comp, 0.0, 0.0, 0.0, "")
  }

  function StartEvent(job: Job, i: nat): Event {
    Bare(TestCaseStart).(current := i + 1, total := |Tests(job)|)
  }

  function ResultEvent(job: Job, i: nat, r: TestResult): Event {
    var e := Event(TestCasePassed, i + 1, |Tests(job)|, None, Some(r), None, r.wallMs, 0.0, r.peakMB, "");
    if r.verdict == Accepted then e else e.(status := TestCaseFailed, verdict := Some(r.verdict))
  }

  function SystemErrorExecution(): Execution {
    Execution(SystemError, 0, "", "", 0.0, 0.0, 0.0, false)
  }

  /** The result item of test i, with the output of a failed hidden test masked. */
  function ResultItem(t: TestCase, i: nat, x: Execution): TestResult {
    var masked := t.hidden && x.verdict != Accepted;
    TestResult(t.id, i + 1, x.verdict, x.exitCode,
               if masked then HIDDEN else x.stdout, if masked then HIDDEN else x.stderr,
               x.wallMs, x.cpuMs, x.peakMB, x.oomKilled)
  }

  // ---- Aggregates over the results --------------------------------------

  function PassedIndices(rs: seq<TestResult>): set<nat> {
    set i: nat | i < |rs| && rs[i].verdict == Accepted
  }

  function Passed(rs: seq<TestResult>): nat {
    |PassedIndices(rs)|
  }

  function WallSum(rs: seq<TestResult>): real {
    if rs == [] then 0.0 else WallSum(rs[..|rs| - 1]) + rs[|rs| - 1].wallMs
  }

  function CpuSum(rs: seq<TestResult>): real {
    if rs == [] then 0.0 else CpuSum(rs[..|rs| - 1]) + rs[|rs| - 1].cpuMs
  }

  ghost predicate IsPeak(rs: seq<TestResult>, peak: real) {
    && peak >= 0.0
    && (forall i :: 0 <= i < |rs| ==> rs[i].peakMB <= peak)
    && (peak == 0.0 || exists i :: 0 <= i < |rs| && rs[i].peakMB == peak)
  }

  /** The largest peak, never below the initial zero. */
  function Peak(rs: seq<TestResult>): (p: real)
    ensures IsPeak(rs, p)
  {
    if rs == [] then 0.0
    else
      var p := Peak(rs[..|rs| - 1]);
      if rs[|rs| - 1].peakMB > p then rs[|rs| - 1].peakMB else p
  }

  ghost predicate IsOverall(rs: seq<TestResult>, v: Verdict) {
    || (v == Accepted && forall i :: 0 <= i < |rs| ==> rs[i].verdict == Accepted)
    || (v != Accepted && exists i :: 0 <= i < |rs| && rs[i].verdict == v
                                      && forall j :: 0 <= j < i ==> rs[j].verdict == Accepted)
  }

  lemma OverallExtends(rs: seq<TestResult>, v: Verdict)
    requires rs != [] && IsOverall(rs[..|rs| - 1], v)
    ensures IsOverall(rs, if v == Accepted then rs[|rs| - 1].verdict else v)
  {
    var n := |rs| - 1;
    var before := rs[..n];
    assert forall i :: 0 <= i < n ==> before[i] == rs[i];
    if v != Accepted {
      var i :| 0 <= i < n && before[i].verdict == v && forall j :: 0 <= j < i ==> before[j].verdict == Accepted;
      assert rs[i].verdict == v && forall j :: 0 <= j < i ==> rs[j].verdict == Accepted;
    } else {
      assert forall j :: 0 <= j < n ==> rs[j].verdict == Accepted;
    }
  }

  /** The verdict of the first test that was not accepted. */
  function Overall(rs: seq<TestResult>): (v: Verdict)
    ensures IsOverall(rs, v)
  {
    if rs == [] then Accepted
    else
      var v := Overall(rs[..|rs| - 1]);
      OverallExtends(rs, v);
      if v == Accepted then rs[|rs| - 1].verdict else v
  }

  function CompletedState(job: Job, comp: Option<Compilation>, rs: seq<TestResult>): State {
    State(job.id, Completed, Overall(rs), job.language, |Tests(job)|, Passed(rs), rs, comp,
          Peak(rs), CpuSum(rs), WallSum(rs), "")
  }

  function CompletedEvent(job: Job, comp: Option<Compilation>, rs: seq<TestResult>): Event {
    Event(Completed, |Tests(job)|, |Tests(job)|, Some(Overall(rs)), None, comp,
          WallSum(rs), CpuSum(rs), Peak(rs), "")
  }

  // ---- The trace ---------------------------------------------------------

  /** The results of the tests that ran, and the panic that stopped them, if any. */
  datatype Ran = Ran(results: seq<TestResult>, panic: Option<Panic>)

  function Executed(sb: Sandbox, req: Request, ts: seq<TestCase>, i: nat): Reply<Execution>
    requires i < |ts|
  {
    match sb.execute(i, req.(stdin := ts[i].input, expected := ts[i].expected))
    case Errs(_) => Returns(SystemErrorExecution())
    case Panics(m) => Panics(m)
    case Returns(None) => Panics(NilPanic(sb))
    case Returns(Some(x)) => Returns(x)
  }

  /** The first n tests, or those before the first panic. */
  function RunTests(sb: Sandbox, req: Request, ts: seq<TestCase>, n: nat): (r: Ran)
    requires n <= |ts|
    ensures |r.results| <= n
    ensures r.panic.None? <==> |r.results| == n
    ensures forall i :: 0 <= i < |r.results| ==> r.results[i].index == i + 1 && r.results[i].testId == ts[i].id
  {
    if n == 0 then Ran([], None)
    else
      var r := RunTests(sb, req, ts, n - 1);
      if r.panic.Some? then r
      else match Executed(sb, req, ts, n - 1)
        case Panics(m) => Ran(r.results, Some(m))
        case Returns(x) => Ran(r.results + [ResultItem(ts[n - 1], n - 1, x)], None)
        case Errs(_) => r
  }

  function ResultEffects(job: Job, rs: seq<TestResult>): seq<Effect> {
    if rs == [] then []
    else
      var n := |rs| - 1;
      ResultEffects(job, rs[..n]) + [Publish(StartEvent(job, n)), Publish(ResultEvent(job, n, rs[n]))]
  }

  function Overture(job: Job, comp: Option<Compilation>): seq<Effect> {
    [Publish(RunningEvent(job, comp)), Save(RunningState(job, comp))]
  }

  /** What follows the results: completion, or the START and recovery of a panic. */
  function Closing(job: Job, comp: Option<Compilation>, ran: Ran): seq<Effect> {
    match ran.panic
    case None =>
      [Save(CompletedState(job, comp, ran.results)), Publish(CompletedEvent(job, comp, ran.results)), Cleanup]
    case Some(m) =>
      [Publish(StartEvent(job, |ran.results|)), Cleanup] + Recovery(job, m)
  }

  /** The test phase, given what the tests did. */
  function Phase(job: Job, comp: Option<Compilation>, ran: Ran): seq<Effect> {
    Overture(job, comp) + ResultEffects(job, ran.results) + Closing(job, comp, ran)
  }

  function RunAll(sb: Sandbox, req: Request, job: Job): Ran {
    RunTests(sb, req, Tests(job), |Tests(job)|)
  }

  function RunPhase(sb: Sandbox, job: Job, req: Request, comp: Option<Compilation>): seq<Effect> {
    Phase(job, comp, RunAll(sb, req, job))
  }

  function CompilePhase(sb: Sandbox, job: Job, req: Request): seq<Effect> {
    [Publish(Bare(Compiling))]
    + match sb.compile(WorkspaceOf(req))
      case CompilePanics(m) => [Cleanup] + Recovery(job, m)
      case CompileErrs(m, comp) => Failure(job, CompilationError, m, comp) + [Cleanup]
      case Compiled(None) => RunPhase(sb, job, req, None)
      case Compiled(Some(c)) =>
        if c.success then RunPhase(sb, job, req, Some(c))
        else Failure(job, CompilationError, c.stderr, Some(c)) + [Cleanup]
  }

  function UnsupportedText(language: string): string {
    "unsupported language: '" + language + "' (supported: cpp, python3)"
  }

  /** ProcessJob once the language and the backend are known. */
  function ProcessOn(sb: Sandbox, lang: Language, job: Job, req: Request): seq<Effect> {
    match sb.prepare(WorkspaceOf(req))
    case Panics(m) => Recovery(job, m)
    case Errs(m) => Failure(job, SystemError, "sandbox prepare failed: " + m, None)
    case Returns(context) =>
      var inner := InContext(sb, context);
      if lang.NeedsCompilation() then CompilePhase(inner, job, req) else RunPhase(inner, job, req, None)
  }

  /** Everything ProcessJob does to the store, the bus and the sandbox. */
  function Process(host: Host, job: Job): seq<Effect> {
    match GetLanguage(job.language)
    case None => Failure(job, SystemError, UnsupportedText(job.language), None)
    case Some(lang) =>
      match SelectSandbox(host, job.sandbox)
      case None => Failure(job, SystemError, SelectText(host, job.sandbox), None)
      case Some(b) => ProcessOn(host.backend(b), lang, job, Normalized(JobRequest(job), host.freshId))
  }

  function RunPanic(sb: Sandbox, job: Job, req: Request): Option<Panic> {
    RunAll(sb, req, job).panic
  }

  function CompilePanic(sb: Sandbox, job: Job, req: Request): Option<Panic> {
    match sb.compile(WorkspaceOf(req))
    case CompilePanics(m) => Some(m)
    case CompileErrs(_, _) => None
    case Compiled(c) => if c.Some? && !c.value.success then None else RunPanic(sb, job, req)
  }

  function PreparedPanic(sb: Sandbox, lang: Language, job: Job, req: Request): Option<Panic> {
    if lang.NeedsCompilation() then CompilePanic(sb, job, req) else RunPanic(sb, job, req)
  }

  /** The panic that ProcessJob recovers from, if any. */
  function PanicOf(host: Host, job: Job): Option<Panic> {
    match (GetLanguage(job.language), SelectSandbox(host, job.sandbox))
    case (Some(lang), Some(b)) =>
      var sb := host.backend(b);
      var req := Normalized(JobRequest(job), host.freshId);
      (match sb.prepare(WorkspaceOf(req))
       case Panics(m) => Some(m)
       case Errs(_) => None
       case Returns(context) => PreparedPanic(InContext(sb, context), lang, job, req))
    case _ => None
  }

  // ---- The imperative pipeline ------------------------------------------

  lemma PassedExtends(rs: seq<TestResult>, r: TestResult)
    ensures Passed(rs + [r]) == Passed(rs) + if r.verdict == Accepted then 1 else 0
  {
    assert PassedIndices(rs + [r])
        == PassedIndices(rs) + if r.verdict == Accepted then {|rs|} else {};
  }

  method FailSubmission(job: Job, verdict: Verdict, error: string, comp: Option<Compilation>)
    returns (log: seq<Effect>)
    ensures log == Failure(job, verdict, error, comp)
  {
    var total := |job.tests|;
    if total == 0 {
      total := 1;
    }
    var state := State(job.id, Failed, verdict, job.language, total, 0, [], comp, 0.0, 0.0, 0.0, error);
    log := [Save(state)];
    log := log + [Publish(Bare(Failed).(verdict := Some(verdict), compilation := comp, error := error))];
  }

  ghost predicate SameWorkspace(a: Request, b: Request) {
    a.(stdin := "", expected := "") == b.(stdin := "", expected := "")
  }

  /** One pass of the loop: set the test case on the shared request, execute,
      turn an error into SYSTEM_ERROR, mask a failed hidden test. */
  method RunTest(sb: Sandbox, request: ExecutionRequest, tests: seq<TestCase>, i: nat, ghost req: Request)
    returns (reply: Reply<TestResult>)
    requires i < |tests|
    requires SameWorkspace(request.Value(), req)
    modifies request
    ensures SameWorkspace(request.Value(), req)
    ensures match Executed(sb, req, tests, i)
            case Panics(m) => reply == Panics(m)
            case Returns(x) => reply == Returns(ResultItem(tests[i], i, x))
            case Errs(_) => false
  {
    request.SetTest(tests[i]);
    var snapshot := request.Snapshot();
    assert snapshot == req.(stdin := tests[i].input, expected := tests[i].expected);
    var x: Execution;
    match sb.execute(i, snapshot) {
      case Panics(m) => return Panics(m);
      case Errs(_) => x := SystemErrorExecution();
      case Returns(v) =>
        if v.None? {
          return Panics(NilPanic(sb));
        }
        x := v.value;
    }
    var out, err := x.stdout, x.stderr;
    if tests[i].hidden && x.verdict != Accepted {
      out, err := HIDDEN, HIDDEN;
    }
    reply := Returns(TestResult(tests[i].id, i + 1, x.verdict, x.exitCode, out, err,
                                x.wallMs, x.cpuMs, x.peakMB, x.oomKilled));
  }

  /** The totals the test loop accumulates. */
  datatype Totals = Totals(overall: Verdict, peak: real, wall: real, cpu: real, passed: nat)

  function TotalsOf(rs: seq<TestResult>): Totals {
    Totals(Overall(rs), Peak(rs), WallSum(rs), CpuSum(rs), Passed(rs))
  }

  function Extended(t: Totals, r: TestResult): Totals {
    Totals(if t.overall == Accepted then r.verdict else t.overall,
           if r.peakMB > t.peak then r.peakMB else t.peak,
           t.wall + r.wallMs,
           t.cpu + r.cpuMs,
           if r.verdict == Accepted then t.passed + 1 else t.passed)
  }

  lemma TotalsExtend(rs: seq<TestResult>, r: TestResult)
    ensures TotalsOf(rs + [r]) == Extended(TotalsOf(rs), r)
  {
    assert (rs + [r])[..|rs|] == rs;
    PassedExtends(rs, r);
  }

  method Accumulate(before: Totals, ghost rs: seq<TestResult>, r: TestResult) returns (t: Totals)
    requires before == TotalsOf(rs)
    ensures t == TotalsOf(rs + [r])
  {
    TotalsExtend(rs, r);
    t := before.(wall := before.wall + r.wallMs, cpu := before.cpu + r.cpuMs);
    if r.peakMB > t.peak {
      t := t.(peak := r.peakMB);
    }
    if r.verdict == Accepted {
      t := t.(passed := t.passed + 1);
    } else if t.overall == Accepted {
      t := t.(overall := r.verdict);
    }
  }

  lemma NoTotals()
    ensures TotalsOf([]) == Totals(Accepted, 0.0, 0.0, 0.0, 0)
  {
    assert PassedIndices([]) == {};
  }

  lemma ContinuedBy(sb: Sandbox, req: Request, ts: seq<TestCase>, i: nat, rs: seq<TestResult>)
    requires i < |ts| && RunTests(sb, req, ts, i) == Ran(rs, None) && Executed(sb, req, ts, i).Returns?
    ensures RunTests(sb, req, ts, i + 1) == Ran(rs + [ResultItem(ts[i], i, Executed(sb, req, ts, i).value)], None)
  {
    hide Executed, ResultItem;
  }

  lemma EffectsExtend(job: Job, rs: seq<TestResult>, r: TestResult)
    ensures ResultEffects(job, rs + [r])
         == ResultEffects(job, rs) + [Publish(StartEvent(job, |rs|)), Publish(ResultEvent(job, |rs|, r))]
  {
    hide StartEvent, ResultEvent;
    assert (rs + [r])[..|rs|] == rs;
  }

  lemma WorkspaceIsItself(req: Request)
    ensures SameWorkspace(req, req)
  {
  }

  lemma NothingRan(sb: Sandbox, req: Request, ts: seq<TestCase>, job: Job)
    ensures RunTests(sb, req, ts, 0) == Ran([], None) && ResultEffects(job, []) == []
  {
  }

  lemma StoppedBy(sb: Sandbox, req: Request, ts: seq<TestCase>, i: nat, n: nat, rs: seq<TestResult>, m: Panic)
    requires i < n <= |ts|
    requires RunTests(sb, req, ts, i) == Ran(rs, None)
    requires Executed(sb, req, ts, i) == Panics(m)
    ensures RunTests(sb, req, ts, n) == Ran(rs, Some(m))
  {
    hide Executed, ResultItem;
    if i + 1 < n {
      StoppedBy(sb, req, ts, i, n - 1, rs, m);
    }
  }

  /** The test loop: it stops at the first panic, after that test's START event. */
  method TestLoop(sb: Sandbox, job: Job, request: ExecutionRequest)
    returns (log: seq<Effect>, results: seq<TestResult>, totals: Totals, panic: Option<Panic>)
    modifies request
    ensures Ran(results, panic) == RunAll(sb, old(request.Value()), job)
    ensures log == ResultEffects(job, results)
                   + if panic.Some? then [Publish(StartEvent(job, |results|))] else []
    ensures totals == TotalsOf(results)
  {
    hide TotalsOf, RunTests, Executed, ResultItem, ResultEffects, Tests, SameWorkspace;
    ghost var req := request.Value();
    WorkspaceIsItself(req);
    var tests := Tests(job);
    var total := |tests|;
    log, results, totals, panic := [], [], Totals(Accepted, 0.0, 0.0, 0.0, 0), None;
    NoTotals();
    NothingRan(sb, req, tests, job);
    for i := 0 to total
      invariant SameWorkspace(request.Value(), req)
      invariant RunTests(sb, req, tests, i) == Ran(results, None) && |results| == i
      invariant log == ResultEffects(job, results)
      invariant totals == TotalsOf(results)
      invariant panic == None
    {
      ghost var before := log;
      log := log + [Publish(Bare(TestCaseStart).(current := i + 1, total := total))];
      var reply := RunTest(sb, request, tests, i, req);
      if reply.Panics? {
        StoppedBy(sb, req, tests, i, total, results, reply.panic);
        panic := Some(reply.panic);
        return;
      }
      var item := reply.value;
      ContinuedBy(sb, req, tests, i, results);
      totals := Accumulate(totals, results, item);
      var event := Event(TestCasePassed, i + 1, total, None, Some(item), None, item.wallMs, 0.0, item.peakMB, "");
      if item.verdict != Accepted {
        event := event.(status := TestCaseFailed, verdict := Some(item.verdict));
      }
      log := log + [Publish(event)];
      EffectsExtend(job, results, item);
      assert log == before + [Publish(StartEvent(job, i)), Publish(ResultEvent(job, i, item))];
      results := results + [item];
    }
    assert log + [] == log;
  }

  /** Phases 5 and 6 of ProcessJob, and the deferred recovery and clean-up. */
  method RunAndFinish(sb: Sandbox, job: Job, request: ExecutionRequest, comp: Option<Compilation>)
    returns (log: seq<Effect>, panic: Option<Panic>)
    modifies request
    ensures log == RunPhase(sb, job, old(request.Value()), comp)
    ensures panic == RunPanic(sb, job, old(request.Value()))
  {
    hide Overall, Peak, WallSum, CpuSum, Passed, ResultEffects, RunTests, Tests, PanicText;
    var total := |Tests(job)|;
    var running := Bare(Running).(total := total, compilation := comp);
    var state := State(job.id, Running, Accepted, job.language, total, 0, [], comp, 0.0, 0.0, 0.0, "");
    var tests, results, totals, p := TestLoop(sb, job, request);
    panic := p;
    log := [Publish(running), Save(state)] + tests;
    if panic.Some? {
      var recovery := FailSubmission(job, SystemError, PanicText(panic.value), None);
      log := log + ([Cleanup] + recovery);
    } else {
      state := State(job.id, Completed, totals.overall, job.language, total, totals.passed, results, comp,
                     totals.peak, totals.cpu, totals.wall, "");
      var done := Event(Completed, total, total, Some(totals.overall), None, comp,
                        totals.wall, totals.cpu, totals.peak, "");
      log := log + [Save(state), Publish(done), Cleanup];
    }
  }

  /** Phase 4 of ProcessJob and what follows it. */
  method CompileAndRun(sb: Sandbox, job: Job, request: ExecutionRequest)
    returns (log: seq<Effect>, panic: Option<Panic>)
    modifies request
    ensures log == CompilePhase(sb, job, old(request.Value()))
    ensures panic == CompilePanic(sb, job, old(request.Value()))
  {
    hide PanicText, RunPhase, RunPanic, WorkspaceOf;
    var req := request.Snapshot();
    panic := None;
    var rest;
    match sb.compile(WorkspaceOf(req)) {
      case CompilePanics(m) =>
        var recovery := FailSubmission(job, SystemError, PanicText(m), None);
        rest, panic := [Cleanup] + recovery, Some(m);
      case CompileErrs(m, c) =>
        var failure := FailSubmission(job, CompilationError, m, c);
        rest := failure + [Cleanup];
      case Compiled(c) =>
        if c.Some? && !c.value.success {
          var failure := FailSubmission(job, CompilationError, c.value.stderr, c);
          rest := failure + [Cleanup];
        } else {
          rest, panic := RunAndFinish(sb, job, request, c);
        }
    }
    log := [Publish(Bare(Compiling))] + rest;
  }

  method ProcessSome(host: Host, job: Job) returns (log: seq<Effect>, panic: Option<Panic>)
    ensures log == Process(host, job)
    ensures panic == PanicOf(host, job)
  {
    hide Normalized, GetLanguage, SelectSandbox, WorkspaceOf, InContext, CompilePhase, RunPhase, CompilePanic,
      RunPanic, SelectText, PanicText;
    panic := None;
    var lang := GetLanguage(job.language);
    if lang.None? {
      log := FailSubmission(job, SystemError, UnsupportedText(job.language), None);
      return;
    }
    var b := SelectSandbox(host, job.sandbox);
    if b.None? {
      log := FailSubmission(job, SystemError, SelectText(host, job.sandbox), None);
      return;
    }
    var sb := host.backend(b.value);
    var request := new ExecutionRequest(JobRequest(job));
    request.Normalize(host.freshId);
    var req := request.Snapshot();
    match sb.prepare(WorkspaceOf(req)) {
      case Panics(m) =>
        log := FailSubmission(job, SystemError, PanicText(m), None);
        panic := Some(m);
      case Errs(m) =>
        log := FailSubmission(job, SystemError, "sandbox prepare failed: " + m, None);
      case Returns(context) =>
        sb := InContext(sb, context);
        if lang.value.NeedsCompilation() {
          log, panic := CompileAndRun(sb, job, request);
        } else {
          log, panic := RunAndFinish(sb, job, request, None);
        }
    }
  }

  /** ProcessJob: its effects in order, and the panic whose value it returns as an
      error.  A nil job does nothing. */
  method ProcessJob(host: Host, submitted: Option<Job>) returns (log: seq<Effect>, panic: Option<Panic>)
    ensures submitted.None? ==> log == [] && panic == None
    ensures submitted.Some? ==> log == Process(host, submitted.value) && panic == PanicOf(host, submitted.value)
  {
    if submitted.None? {
      return [], None;
    }
    log, panic := ProcessSome(host, submitted.value);
  }
}
