/** The single-run pipeline of pkg/engine/engine.go and its agreement with
    ProcessJob. */
module Engine {
  import opened Models
  import opened Requests
  import opened Sandboxes
  import opened Worker
  import opened Traces
  import opened Outcomes

  /** What Run hands back: a result, neither a result nor an error, or a panic that
      leaves it, raised by the backend or by reading a nil compilation result. */
  datatype Outcome =
    | Judged(verdict: Verdict, exitCode: int, stdout: string, stderr: string, compilation: Option<Compilation>)
    | NoResult
    | Crashed(cause: Cause)

  datatype Call = PrepareCall | CompileCall | ExecuteCall | CleanupCall

  /** A run of the engine: its outcome, and the calls it made to the backend. */
  datatype Session = Session(outcome: Outcome, calls: seq<Call>)

  function Refused(v: Verdict, comp: Option<Compilation>): Outcome { Judged(v, 0, "", "", comp) }

  /** The backend Run settles on: the requested one, else the engine's own. */
  function ChooseBackend(host: Host, fallback: string, requested: string): Option<Backend> {
    var first := SelectSandbox(host, requested);
    if first.None? && fallback != "" then SelectSandbox(host, fallback) else first
  }

  function ExecuteOnce(sb: Sandbox, req: Request): Session {
    match sb.execute(0, req)
    case Panics(m) => Session(Crashed(m.cause), [ExecuteCall, CleanupCall])
    case Errs(_) => Session(Refused(SystemError, None), [ExecuteCall, CleanupCall])
    case Returns(None) => Session(NoResult, [ExecuteCall, CleanupCall])
    case Returns(Some(x)) =>
      Session(Judged(x.verdict, x.exitCode, x.stdout, x.stderr, None), [ExecuteCall, CleanupCall])
  }

  function CompileThenExecute(sb: Sandbox, req: Request): Session {
    match sb.compile(WorkspaceOf(req))
    case CompilePanics(m) => Session(Crashed(m.cause), [CompileCall, CleanupCall])
    case CompileErrs(_, comp) => Session(Refused(CompilationError, comp), [CompileCall, CleanupCall])
    case Compiled(None) => Session(Crashed(NilPointer), [CompileCall, CleanupCall])
    case Compiled(Some(c)) =>
      if c.success then
        var rest := ExecuteOnce(sb, req);
        Session(rest.outcome, [CompileCall] + rest.calls)
      else Session(Judged(CompilationError, c.exitCode, c.stdout, c.stderr, Some(c)), [CompileCall, CleanupCall])
  }

  function RunPrepared(sb: Sandbox, lang: Language, req: Request): Session {
    if lang.NeedsCompilation() then CompileThenExecute(sb, req) else ExecuteOnce(sb, req)
  }

  function RunOn(sb: Sandbox, lang: Language, req: Request): Session {
    match sb.prepare(WorkspaceOf(req))
    case Panics(m) => Session(Crashed(m.cause), [PrepareCall])
    case Errs(_) => Session(Refused(SystemError, None), [PrepareCall])
    case Returns(_) =>
      var rest := RunPrepared(sb, lang, req);
      Session(rest.outcome, [PrepareCall] + rest.calls)
  }

  /** The specification of Run. */
  function Run(host: Host, fallback: string, r: Request): Session {
    var req := Normalized(r, host.freshId);
    match (GetLanguage(req.language), ChooseBackend(host, fallback, req.sandbox))
    case (Some(lang), Some(b)) => RunOn(host.backend(b), lang, req)
    case _ => Session(Refused(SystemError, None), [])
  }

  method RunBackend(sb: Sandbox, lang: Language, req: Request) returns (outcome: Outcome, calls: seq<Call>)
    ensures Session(outcome, calls) == RunOn(sb, lang, req)
  {
    hide WorkspaceOf;
    calls := [PrepareCall];
    match sb.prepare(WorkspaceOf(req)) {
      case Panics(m) => return Crashed(m.cause), calls;
      case Errs(_) => return Refused(SystemError, None), calls;
      case Returns(_) =>
    }
    if lang.NeedsCompilation() {
      calls := calls + [CompileCall];
      match sb.compile(WorkspaceOf(req)) {
        case CompilePanics(m) => return Crashed(m.cause), calls + [CleanupCall];
        case CompileErrs(_, comp) => return Refused(CompilationError, comp), calls + [CleanupCall];
        case Compiled(comp) =>
          if comp.None? {
            return Crashed(NilPointer), calls + [CleanupCall];
          }
          var c := comp.value;
          if !c.success {
            return Judged(CompilationError, c.exitCode, c.stdout, c.stderr, comp), calls + [CleanupCall];
          }
      }
    }
    calls := calls + [ExecuteCall];
    match sb.execute(0, req) {
      case Panics(m) => outcome := Crashed(m.cause);
      case Errs(_) => outcome := Refused(SystemError, None);
      case Returns(result) =>
        if result.None? {
          outcome := NoResult;
        } else {
          var x := result.value;
          outcome := Judged(x.verdict, x.exitCode, x.stdout, x.stderr, None);
        }
    }
    calls := calls + [CleanupCall];
  }

  /** Engine.Run: normalises the caller's request in place; the deferred Cleanup
      runs on every way out once Prepare has succeeded, panics included. */
  method RunEngine(host: Host, fallback: string, request: ExecutionRequest)
    returns (outcome: Outcome, calls: seq<Call>)
    modifies request
    ensures request.Value() == Normalized(old(request.Value()), host.freshId)
    ensures Session(outcome, calls) == Run(host, fallback, old(request.Value()))
  {
    hide Normalized, GetLanguage, SelectSandbox, WorkspaceOf, ClampedLimits, DefaultedLimits, Canonical;
    calls := [];
    request.Normalize(host.freshId);
    var req := request.Snapshot();
    var lang := GetLanguage(req.language);
    if lang.None? {
      return Refused(SystemError, None), calls;
    }
    var choice := SelectSandbox(host, req.sandbox);
    if choice.None? && fallback != "" {
      choice := SelectSandbox(host, fallback);
    }
    if choice.None? {
      return Refused(SystemError, None), calls;
    }
    outcome, calls := RunBackend(host.backend(choice.value), lang.value, req);
  }

  // ---- Clean-up ----------------------------------------------------------

  function Cleanups(log: seq<Effect>): nat {
    if log == [] then 0 else Cleanups(log[..|log| - 1]) + if log[|log| - 1].Cleanup? then 1 else 0
  }

  lemma {:induction false} CleanupsConcat(a: seq<Effect>, b: seq<Effect>)
    ensures Cleanups(a + b) == Cleanups(a) + Cleanups(b)
  {
    if b == [] {
      assert a + b == a;
    } else {
      assert (a + b)[..|a + b| - 1] == a + b[..|b| - 1];
      CleanupsConcat(a, b[..|b| - 1]);
    }
  }

  lemma NoCleanups(log: seq<Effect>)
    requires forall e :: e in log ==> !e.Cleanup?
    ensures Cleanups(log) == 0
  {
  }

  lemma {:induction false} ResultsDoNotClean(job: Job, rs: seq<TestResult>)
    ensures forall e :: e in ResultEffects(job, rs) ==> !e.Cleanup?
  {
    if rs != [] {
      ResultsDoNotClean(job, rs[..|rs| - 1]);
    }
  }

  lemma CleanedBetween(a: seq<Effect>, b: seq<Effect>)
    requires forall e :: e in a || e in b ==> !e.Cleanup?
    ensures Cleanups(a + [Cleanup] + b) == 1
  {
    NoCleanups(a);
    NoCleanups(b);
    CleanupsConcat(a, [Cleanup]);
    CleanupsConcat(a + [Cleanup], b);
    assert [Cleanup][..0] == [];
  }

  lemma PhaseCleanups(a: seq<Effect>, b: seq<Effect>, job: Job, comp: Option<Compilation>, ran: Ran)
    requires forall e :: e in a || e in b ==> !e.Cleanup?
    ensures Cleanups(a + (b + Closing(job, comp, ran))) == 1
  {
    hide PanicText, CompletedState, CompletedEvent, StartEvent, FailedState, FailedEvent;
    var closing := Closing(job, comp, ran);
    var i := if ran.panic.None? then 2 else 1;
    assert a + (b + closing) == a + b + closing[..i] + [Cleanup] + closing[i + 1..];
    CleanedBetween(a + b + closing[..i], closing[i + 1..]);
  }

  lemma CourseCleanups(job: Job, c: Course, log: seq<Effect>)
    requires Follows(job, c, log)
    ensures Cleanups(log) == if c.Rejected? then 0 else 1
  {
    hide PanicText, FailedState, FailedEvent, RunningEvent, RunningState;
    var a := Announcement(job);
    match c {
      case Rejected(v, e) => NoCleanups(log);
      case CompilerPanic(m) =>
        CleanedBetween(a, Recovery(job, m));
        assert log == a + [Cleanup] + Recovery(job, m);
      case CompilerError(e, comp) =>
        var f := Failure(job, CompilationError, e, comp);
        CleanedBetween(a + f, []);
        assert log == a + f + [Cleanup] + [];
      case Tested(ran, comp) =>
        ResultsDoNotClean(job, ran.results);
        PhaseCleanups(a, Overture(job, comp) + ResultEffects(job, ran.results), job, comp, ran);
    }
  }

  function CleanupCalls(calls: seq<Call>): nat {
    if calls == [] then 0 else CleanupCalls(calls[1..]) + if calls[0].CleanupCall? then 1 else 0
  }

  /** The engine reaches Prepare, and it succeeds. */
  predicate EnginePrepared(host: Host, fallback: string, r: Request) {
    var req := Normalized(r, host.freshId);
    var b := ChooseBackend(host, fallback, req.sandbox);
    GetLanguage(req.language).Some? && b.Some? && host.backend(b.value).prepare(WorkspaceOf(req)).Returns?
  }

  /** Opened by Prepare and closed by the one Cleanup. */
  ghost predicate Bracketed(calls: seq<Call>) {
    && |calls| >= 2 && calls[0].PrepareCall? && calls[|calls| - 1].CleanupCall?
    && forall i :: 0 < i < |calls| - 1 ==> calls[i].CompileCall? || calls[i].ExecuteCall?
  }

  lemma {:induction false} NoCleanupCalls(calls: seq<Call>)
    requires forall i :: 0 <= i < |calls| ==> !calls[i].CleanupCall?
    ensures CleanupCalls(calls) == 0
  {
    if calls != [] {
      NoCleanupCalls(calls[1..]);
    }
  }

  lemma {:induction false} BracketsCleanOnce(calls: seq<Call>)
    requires calls != [] && calls[|calls| - 1].CleanupCall?
    requires forall i :: 0 <= i < |calls| - 1 ==> !calls[i].CleanupCall?
    ensures CleanupCalls(calls) == 1
  {
    if |calls| == 1 {
      NoCleanupCalls(calls[1..]);
    } else {
      BracketsCleanOnce(calls[1..]);
    }
  }

  /** Whatever fails or panics, the engine's calls are bracketed if Prepare
      succeeded, and without Cleanup otherwise. */
  lemma EngineCalls(sb: Sandbox, lang: Language, req: Request)
    ensures var calls := RunOn(sb, lang, req).calls;
            if sb.prepare(WorkspaceOf(req)).Returns? then Bracketed(calls) else calls == [PrepareCall]
  {
    hide WorkspaceOf;
  }

  /** Both pipelines call Cleanup exactly once if Prepare succeeded, else never,
      whatever fails or panics afterwards. */
  lemma CleanupOnceIffPrepared(host: Host, job: Job, fallback: string, r: Request)
    ensures Cleanups(Process(host, job)) == if Prepared(host, job) then 1 else 0
    ensures CleanupCalls(Run(host, fallback, r).calls) == if EnginePrepared(host, fallback, r) then 1 else 0
  {
    hide Process, Normalized, GetLanguage, SelectSandbox, WorkspaceOf, Prepared, RunOn, Cleanups, CleanupCalls,
      Follows;
    var c := CourseOf(host, job);
    CourseCleanups(job, c, Process(host, job));
    var req := Normalized(r, host.freshId);
    var lang, b := GetLanguage(req.language), ChooseBackend(host, fallback, req.sandbox);
    if lang.Some? && b.Some? {
      EngineCalls(host.backend(b.value), lang.value, req);
    }
    if EnginePrepared(host, fallback, r) {
      BracketsCleanOnce(Run(host, fallback, r).calls);
    } else {
      NoCleanupCalls(Run(host, fallback, r).calls);
    }
  }

  // ---- Agreement ---------------------------------------------------------

  /** The request as a job with one test case. */
  function JobOf(r: Request, testId: string, hidden: bool): Job {
    Job(r.id, r.language, r.code, r.limits, r.sandbox, [TestCase(testId, r.stdin, r.expected, hidden)])
  }

  /** The job as a worker receives it. */
  function Enqueued(r: Request, testId: string, hidden: bool): Job {
    NormalizedJob(JobOf(r, testId, hidden))
  }

  /** The worker executes exactly the request the engine executes. */
  lemma SameRequest(r: Request, testId: string, hidden: bool, freshId: string)
    ensures var job := Enqueued(r, testId, hidden);
            Normalized(JobRequest(job), freshId).(stdin := r.stdin, expected := r.expected) == Normalized(r, freshId)
  {
    JobThenRequest(JobOf(r, testId, hidden), freshId);
  }

  predicate Matches(o: Outcome, panic: Option<Panic>, verdict: Verdict) {
    match o
    case Judged(v, _, _, _, _) => panic.None? && verdict == v
    case NoResult => false
    case Crashed(c) => panic.Some? && panic.value.cause == c
  }

  /** The two pipelines agree on a request: a verdict is the verdict of the
      worker's record, reached without a panic; a panic that leaves Run is, by its
      value, the panic the worker recovers from; and Run does not come back
      empty-handed. */
  ghost predicate Agree(host: Host, fallback: string, r: Request, testId: string, hidden: bool) {
    var job := Enqueued(r, testId, hidden);
    Matches(Run(host, fallback, r).outcome, PanicOf(host, job), FinalState(host, job).verdict)
  }

  /** The engine does not fall back to a backend the worker would not use. */
  predicate NoFallback(host: Host, fallback: string, r: Request) {
    || GetLanguage(r.language).None?
    || SelectSandbox(host, DefaultedSandbox(r.sandbox)).Some?
    || ChooseBackend(host, fallback, DefaultedSandbox(r.sandbox)).None?
  }

  // ---- Nil ---------------------------------------------------------------

  /** Neither an error nor a failed compilation keeps the pipelines from Execute. */
  predicate Builds(sb: Sandbox, lang: Language, ws: Workspace) {
    lang.Cpp? ==> sb.compile(ws).Compiled? && (sb.compile(ws).result.Some? ==> sb.compile(ws).result.value.success)
  }

  predicate RaisesNil(reply: Reply<Option<Execution>>) { reply.Panics? && reply.panic.cause.NilPointer? }

  /** The worker ends in a nil dereference: of the context, of the result of
      Execute, or inside Execute. */
  predicate WorkerMeetsNil(sb: Sandbox, lang: Language, req: Request) {
    var ws, reply := WorkspaceOf(req), sb.execute(0, req);
    && sb.prepare(ws).Returns? && Builds(sb, lang, ws)
    && (sb.prepare(ws).value.Nil? || reply == Returns(None) || RaisesNil(reply))
  }

  /** The engine does: of the compilation result, or inside Execute. */
  predicate EngineMeetsNil(sb: Sandbox, lang: Language, req: Request) {
    var ws, reply := WorkspaceOf(req), sb.execute(0, req);
    && sb.prepare(ws).Returns? && Builds(sb, lang, ws)
    && ((lang.Cpp? && sb.compile(ws).result.None?) || RaisesNil(reply))
  }

  /** On the backend of the request, nil meets both pipelines or neither. */
  predicate NilMeetsAlike(host: Host, r: Request) {
    var lang, b := GetLanguage(r.language), SelectSandbox(host, DefaultedSandbox(r.sandbox));
    var req := Normalized(r, host.freshId);
    lang.Some? && b.Some? ==>
      (WorkerMeetsNil(host.backend(b.value), lang.value, req) <==>
        EngineMeetsNil(host.backend(b.value), lang.value, req))
  }

  // ---- One test ----------------------------------------------------------

  /** The answer the worker gets to its one test. */
  lemma OneTest(sb: Sandbox, job: Job, req: Request)
    requires |job.tests| == 1
    ensures var ran := RunAll(sb, req, job);
            match Executed(sb, req, job.tests, 0)
            case Panics(m) => ran == Ran([], Some(m))
            case Errs(_) => false
            case Returns(v) => ran.panic.None? && Overall(ran.results) == v.verdict
  {
    hide Executed, ResultItem;
    assert RunTests(sb, req, job.tests, 0) == Ran([], None);
    if Executed(sb, req, job.tests, 0).Returns? {
      ItemKeepsVerdict(job.tests[0], 0, Executed(sb, req, job.tests, 0).value);
    }
  }

  /** A prepared backend gives both pipelines the same answer exactly when nil
      meets both or neither. */
  lemma SameOnBackend(sb: Sandbox, lang: Language, job: Job, req: Request, x: Request)
    requires |job.tests| == 1 && sb.prepare(WorkspaceOf(req)).Returns?
    requires x == req.(stdin := job.tests[0].input, expected := job.tests[0].expected)
    ensures var inner := InContext(sb, sb.prepare(WorkspaceOf(req)).value);
            Matches(RunPrepared(sb, lang, x).outcome, PreparedPanic(inner, lang, job, req),
                    CourseState(job, PreparedCourse(inner, lang, job, req)).verdict)
            <==> (WorkerMeetsNil(sb, lang, x) <==> EngineMeetsNil(sb, lang, x))
  {
    hide RunAll, RunTests, Overall, Peak, WallSum, CpuSum, Passed, PanicText, Tests;
    OneTest(InContext(sb, sb.prepare(WorkspaceOf(req)).value), job, req);
  }

  lemma FinalVerdictOn(host: Host, job: Job, sb: Sandbox, lang: Language, req: Request)
    requires GetLanguage(job.language) == Some(lang)
    requires SelectSandbox(host, job.sandbox).Some? && sb == host.backend(SelectSandbox(host, job.sandbox).value)
    requires req == Normalized(JobRequest(job), host.freshId)
    ensures FinalState(host, job) == CourseState(job, CourseOn(sb, lang, job, req))
    ensures PanicOf(host, job) == (match sb.prepare(WorkspaceOf(req))
                                   case Panics(m) => Some(m)
                                   case Errs(_) => None
                                   case Returns(context) => PreparedPanic(InContext(sb, context), lang, job, req))
  {
    hide GetLanguage, SelectSandbox, Normalized, WorkspaceOf, CourseState, CourseOn, CompilePanic, RunPanic,
      ProcessOn, Follows, IsFinale, InContext;
    FollowsCourseOn(sb, lang, job, req);
    var k := CourseFinale(job, CourseOn(sb, lang, job, req), Process(host, job));
    CourseStateId(job, CourseOn(sb, lang, job, req));
    FinaleIsUnique(Process(host, job), k, Finale(host, job), job.id);
  }

  lemma UnpreparedVerdict(sb: Sandbox, lang: Language, job: Job, req: Request)
    requires !sb.prepare(WorkspaceOf(req)).Returns?
    ensures CourseState(job, CourseOn(sb, lang, job, req)).verdict == SystemError
  {
  }

  lemma FinalVerdictWithout(host: Host, job: Job)
    requires GetLanguage(job.language).None? || SelectSandbox(host, job.sandbox).None?
    ensures FinalState(host, job).verdict == SystemError && PanicOf(host, job).None?
  {
    hide GetLanguage, SelectSandbox, Normalized, Canonical;
    var c := FinalStateOf(host, job);
  }

  // ---- The exact condition ----------------------------------------------

  /** Both pipelines look up the same language, the same backend preference and
      the same workspace. */
  lemma SameLookups(host: Host, r: Request, testId: string, hidden: bool)
    ensures var job, req := Enqueued(r, testId, hidden), Normalized(r, host.freshId);
            && GetLanguage(job.language) == GetLanguage(req.language) == GetLanguage(r.language)
            && job.sandbox == req.sandbox == DefaultedSandbox(r.sandbox)
            && WorkspaceOf(Normalized(JobRequest(job), host.freshId)) == WorkspaceOf(req)
            && |job.tests| == 1 && job.tests[0].input == r.stdin && job.tests[0].expected == r.expected
  {
    hide GetLanguage;
    CanonicalIsFixed(r.language);
    SameRequest(r, testId, hidden, host.freshId);
  }

  /** On a host where the engine does not fall back, the two pipelines agree
      exactly when nil meets both or neither. */
  lemma AgreesUnlessNil(host: Host, fallback: string, r: Request, testId: string, hidden: bool)
    requires NoFallback(host, fallback, r)
    ensures Agree(host, fallback, r, testId, hidden) <==> NilMeetsAlike(host, r)
  {
    hide GetLanguage, SelectSandbox, Normalized, WorkspaceOf, PanicOf, FinalState, PreparedPanic, PreparedCourse,
      CourseState, RunPrepared, InContext, Builds, RaisesNil;
    var job := Enqueued(r, testId, hidden);
    var req := Normalized(JobRequest(job), host.freshId);
    SameRequest(r, testId, hidden, host.freshId);
    SameLookups(host, r, testId, hidden);
    if GetLanguage(r.language).Some? && SelectSandbox(host, job.sandbox).Some? {
      var sb := host.backend(SelectSandbox(host, job.sandbox).value);
      var lang := GetLanguage(job.language).value;
      FinalVerdictOn(host, job, sb, lang, req);
      if sb.prepare(WorkspaceOf(req)).Returns? {
        SameOnBackend(sb, lang, job, req, Normalized(r, host.freshId));
      } else {
        UnpreparedVerdict(sb, lang, job, req);
      }
    } else {
      FinalVerdictWithout(host, job);
    }
  }

  /** Where it does fall back the worker fails, so they agree exactly when the
      engine's own backend ends in SYSTEM_ERROR too. */
  lemma FallbackAgreesOnFailure(host: Host, fallback: string, r: Request, testId: string, hidden: bool)
    requires !NoFallback(host, fallback, r)
    ensures Agree(host, fallback, r, testId, hidden) <==>
              Run(host, fallback, r).outcome.Judged? && Run(host, fallback, r).outcome.verdict == SystemError
  {
    hide GetLanguage, SelectSandbox, Normalized, WorkspaceOf, PanicOf, FinalState, Run;
    SameLookups(host, r, testId, hidden);
    FinalVerdictWithout(host, Enqueued(r, testId, hidden));
  }

  // ---- Inputs that tell the pipelines apart ------------------------------

  /** A backend that never panics or errs, with the given answers. */
  function Lenient(context: Context, compilation: Option<Compilation>, result: Option<Execution>): Sandbox {
    Sandbox(ws => Returns(context), ws => Compiled(compilation), (i: nat, r) => Returns(result), "")
  }

  const COMPILED := Some(Compilation(true, 0, "", "", 0.0))

  function AcceptedRun(): Option<Execution> { Some(SystemErrorExecution().(verdict := Accepted)) }

  /** The host with that backend everywhere. */
  function LenientHost(host: Host, sb: Sandbox): Host { host.(backend := b => sb) }

  /** Whenever the engine falls back, some behaviour of the backends separates
      the two verdicts. */
  lemma FallbackDisagrees(host: Host, fallback: string, r: Request, testId: string, hidden: bool)
    requires !NoFallback(host, fallback, r)
    ensures !Agree(LenientHost(host, Lenient(Ready, COMPILED, AcceptedRun())), fallback, r, testId, hidden)
  {
    hide GetLanguage, Normalized, WorkspaceOf, PanicOf, FinalState, Agree;
    var h := LenientHost(host, Lenient(Ready, COMPILED, AcceptedRun()));
    SelectionIgnoresBehaviour(host, h, DefaultedSandbox(r.sandbox));
    SelectionIgnoresBehaviour(host, h, fallback);
    SameLookups(h, r, testId, hidden);
    FallbackAgreesOnFailure(h, fallback, r, testId, hidden);
    assert Run(h, fallback, r).outcome.verdict == Accepted;
  }

  /** What the two pipelines do on a lenient backend. */
  lemma OnLenient(host: Host, fallback: string, r: Request, testId: string, hidden: bool, sb: Sandbox)
    requires GetLanguage(r.language).Some? && SelectSandbox(host, DefaultedSandbox(r.sandbox)).Some?
    ensures var h, job := LenientHost(host, sb), Enqueued(r, testId, hidden);
            var lang, req := GetLanguage(r.language).value, Normalized(JobRequest(job), host.freshId);
            && Run(h, fallback, r).outcome == RunOn(sb, lang, Normalized(r, host.freshId)).outcome
            && FinalState(h, job) == CourseState(job, CourseOn(sb, lang, job, req))
  {
    hide GetLanguage, Normalized, WorkspaceOf, PanicOf, FinalState, SelectSandbox, CourseOn, CourseState, RunOn;
    var h, job := LenientHost(host, sb), Enqueued(r, testId, hidden);
    SelectionIgnoresBehaviour(host, h, DefaultedSandbox(r.sandbox));
    SameLookups(h, r, testId, hidden);
    FinalVerdictOn(h, job, sb, GetLanguage(r.language).value, Normalized(JobRequest(job), h.freshId));
  }

  /** Compile returns nil without an error: the worker completes the job as
      ACCEPTED, Run dereferences nil. */
  lemma NilCompilationDisagrees(host: Host, fallback: string, r: Request, testId: string, hidden: bool)
    requires GetLanguage(r.language) == Some(Cpp) && SelectSandbox(host, DefaultedSandbox(r.sandbox)).Some?
    ensures var h, job := LenientHost(host, Lenient(Ready, None, AcceptedRun())), Enqueued(r, testId, hidden);
            && Run(h, fallback, r).outcome == Crashed(NilPointer)
            && FinalState(h, job).status == Completed && FinalState(h, job).verdict == Accepted
  {
    hide GetLanguage, Normalized, WorkspaceOf, PanicOf, FinalState, SelectSandbox, Overall, Peak, WallSum, CpuSum,
      Passed, RunTests, Run;
    var sb, job := Lenient(Ready, None, AcceptedRun()), Enqueued(r, testId, hidden);
    OnLenient(host, fallback, r, testId, hidden, sb);
    OneTest(sb, job, Normalized(JobRequest(job), host.freshId));
  }

  /** Execute returns nil without an error: the worker records a recovered panic as
      SYSTEM_ERROR, Run hands back neither a result nor an error. */
  lemma NilExecutionDisagrees(host: Host, fallback: string, r: Request, testId: string, hidden: bool)
    requires GetLanguage(r.language).Some? && SelectSandbox(host, DefaultedSandbox(r.sandbox)).Some?
    ensures var h, job := LenientHost(host, Lenient(Ready, COMPILED, None)), Enqueued(r, testId, hidden);
            && Run(h, fallback, r).outcome == NoResult
            && FinalState(h, job).status == Failed && FinalState(h, job).verdict == SystemError
  {
    hide GetLanguage, Normalized, WorkspaceOf, PanicOf, FinalState, SelectSandbox, Overall, Peak, WallSum, CpuSum,
      Passed, RunTests, Run;
    var sb, job := Lenient(Ready, COMPILED, None), Enqueued(r, testId, hidden);
    OnLenient(host, fallback, r, testId, hidden, sb);
    OneTest(sb, job, Normalized(JobRequest(job), host.freshId));
  }

  /** Prepare returns a nil context without an error: the worker records a recovered
      panic as SYSTEM_ERROR, Run passes the context on and judges the run. */
  lemma NilContextDisagrees(host: Host, fallback: string, r: Request, testId: string, hidden: bool)
    requires GetLanguage(r.language).Some? && SelectSandbox(host, DefaultedSandbox(r.sandbox)).Some?
    ensures var h, job := LenientHost(host, Lenient(Nil, COMPILED, AcceptedRun())), Enqueued(r, testId, hidden);
            && Run(h, fallback, r).outcome.Judged? && Run(h, fallback, r).outcome.verdict == Accepted
            && FinalState(h, job).status == Failed && FinalState(h, job).verdict == SystemError
  {
    hide GetLanguage, Normalized, WorkspaceOf, PanicOf, FinalState, SelectSandbox, Overall, Peak, WallSum, CpuSum,
      Passed, RunTests, Run;
    var sb, job := Lenient(Nil, COMPILED, AcceptedRun()), Enqueued(r, testId, hidden);
    OnLenient(host, fallback, r, testId, hidden, sb);
    OneTest(InContext(sb, Nil), job, Normalized(JobRequest(job), host.freshId));
  }

  lemma NothingNil(host: Host, r: Request)
    ensures NilMeetsAlike(LenientHost(host, Lenient(Ready, COMPILED, AcceptedRun())), r)
  {
    hide GetLanguage, SelectSandbox, Normalized;
  }

  /** Exactly when nil is all that can come between the two, whatever the backends
      do: unless the requested backend cannot be selected and the engine's own can. */
  lemma AgreementIsExact(host: Host, fallback: string, r: Request, testId: string, hidden: bool)
    ensures NoFallback(host, fallback, r)
       <==> forall backend ::
              var h := host.(backend := backend);
              Agree(h, fallback, r, testId, hidden) <==> NilMeetsAlike(h, r)
  {
    hide Agree, NilMeetsAlike, GetLanguage;
    if NoFallback(host, fallback, r) {
      forall backend ensures var h := host.(backend := backend);
                             Agree(h, fallback, r, testId, hidden) <==> NilMeetsAlike(h, r)
      {
        var h := host.(backend := backend);
        SelectionIgnoresBehaviour(host, h, DefaultedSandbox(r.sandbox));
        SelectionIgnoresBehaviour(host, h, fallback);
        AgreesUnlessNil(h, fallback, r, testId, hidden);
      }
    } else {
      var h := LenientHost(host, Lenient(Ready, COMPILED, AcceptedRun()));
      FallbackDisagrees(host, fallback, r, testId, hidden);
      NothingNil(host, r);
      assert h == host.(backend := h.backend);
    }
  }
}
