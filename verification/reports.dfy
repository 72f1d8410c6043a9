/** What the records, the events and the engine's result say about the executions
    behind them, field by field, for every host. */
module Reports {
  import opened Models
  import opened Requests
  import opened Sandboxes
  import opened Worker
  import opened Traces
  import opened Outcomes
  import Engine

  // ---- What a backend is asked ------------------------------------------

  /** The limits a backend is given for the limits asked for. */
  function Allowance(l: Limits): Limits {
    Limits(if l.timeMs <= 0 then 2000 else if l.timeMs > 10000 then 10000 else l.timeMs,
           if l.memoryMB <= 0 then 128 else if l.memoryMB > 1024 then 1024 else l.memoryMB,
           if l.cpuQuota <= 0.0 then 1.0 else l.cpuQuota,
           if l.pids <= 0 then 32 else l.pids,
           if l.outputBytes <= 0 then 1048576 else l.outputBytes)
  }

  /** The tests of a job; without any it is executed once, on no input. */
  function TestsOf(job: Job): seq<TestCase> {
    if |job.tests| > 0 then job.tests else [TestCase("tc-default", "", "", false)]
  }

  /** The request a backend gets for a test of a job. */
  function Asked(host: Host, job: Job, t: TestCase): Request {
    Request(if job.id == "" then host.freshId else job.id, Canonical(job.language), job.code, t.input, t.expected,
            Allowance(job.limits), if job.sandbox == "" then "auto" else job.sandbox)
  }

  function WorkspaceFor(host: Host, job: Job): Workspace { WorkspaceOf(Asked(host, job, TestCase("", "", "", false))) }

  /** The answer to the i-th test. */
  function Answer(host: Host, job: Job, sb: Sandbox, i: nat): Reply<Option<Execution>>
    requires i < |TestsOf(job)|
  {
    sb.execute(i, Asked(host, job, TestsOf(job)[i]))
  }

  lemma TestsAre(job: Job)
    ensures Tests(job) == TestsOf(job)
  {
  }

  lemma AskedIsNormalized(host: Host, job: Job, t: TestCase)
    ensures Normalized(JobRequest(job), host.freshId).(stdin := t.input, expected := t.expected) == Asked(host, job, t)
    ensures WorkspaceOf(Normalized(JobRequest(job), host.freshId)) == WorkspaceFor(host, job)
  {
    hide Canonical;
  }

  // ---- Result items ------------------------------------------------------

  /** The item reports the answer to its test, each figure and each output in its own
      field; of a hidden test that was not accepted it keeps the output back. */
  ghost predicate Shows(r: TestResult, i: nat, t: TestCase, answer: Reply<Option<Execution>>) {
    && r.testId == t.id && r.index == i + 1
    && match answer
       case Returns(Some(x)) =>
         && r.verdict == x.verdict && r.exitCode == x.exitCode && r.oomKilled == x.oomKilled
         && r.wallMs == x.wallMs && r.cpuMs == x.cpuMs && r.peakMB == x.peakMB
         && (if t.hidden && x.verdict != Accepted
             then r.stdout == r.stderr == "[Hidden Testcase]"
             else r.stdout == x.stdout && r.stderr == x.stderr)
       case Errs(_) =>
         && r.verdict == SystemError && r.exitCode == 0 && !r.oomKilled
         && r.wallMs == 0.0 && r.cpuMs == 0.0 && r.peakMB == 0.0
         && r.stdout == r.stderr == if t.hidden then "[Hidden Testcase]" else ""
       case _ => false
  }

  /** The answer lets the test loop go on. */
  predicate Usable(answer: Reply<Option<Execution>>) { !answer.Panics? && answer != Returns(None) }

  lemma {:induction false} ItemsAreAnswers(sb: Sandbox, req: Request, ts: seq<TestCase>, n: nat, i: nat)
    requires n <= |ts| && i < |RunTests(sb, req, ts, n).results|
    ensures Executed(sb, req, ts, i).Returns?
    ensures RunTests(sb, req, ts, n).results[i] == ResultItem(ts[i], i, Executed(sb, req, ts, i).value)
  {
    hide Executed, ResultItem;
    if i < |RunTests(sb, req, ts, n - 1).results| {
      ItemsAreAnswers(sb, req, ts, n - 1, i);
    }
  }

  lemma {:induction false} StoppedAtPanic(sb: Sandbox, req: Request, ts: seq<TestCase>, n: nat)
    requires n <= |ts| && RunTests(sb, req, ts, n).panic.Some?
    ensures var ran := RunTests(sb, req, ts, n);
            |ran.results| < n && Executed(sb, req, ts, |ran.results|) == Panics(ran.panic.value)
  {
    hide Executed, ResultItem;
    if RunTests(sb, req, ts, n - 1).panic.Some? {
      StoppedAtPanic(sb, req, ts, n - 1);
    }
  }

  /** The panic that ends the test loop: on a nil context, on a nil result, or the
      backend's. */
  function PanicAt(sb: Sandbox, context: Context, answer: Reply<Option<Execution>>): Panic {
    if context.Ready? && answer.Panics? then answer.panic else Panic(NilPointer, sb.trace)
  }

  /** One test as the worker runs it, against the backend's own answer. */
  lemma TestOnBackend(host: Host, job: Job, sb: Sandbox, context: Context, i: nat)
    requires i < |TestsOf(job)|
    ensures var req, answer := Normalized(JobRequest(job), host.freshId), Answer(host, job, sb, i);
            match Executed(InContext(sb, context), req, Tests(job), i)
            case Panics(p) => p == PanicAt(sb, context, answer) && !(context.Ready? && Usable(answer))
            case Returns(x) =>
              context.Ready? && Usable(answer) && Shows(ResultItem(Tests(job)[i], i, x), i, TestsOf(job)[i], answer)
            case Errs(_) => false
  {
    hide Normalized, Asked;
    TestsAre(job);
    AskedIsNormalized(host, job, TestsOf(job)[i]);
  }

  // ---- When a job completes ----------------------------------------------

  /** What the compiler handed back. */
  function Built(sb: Sandbox, lang: Language, ws: Workspace): Option<Compilation> {
    if lang.Cpp? && sb.compile(ws).Compiled? then sb.compile(ws).result else None
  }

  /** The backend that runs the job. */
  function Chosen(host: Host, job: Job): (sb: Sandbox)
    requires SelectSandbox(host, job.sandbox).Some?
  {
    host.backend(SelectSandbox(host, job.sandbox).value)
  }

  /** Language and backend are found, and the tests are reached. */
  predicate Reaches(host: Host, job: Job) {
    && GetLanguage(job.language).Some? && SelectSandbox(host, job.sandbox).Some?
    && Chosen(host, job).prepare(WorkspaceFor(host, job)).Returns?
    && Engine.Builds(Chosen(host, job), GetLanguage(job.language).value, WorkspaceFor(host, job))
  }

  lemma Found(host: Host, job: Job)
    requires Reaches(host, job)
    ensures GetLanguage(job.language).Some? && SelectSandbox(host, job.sandbox).Some?
  {
    hide GetLanguage, SelectSandbox, WorkspaceFor;
  }

  function ContextOf(host: Host, job: Job): Context
    requires Reaches(host, job)
  {
    Chosen(host, job).prepare(WorkspaceFor(host, job)).value
  }

  lemma InnerCompiles(sb: Sandbox, context: Context)
    ensures InContext(sb, context).compile == sb.compile
  {
  }

  /** The course of a job that reaches its tests. */
  lemma TestedCourse(host: Host, job: Job) returns (ran: Ran)
    requires Reaches(host, job)
    ensures ran == RunAll(InContext(Chosen(host, job), ContextOf(host, job)), Normalized(JobRequest(job), host.freshId),
                          job)
    ensures var comp := Built(Chosen(host, job), GetLanguage(job.language).value, WorkspaceFor(host, job));
            && FinalState(host, job) == CourseState(job, Tested(ran, comp))
            && Follows(job, Tested(ran, comp), Process(host, job))
  {
    hide RunAll, CourseState, FinalState, Normalized, Asked, GetLanguage, SelectSandbox, ProcessOn, Follows,
      InContext, PanicOf, WorkspaceOf;
    var sb, lang, req := Chosen(host, job), GetLanguage(job.language).value, Normalized(JobRequest(job), host.freshId);
    ran := RunAll(InContext(sb, ContextOf(host, job)), req, job);
    AskedIsNormalized(host, job, TestCase("", "", "", false));
    Engine.FinalVerdictOn(host, job, sb, lang, req);
    FollowsCourseOn(sb, lang, job, req);
    InnerCompiles(sb, ContextOf(host, job));
  }

  /** Every test of the job was answered. */
  ghost predicate AllAnswered(host: Host, job: Job, sb: Sandbox) {
    forall i :: 0 <= i < |TestsOf(job)| ==> Usable(Answer(host, job, sb, i))
  }

  lemma SomeTest(job: Job)
    ensures |TestsOf(job)| > 0
  {
  }

  lemma RanToTheEnd(host: Host, job: Job, ran: Ran)
    requires Reaches(host, job)
    requires ran == RunAll(InContext(Chosen(host, job), ContextOf(host, job)),
      Normalized(JobRequest(job), host.freshId), job)
    ensures ran.panic.None? <==> ContextOf(host, job).Ready? && AllAnswered(host, job, Chosen(host, job))
    ensures forall i :: 0 <= i < |ran.results| ==>
              Shows(ran.results[i], i, TestsOf(job)[i], Answer(host, job, Chosen(host, job), i))
    ensures ran.panic.Some? ==>
              var k := |ran.results|;
              && k < |TestsOf(job)| && (forall i :: 0 <= i < k ==> Usable(Answer(host, job, Chosen(host, job), i)))
              && ran.panic.value == PanicAt(Chosen(host, job), ContextOf(host, job),
                Answer(host, job, Chosen(host, job), k))
  {
    hide Reaches, InContext, Normalized, Executed, ResultItem, Answer, Tests, TestsOf, Shows, ContextOf, Chosen,
      RunTests, Usable, PanicAt;
    Found(host, job);
    var sb, context, req := Chosen(host, job), ContextOf(host, job), Normalized(JobRequest(job), host.freshId);
    var inner, ts := InContext(sb, context), Tests(job);
    TestsAre(job);
    SomeTest(job);
    forall i | 0 <= i < |ran.results|
      ensures context.Ready? && Usable(Answer(host, job, sb, i))
      ensures Shows(ran.results[i], i, TestsOf(job)[i], Answer(host, job, sb, i))
    {
      ItemsAreAnswers(inner, req, ts, |ts|, i);
      TestOnBackend(host, job, sb, context, i);
    }
    if ran.panic.None? {
      var first := ran.results[0];
      assert context.Ready?;
      forall i | 0 <= i < |TestsOf(job)| ensures Usable(Answer(host, job, sb, i)) {
        var item := ran.results[i];
      }
    } else {
      StoppedAtPanic(inner, req, ts, |ts|);
      TestOnBackend(host, job, sb, context, |ran.results|);
    }
  }

  /** The text of a recovered panic. */
  function RecoveredText(p: Panic): string {
    var value := if p.cause.NilPointer? then "runtime error: invalid memory address or nil pointer dereference"
                 else p.cause.value;
    "panic recovered in worker: " + value + "\n" + p.stack
  }

  /** The verdict, the error text and the compilation of a failed job. */
  datatype Blame = Blame(verdict: Verdict, error: string, compilation: Option<Compilation>)

  function BlameOf(s: State): Blame { Blame(s.verdict, s.error, s.compilation) }

  /** Why a job does not reach its tests. */
  function EarlyBlame(host: Host, job: Job): Blame
    requires !Reaches(host, job)
  {
    if GetLanguage(job.language).None? then
      Blame(SystemError, "unsupported language: '" + job.language + "' (supported: cpp, python3)", None)
    else if SelectSandbox(host, job.sandbox).None? then Blame(SystemError, SelectText(host, job.sandbox), None)
    else
      var sb, ws := Chosen(host, job), WorkspaceFor(host, job);
      match sb.prepare(ws)
      case Panics(p) => Blame(SystemError, RecoveredText(p), None)
      case Errs(m) => Blame(SystemError, "sandbox prepare failed: " + m, None)
      case Returns(_) =>
        match sb.compile(ws)
        case CompilePanics(p) => Blame(SystemError, RecoveredText(p), None)
        case CompileErrs(m, partial) => Blame(CompilationError, m, partial)
        case Compiled(c) => Blame(CompilationError, c.value.stderr, c)
  }

  lemma RecoveredTextIs(p: Panic)
    ensures PanicText(p) == RecoveredText(p)
  {
  }

  lemma UnreachedOn(host: Host, job: Job, sb: Sandbox, lang: Language, req: Request)
    requires !Reaches(host, job) && GetLanguage(job.language) == Some(lang) && SelectSandbox(host, job.sandbox).Some?
    requires sb == Chosen(host, job) && WorkspaceOf(req) == WorkspaceFor(host, job)
    ensures var s := CourseState(job, CourseOn(sb, lang, job, req));
            s.status == Failed && BlameOf(s) == EarlyBlame(host, job) && !CourseOn(sb, lang, job, req).Tested?
  {
    hide RunAll, PanicText, RecoveredText, GetLanguage, SelectSandbox, SelectText, WorkspaceOf, WorkspaceFor;
    var ws := WorkspaceOf(req);
    if sb.prepare(ws).Panics? {
      RecoveredTextIs(sb.prepare(ws).panic);
    } else if sb.prepare(ws).Returns? {
      InnerCompiles(sb, sb.prepare(ws).value);
      if sb.compile(ws).CompilePanics? {
        RecoveredTextIs(sb.compile(ws).panic);
      }
    }
  }

  lemma FinalAt(host: Host, job: Job, c: Course)
    requires Follows(job, c, Process(host, job))
    ensures FinalState(host, job) == CourseState(job, c)
  {
    hide Process, IsFinale, Follows, CourseState;
    var k := CourseFinale(job, c, Process(host, job));
    CourseStateId(job, c);
    FinaleIsUnique(Process(host, job), k, Finale(host, job), job.id);
  }

  /** The course of a job that does not reach its tests. */
  lemma EarlyCourse(host: Host, job: Job) returns (c: Course)
    requires !Reaches(host, job)
    ensures !c.Tested? && Follows(job, c, Process(host, job)) && FinalState(host, job) == CourseState(job, c)
    ensures FinalState(host, job).status == Failed && BlameOf(FinalState(host, job)) == EarlyBlame(host, job)
  {
    hide FinalState, Normalized, RunAll, PanicText, RecoveredText, PanicOf, GetLanguage, SelectSandbox, InContext,
      Asked, SelectText, WorkspaceOf, ProcessOn, CourseOn;
    if GetLanguage(job.language).None? {
      c := Rejected(SystemError, UnsupportedText(job.language));
    } else if SelectSandbox(host, job.sandbox).None? {
      c := Rejected(SystemError, SelectText(host, job.sandbox));
    } else {
      var sb, lang, req := Chosen(host, job), GetLanguage(job.language).value,
        Normalized(JobRequest(job), host.freshId);
      AskedIsNormalized(host, job, TestCase("", "", "", false));
      FollowsCourseOn(sb, lang, job, req);
      UnreachedOn(host, job, sb, lang, req);
      c := CourseOn(sb, lang, job, req);
    }
    FinalAt(host, job, c);
  }

  /** A job completes exactly if language and backend are found, Prepare succeeds with
      a context, the compiler lets it go on, and every test is answered. */
  lemma CompletedExactly(host: Host, job: Job)
    ensures FinalState(host, job).status == Completed <==>
              Reaches(host, job) && ContextOf(host, job).Ready? && AllAnswered(host, job, Chosen(host, job))
  {
    hide FinalState, RunAll, AllAnswered, Reaches, ContextOf, Chosen, Normalized, PanicText, Overall, Peak, WallSum,
      CpuSum, Passed, Follows;
    if Reaches(host, job) {
      var ran := TestedCourse(host, job);
      RanToTheEnd(host, job, ran);
    } else {
      var c := EarlyCourse(host, job);
    }
  }

  /** A COMPLETED record reports every test: item i shows the backend's answer to the
      i-th test, asked with that test's input and expected output. */
  lemma RecordShowsAnswers(host: Host, job: Job, i: nat)
    requires FinalState(host, job).status == Completed && i < |TestsOf(job)|
    ensures SelectSandbox(host, job.sandbox).Some? && |FinalState(host, job).results| == |TestsOf(job)|
    ensures Shows(FinalState(host, job).results[i], i, TestsOf(job)[i], Answer(host, job, Chosen(host, job), i))
  {
    hide FinalState, RunAll, AllAnswered, ContextOf, Normalized, PanicText, Overall, Peak, WallSum, CpuSum, Passed,
      Shows, Answer, TestsOf, Tests, Engine.Builds, WorkspaceFor;
    CompletedExactly(host, job);
    TestsAre(job);
    var ran := TestedCourse(host, job);
    RanToTheEnd(host, job, ran);
  }

  /** The rest of a COMPLETED record. */
  lemma CompletedSays(host: Host, job: Job)
    requires FinalState(host, job).status == Completed
    ensures Reaches(host, job)
    ensures var s := FinalState(host, job);
            && s.id == job.id && s.language == job.language && s.error == "" && s.total == |TestsOf(job)|
            && s.compilation == Built(Chosen(host, job), GetLanguage(job.language).value, WorkspaceFor(host, job))
  {
    hide FinalState, RunAll, AllAnswered, Reaches, ContextOf, Chosen, Normalized, PanicText, Overall, Peak, WallSum,
      CpuSum, Passed, TestsOf, Tests, Built, Follows;
    CompletedExactly(host, job);
    TestsAre(job);
    var ran := TestedCourse(host, job);
  }

  // ---- When a job fails --------------------------------------------------

  /** Test k is the first that is not answered, or the first of all on a nil context. */
  ghost predicate FailsAt(host: Host, job: Job, k: nat, blame: Blame)
    requires Reaches(host, job)
  {
    && k < |TestsOf(job)| && (forall i :: 0 <= i < k ==> Usable(Answer(host, job, Chosen(host, job), i)))
    && blame == Blame(SystemError,
                      RecoveredText(PanicAt(Chosen(host, job), ContextOf(host, job),
                        Answer(host, job, Chosen(host, job), k))),
                      None)
  }

  lemma FailedFields(job: Job, c: Course)
    requires CourseState(job, c).status == Failed
    ensures var s := CourseState(job, c);
            && s.id == job.id && s.language == job.language && s.total == |Tests(job)|
            && s.passed == 0 && s.results == [] && s.wallMs == 0.0 && s.cpuMs == 0.0 && s.peakMB == 0.0
  {
    hide PanicText, Tests, Overall, Peak, WallSum, CpuSum, Passed;
  }

  lemma TestedBlame(host: Host, job: Job)
    requires Reaches(host, job) && FinalState(host, job).status == Failed
    ensures exists k :: FailsAt(host, job, k, BlameOf(FinalState(host, job)))
  {
    hide FinalState, RunAll, AllAnswered, Reaches, ContextOf, Chosen, Normalized, PanicText, RecoveredText, Overall,
      Peak, WallSum, CpuSum, Passed, Follows, TestsOf, Tests;
    var ran := TestedCourse(host, job);
    RanToTheEnd(host, job, ran);
    RecoveredTextIs(ran.panic.value);
    assert FailsAt(host, job, |ran.results|, BlameOf(FinalState(host, job)));
  }

  /** A FAILED record says why: what kept the job from its tests, or the panic at the
      first test that was not answered. */
  lemma FailedSays(host: Host, job: Job)
    requires FinalState(host, job).status == Failed
    ensures var s := FinalState(host, job);
            && s.id == job.id && s.language == job.language && s.total == |TestsOf(job)|
            && s.passed == 0 && s.results == [] && s.wallMs == 0.0 && s.cpuMs == 0.0 && s.peakMB == 0.0
    ensures !Reaches(host, job) ==> BlameOf(FinalState(host, job)) == EarlyBlame(host, job)
    ensures Reaches(host, job) ==> exists k :: FailsAt(host, job, k, BlameOf(FinalState(host, job)))
  {
    hide FinalState, RunAll, Reaches, ContextOf, Chosen, Normalized, CourseState, Follows, TestsOf, Tests,
      EarlyBlame, RecoveredText, FailsAt, BlameOf;
    TestsAre(job);
    var c := FinalStateOf(host, job);
    FailedFields(job, c);
    if Reaches(host, job) {
      TestedBlame(host, job);
    } else {
      c := EarlyCourse(host, job);
    }
  }

  // ---- Events ------------------------------------------------------------

  /** The event of a test carries the item of that very test, and its figures. */
  ghost predicate SaysResult(host: Host, job: Job, e: Event) {
    && 1 <= e.current <= |TestsOf(job)| == e.total && e.result.Some? && SelectSandbox(host, job.sandbox).Some?
    && Shows(e.result.value, e.current - 1, TestsOf(job)[e.current - 1],
             Answer(host, job, Chosen(host, job), e.current - 1))
    && e.wallMs == e.result.value.wallMs && e.peakMB == e.result.value.peakMB
    && e.cpuMs == 0.0 && e.compilation == None && e.error == ""
  }

  /** Every event a worker publishes, in full. */
  ghost predicate Says(host: Host, job: Job, e: Event) {
    var n, s := |TestsOf(job)|, FinalState(host, job);
    match e.status
    case Queued => false
    case Compiling => e == Event(Compiling, 0, 0, None, None, None, 0.0, 0.0, 0.0, "")
    case Running =>
      && Reaches(host, job)
      && e == Event(Running, 0, n, None, None,
                    Built(Chosen(host, job), GetLanguage(job.language).value, WorkspaceFor(host, job)), 0.0,
                      0.0, 0.0, "")
    case TestCaseStart =>
      1 <= e.current <= n && e == Event(TestCaseStart, e.current, n, None, None, None, 0.0, 0.0, 0.0, "")
    case TestCasePassed => SaysResult(host, job, e) && e.result.value.verdict == Accepted && e.verdict == None
    case TestCaseFailed =>
      SaysResult(host, job, e) && e.result.value.verdict != Accepted && e.verdict == Some(e.result.value.verdict)
    case Completed =>
      e == Event(Completed, s.total, s.total, Some(s.verdict), None, s.compilation, s.wallMs, s.cpuMs, s.peakMB, "")
    case Failed => e == Event(Failed, 0, 0, Some(s.verdict), None, s.compilation, 0.0, 0.0, 0.0, s.error)
  }

  lemma {:induction false} RoundEvents(job: Job, rs: seq<TestResult>, e: Event)
    requires e in Events(ResultEffects(job, rs))
    ensures exists i :: 0 <= i < |rs| && (e == StartEvent(job, i) || e == ResultEvent(job, i, rs[i]))
  {
    hide StartEvent, ResultEvent, Events;
    if rs == [] {
      NoMarks();
    } else {
      var n := |rs| - 1;
      var before := rs[..n];
      RoundsExtend(job, before, rs[n]);
      assert before + [rs[n]] == rs;
      if e in Events(ResultEffects(job, before)) {
        RoundEvents(job, before, e);
        var i :| 0 <= i < n && (e == StartEvent(job, i) || e == ResultEvent(job, i, before[i]));
        assert before[i] == rs[i];
      }
    }
  }

  lemma RoundSays(host: Host, job: Job, e: Event, i: nat, r: TestResult)
    requires Reaches(host, job) && i < |TestsOf(job)|
    requires Shows(r, i, TestsOf(job)[i], Answer(host, job, Chosen(host, job), i))
    requires e == StartEvent(job, i) || e == ResultEvent(job, i, r)
    ensures Says(host, job, e)
  {
    hide Shows, Answer, Asked, FinalState, GetLanguage, SelectSandbox, TestsOf, Tests, WorkspaceFor;
    TestsAre(job);
  }

  lemma NoMoreSays(host: Host, job: Job, k: nat)
    requires k < |TestsOf(job)|
    ensures Says(host, job, StartEvent(job, k))
  {
    hide Shows, Answer, Asked, FinalState, GetLanguage, SelectSandbox, TestsOf, Tests, WorkspaceFor, Reaches;
    TestsAre(job);
  }

  lemma CompilingSays(host: Host, job: Job)
    ensures Says(host, job, Bare(Compiling))
  {
    hide FinalState, Reaches, TestsOf;
  }

  lemma RunningSays(host: Host, job: Job, comp: Option<Compilation>)
    requires Reaches(host, job)
    requires comp == Built(Chosen(host, job), GetLanguage(job.language).value, WorkspaceFor(host, job))
    ensures Says(host, job, RunningEvent(job, comp))
  {
    hide FinalState, TestsOf, Tests, GetLanguage, SelectSandbox, WorkspaceFor, Built;
    TestsAre(job);
  }

  lemma ClosingSays(host: Host, job: Job, ran: Ran, comp: Option<Compilation>, e: Event)
    requires FinalState(host, job) == CourseState(job, Tested(ran, comp))
    requires e in ClosingEvents(job, comp, ran) && (ran.panic.Some? ==> |ran.results| < |TestsOf(job)|)
    ensures Says(host, job, e)
  {
    hide FinalState, TestsOf, Tests, Reaches, PanicText, Overall, Peak, WallSum, CpuSum, Passed, StartEvent;
    TestsAre(job);
    if ran.panic.Some? && e == StartEvent(job, |ran.results|) {
      NoMoreSays(host, job, |ran.results|);
    }
  }

  lemma TestedEvent(host: Host, job: Job, ran: Ran, comp: Option<Compilation>, e: Event)
    requires Reaches(host, job)
    requires ran == RunAll(InContext(Chosen(host, job), ContextOf(host, job)),
      Normalized(JobRequest(job), host.freshId), job)
    requires comp == Built(Chosen(host, job), GetLanguage(job.language).value, WorkspaceFor(host, job))
    requires FinalState(host, job) == CourseState(job, Tested(ran, comp))
    requires e in Events(Announcement(job) + Phase(job, comp, ran))
    ensures Says(host, job, e)
  {
    hide Reaches, RunAll, Normalized, InContext, Phase, Announcement, Events, FinalState, Says, CourseState,
      StartEvent, RunningEvent, ClosingEvents, Built, ResultEffects, TestsOf, Tests, Shows, Answer, GetLanguage,
      WorkspaceFor, Chosen, ContextOf;
    Found(host, job);
    AnnouncementEvents(job, Phase(job, comp, ran));
    PhaseEvents(job, comp, ran);
    RanToTheEnd(host, job, ran);
    TestsAre(job);
    RunsWell(InContext(Chosen(host, job), ContextOf(host, job)), job, Normalized(JobRequest(job), host.freshId));
    if e == Bare(Compiling) {
      CompilingSays(host, job);
    } else if e == RunningEvent(job, comp) {
      RunningSays(host, job, comp);
    } else if e in Events(ResultEffects(job, ran.results)) {
      RoundEvents(job, ran.results, e);
      var i :| 0 <= i < |ran.results| && (e == StartEvent(job, i) || e == ResultEvent(job, i, ran.results[i]));
      RoundSays(host, job, e, i, ran.results[i]);
    } else {
      ClosingSays(host, job, ran, comp, e);
    }
  }

  lemma FailedEventSays(host: Host, job: Job, v: Verdict, error: string, comp: Option<Compilation>)
    requires FinalState(host, job) == FailedState(job, v, error, comp)
    ensures Says(host, job, FailedEvent(v, error, comp))
  {
    hide FinalState, TestsOf, Tests, Reaches;
  }

  lemma UnreachedEvent(host: Host, job: Job, c: Course, e: Event)
    requires !c.Tested? && Follows(job, c, Process(host, job)) && e in Events(Process(host, job))
    requires FinalState(host, job) == CourseState(job, c)
    ensures Says(host, job, e)
  {
    hide Events, FinalState, Says, Failure, Announcement, PanicText, FailedState, FailedEvent, Process, Phase,
      Reaches, WellRan;
    match c {
      case Rejected(v, error) =>
        FailureEvents(job, v, error, None);
        FailedEventSays(host, job, v, error, None);
      case CompilerPanic(p) =>
        AnnouncementEvents(job, [Cleanup] + Failure(job, SystemError, PanicText(p), None));
        FailureEvents(job, SystemError, PanicText(p), None);
        FailedEventSays(host, job, SystemError, PanicText(p), None);
        CompilingSays(host, job);
      case CompilerError(error, comp) =>
        AnnouncementEvents(job, Failure(job, CompilationError, error, comp) + [Cleanup]);
        FailureEvents(job, CompilationError, error, comp);
        FailedEventSays(host, job, CompilationError, error, comp);
        CompilingSays(host, job);
    }
  }

  /** Every event on every trace says exactly what happened. */
  lemma EventsSay(host: Host, job: Job, e: Event)
    requires e in Events(Process(host, job))
    ensures Says(host, job, e)
  {
    hide Reaches, RunAll, Normalized, InContext, Phase, Announcement, Events, FinalState, Says, CourseState, Failure,
      Built, ContextOf, Chosen, WorkspaceFor, GetLanguage, PanicText, Recovery, WellRan, Process;
    if Reaches(host, job) {
      Found(host, job);
      var ran := TestedCourse(host, job);
      var comp := Built(Chosen(host, job), GetLanguage(job.language).value, WorkspaceFor(host, job));
      TestedEvent(host, job, ran, comp, e);
    } else {
      var c := EarlyCourse(host, job);
      UnreachedEvent(host, job, c, e);
    }
  }

  // ---- The RUNNING record ------------------------------------------------

  lemma {:induction false} RoundsOnlyPublish(job: Job, rs: seq<TestResult>)
    ensures forall e :: e in ResultEffects(job, rs) ==> e.Publish?
  {
    hide StartEvent, ResultEvent;
    if rs != [] {
      RoundsOnlyPublish(job, rs[..|rs| - 1]);
    }
  }

  lemma SavesOfPhase(job: Job, ran: Ran, comp: Option<Compilation>, e: Effect)
    requires e in Announcement(job) + Phase(job, comp, ran) && e.Save? && e.state.status == Running
    ensures e.state == RunningState(job, comp)
  {
    hide ResultEffects, RunningState, PanicText, Compiles, CompletedEvent, FailedEvent, StartEvent, RunningEvent;
    RoundsOnlyPublish(job, ran.results);
    assert RunningState(job, comp).status == Running;
    var results, closing := ResultEffects(job, ran.results), Closing(job, comp, ran);
    assert e in Announcement(job) || e in Overture(job, comp) || e in results || e in closing;
  }

  /** The RUNNING record a worker saves, in full. */
  lemma RunningSaveSays(host: Host, job: Job, e: Effect)
    requires e in Process(host, job) && e.Save? && e.state.status == Running
    ensures Reaches(host, job)
    ensures e.state == State(job.id, Running, Accepted, job.language, |TestsOf(job)|, 0, [],
                             Built(Chosen(host, job), GetLanguage(job.language).value, WorkspaceFor(host, job)),
                             0.0, 0.0, 0.0, "")
  {
    hide Reaches, FinalState, RunAll, Normalized, InContext, Process, PanicText, TestsOf, Tests, Built, Chosen,
      WorkspaceFor, ContextOf, GetLanguage, ResultEffects, CourseState, WellRan, Compiles;
    TestsAre(job);
    if Reaches(host, job) {
      Found(host, job);
      var ran := TestedCourse(host, job);
      RoundsOnlyPublish(job, ran.results);
      var comp := Built(Chosen(host, job), GetLanguage(job.language).value, WorkspaceFor(host, job));
      SavesOfPhase(job, ran, comp, e);
    } else {
      var c := EarlyCourse(host, job);
    }
  }

  // ---- The order of effects ----------------------------------------------

  /** Clean-up comes after everything else, or, after a panic of the compiler or a test,
      right before the save and the event of the recovery. */
  ghost predicate CleansUpLast(log: seq<Effect>, panicked: bool) {
    var n := |log|;
    if panicked then n >= 3 && log[n - 3].Cleanup? && log[n - 2].Save? && log[n - 1].Publish?
    else n >= 3 && log[n - 3].Save? && log[n - 2].Publish? && log[n - 1].Cleanup?
  }

  lemma EndOf(a: seq<Effect>, b: seq<Effect>, panicked: bool)
    requires CleansUpLast(b, panicked)
    ensures CleansUpLast(a + b, panicked)
  {
  }

  lemma PhaseCleansUpLast(job: Job, comp: Option<Compilation>, ran: Ran)
    ensures CleansUpLast(Announcement(job) + Phase(job, comp, ran), ran.panic.Some?)
  {
    hide Announcement, Overture, ResultEffects, CompletedState, CompletedEvent, FailedState, FailedEvent, PanicText,
      StartEvent;
    var closing := Closing(job, comp, ran);
    var before := Overture(job, comp) + ResultEffects(job, ran.results);
    assert CleansUpLast(closing, ran.panic.Some?);
    EndOf(before, closing, ran.panic.Some?);
    EndOf(Announcement(job), Phase(job, comp, ran), ran.panic.Some?);
  }

  lemma ProcessIsOn(host: Host, job: Job, sb: Sandbox, lang: Language, req: Request)
    requires GetLanguage(job.language) == Some(lang) && SelectSandbox(host, job.sandbox).Some?
    requires sb == host.backend(SelectSandbox(host, job.sandbox).value)
    requires req == Normalized(JobRequest(job), host.freshId)
    ensures Process(host, job) == ProcessOn(sb, lang, job, req)
  {
    hide GetLanguage, SelectSandbox, Normalized, ProcessOn;
  }

  lemma CourseCleansUpLast(job: Job, sb: Sandbox, lang: Language, req: Request, log: seq<Effect>)
    requires Follows(job, PreparedCourse(sb, lang, job, req), log)
    ensures CleansUpLast(log, PreparedPanic(sb, lang, job, req).Some?)
  {
    hide Announcement, Phase, RunAll, FailedState, FailedEvent, PanicText, WorkspaceOf, WellRan;
    match PreparedCourse(sb, lang, job, req) {
      case Tested(ran, comp) => PhaseCleansUpLast(job, comp, ran);
      case _ =>
    }
  }

  /** Where the deferred Cleanup falls on the trace of a job whose Prepare succeeded. */
  lemma CleanupPlace(host: Host, job: Job)
    requires Prepared(host, job)
    ensures CleansUpLast(Process(host, job), PanicOf(host, job).Some?)
  {
    hide Normalized, GetLanguage, SelectSandbox, Announcement, Phase, RunAll, InContext, FailedState, FailedEvent,
      PanicText, WorkspaceOf, WorkspaceFor, Process, PanicOf, FinalState, CourseState, ProcessOn, CleansUpLast;
    var sb, lang := host.backend(SelectSandbox(host, job.sandbox).value), GetLanguage(job.language).value;
    var req := Normalized(JobRequest(job), host.freshId);
    FollowsCourseOn(sb, lang, job, req);
    Engine.FinalVerdictOn(host, job, sb, lang, req);
    ProcessIsOn(host, job, sb, lang, req);
    CourseCleansUpLast(job, InContext(sb, sb.prepare(WorkspaceOf(req)).value), lang, req, Process(host, job));
  }

  lemma RunningInPhase(job: Job, ran: Ran, comp: Option<Compilation>, log: seq<Effect>, i: nat)
    requires log == Announcement(job) + Phase(job, comp, ran)
    requires i < |log| && log[i].Save? && log[i].state.status == Running
    ensures i > 0 && log[i - 1].Publish? && log[i - 1].event.status == Running
  {
    hide ResultEffects, PanicText, Compiles, CompletedEvent, FailedEvent, StartEvent;
    RoundsOnlyPublish(job, ran.results);
    var results, closing, k := ResultEffects(job, ran.results), Closing(job, comp, ran), |Announcement(job)|;
    assert log == Announcement(job) + Overture(job, comp) + results + closing;
    forall j | 0 <= j < |results| ensures results[j].Publish? {
      assert results[j] in results;
    }
  }

  /** The RUNNING event comes right before the RUNNING save. */
  lemma RunningComesFirst(host: Host, job: Job, i: nat)
    requires i < |Process(host, job)| && Process(host, job)[i].Save? && Process(host, job)[i].state.status == Running
    ensures i > 0 && Process(host, job)[i - 1].Publish? && Process(host, job)[i - 1].event.status == Running
  {
    hide Reaches, FinalState, RunAll, Normalized, InContext, Process, PanicText, TestsOf, Tests, Built, Chosen,
      WorkspaceFor, ContextOf, GetLanguage, ResultEffects, CourseState, WellRan, Compiles;
    var log := Process(host, job);
    if Reaches(host, job) {
      Found(host, job);
      var ran := TestedCourse(host, job);
      var comp := Built(Chosen(host, job), GetLanguage(job.language).value, WorkspaceFor(host, job));
      RunningInPhase(job, ran, comp, log, i);
    } else {
      var c := EarlyCourse(host, job);
    }
  }

  // ---- The engine --------------------------------------------------------

  /** The request the engine hands to a backend. */
  function AskedOnce(host: Host, r: Request): Request {
    Request(if r.id == "" then host.freshId else r.id, Canonical(r.language), r.code, r.stdin, r.expected,
            Allowance(r.limits), if r.sandbox == "" then "auto" else r.sandbox)
  }

  /** The backend the engine takes: the one asked for, else its own if it has one. */
  function BackendTaken(host: Host, fallback: string, r: Request): Option<Backend> {
    var asked := SelectSandbox(host, if r.sandbox == "" then "auto" else r.sandbox);
    if asked.Some? || fallback == "" then asked else SelectSandbox(host, fallback)
  }

  /** A verdict without an execution. */
  predicate Blank(o: Engine.Outcome, v: Verdict, comp: Option<Compilation>) {
    o.Judged? && o.verdict == v && o.exitCode == 0 && o.stdout == "" && o.stderr == "" && o.compilation == comp
  }

  /** The outcome hands on what the backend's Execute answered, field by field. */
  predicate HandsOn(o: Engine.Outcome, answer: Reply<Option<Execution>>) {
    match answer
    case Panics(p) => o == Engine.Crashed(p.cause)
    case Errs(_) => Blank(o, SystemError, None)
    case Returns(None) => o == Engine.NoResult
    case Returns(Some(x)) =>
      && o.Judged? && o.verdict == x.verdict && o.exitCode == x.exitCode
      && o.stdout == x.stdout && o.stderr == x.stderr && o.compilation == None
  }

  /** The outcome of a compilation that Execute does not follow. */
  predicate HandsBack(o: Engine.Outcome, reply: CompileReply) {
    match reply
    case CompilePanics(p) => o == Engine.Crashed(p.cause)
    case CompileErrs(_, partial) => Blank(o, CompilationError, partial)
    case Compiled(None) => o == Engine.Crashed(NilPointer)
    case Compiled(Some(c)) =>
      && o.Judged? && o.verdict == CompilationError && o.exitCode == c.exitCode
      && o.stdout == c.stdout && o.stderr == c.stderr && o.compilation == Some(c)
  }

  /** The engine calls Prepare, then Compile for a compiled language, then Execute if that
      succeeded, and last Cleanup, and hands on what the last but one of them answered. */
  ghost predicate Conducts(session: Engine.Session, sb: Sandbox, lang: Language, req: Request) {
    var o, calls := session.outcome, session.calls;
    match sb.prepare(WorkspaceOf(req))
    case Panics(p) => o == Engine.Crashed(p.cause) && calls == [Engine.PrepareCall]
    case Errs(_) => Blank(o, SystemError, None) && calls == [Engine.PrepareCall]
    case Returns(_) =>
      var reply := sb.compile(WorkspaceOf(req));
      var ready := lang.Python3? || (reply.Compiled? && reply.result.Some? && reply.result.value.success);
      && calls == [Engine.PrepareCall] + (if lang.Cpp? then [Engine.CompileCall] else [])
                  + (if ready then [Engine.ExecuteCall] else []) + [Engine.CleanupCall]
      && (if ready then HandsOn(o, sb.execute(0, req)) else HandsBack(o, reply))
  }

  lemma RunConducts(sb: Sandbox, lang: Language, req: Request)
    ensures Conducts(Engine.RunOn(sb, lang, req), sb, lang, req)
  {
    hide WorkspaceOf;
  }

  lemma AskedOnceIsNormalized(host: Host, r: Request)
    ensures Normalized(r, host.freshId) == AskedOnce(host, r)
    ensures GetLanguage(Normalized(r, host.freshId).language) == GetLanguage(r.language)
  {
    hide Canonical, GetLanguage;
    CanonicalIsFixed(r.language);
  }

  lemma SandboxAsked(host: Host, r: Request)
    ensures AskedOnce(host, r).sandbox == if r.sandbox == "" then "auto" else r.sandbox
  {
  }

  /** What Run reports, for every host, fallback and request. */
  lemma EngineReports(host: Host, fallback: string, r: Request)
    ensures var lang, b, session :=
      GetLanguage(r.language), BackendTaken(host, fallback, r), Engine.Run(host, fallback, r);
            if lang.None? || b.None? then Blank(session.outcome, SystemError, None) && session.calls == []
            else Conducts(session, host.backend(b.value), lang.value, AskedOnce(host, r))
  {
    hide Normalized, AskedOnce, GetLanguage, SelectSandbox, Conducts, Engine.RunOn;
    AskedOnceIsNormalized(host, r);
    SandboxAsked(host, r);
    var b, lang := BackendTaken(host, fallback, r), GetLanguage(r.language);
    if lang.Some? && b.Some? {
      RunConducts(host.backend(b.value), lang.value, AskedOnce(host, r));
    }
  }

  // ---- The two pipelines side by side ------------------------------------

  lemma SameQuestion(host: Host, r: Request, testId: string, hidden: bool)
    ensures var job := Engine.Enqueued(r, testId, hidden);
            && TestsOf(job) == [TestCase(testId, r.stdin, r.expected, hidden)]
            && Asked(host, job, TestsOf(job)[0]) == AskedOnce(host, r)
            && WorkspaceFor(host, job) == WorkspaceOf(AskedOnce(host, r))
            && job.language == r.language && job.sandbox == if r.sandbox == "" then "auto" else r.sandbox
  {
    hide Canonical;
  }

  lemma OneVerdictOfOne(host: Host, job: Job)
    requires FinalState(host, job).status == Completed && |FinalState(host, job).results| == 1
    ensures FinalState(host, job).verdict == FinalState(host, job).results[0].verdict
  {
    hide FinalState, Process;
    CompletedRecord(host, job);
  }

  /** The stronger agreement: when a request is completed as a one-test job and judged
      by Run on the same backend, both report the same verdict and exit code, and the
      same output unless the test keeps it back. */
  lemma SameReport(host: Host, fallback: string, r: Request, testId: string, hidden: bool)
    requires SelectSandbox(host, if r.sandbox == "" then "auto" else r.sandbox).Some?
    requires FinalState(host, Engine.Enqueued(r, testId, hidden)).status == Completed
    requires Engine.Run(host, fallback, r).outcome.Judged?
    ensures var o, s := Engine.Run(host, fallback, r).outcome, FinalState(host, Engine.Enqueued(r, testId, hidden));
            && |s.results| == 1 && s.verdict == s.results[0].verdict == o.verdict && s.results[0].exitCode == o.exitCode
            && (hidden && o.verdict != Accepted ==> s.results[0].stdout == s.results[0].stderr == "[Hidden Testcase]")
            && (!hidden || o.verdict == Accepted ==> s.results[0].stdout == o.stdout && s.results[0].stderr == o.stderr)
  {
    hide FinalState, Normalized, GetLanguage, SelectSandbox, AskedOnce, Engine.Run, Engine.Enqueued, TestsOf, Asked,
      WorkspaceFor;
    var job := Engine.Enqueued(r, testId, hidden);
    SameQuestion(host, r, testId, hidden);
    CompletedExactly(host, job);
    RecordShowsAnswers(host, job, 0);
    EngineReports(host, fallback, r);
    OneVerdictOfOne(host, job);
  }
}
