/** What every trace of ProcessJob has in common, for every job and every
    sandbox behaviour: errors and panics included. */
module Traces {
  import opened Models
  import opened Requests
  import opened Sandboxes
  import opened Worker

  /** The event an effect puts on the bus, if any. */
  function Published(e: Effect): seq<Event> {
    if e.Publish? then [e.event] else []
  }

  function Events(log: seq<Effect>): seq<Event> {
    if log == [] then [] else Events(log[..|log| - 1]) + Published(log[|log| - 1])
  }

  lemma {:induction false} EventsConcat(a: seq<Effect>, b: seq<Effect>)
    ensures Events(a + b) == Events(a) + Events(b)
  {
    if b == [] {
      assert a + b == a;
    } else {
      var n := |b| - 1;
      assert (a + b)[..|a + b| - 1] == a + b[..n];
      EventsConcat(a, b[..n]);
    }
  }

  lemma EventsOfThree(a: seq<Effect>, b: seq<Effect>, c: seq<Effect>)
    ensures Events(a + b + c) == Events(a) + Events(b) + Events(c)
  {
    EventsConcat(a, b);
    EventsConcat(a + b, c);
  }

  lemma EventsOfTwo(a: Effect, b: Effect)
    ensures Events([a]) == Published(a)
    ensures Events([a, b]) == Published(a) + Published(b)
  {
    EventsConcat([a], [b]);
    assert [a] + [b] == [a, b];
  }

  // ---- The four courses a job can take ----------------------------------

  /** The four forms of a trace: fail before compiling, panic in the compiler,
      fail to compile, or reach the test cases. */
  datatype Course =
    | Rejected(verdict: Verdict, error: string)
    | CompilerPanic(panic: Panic)
    | CompilerError(error: string, comp: Option<Compilation>)
    | Tested(ran: Ran, comp: Option<Compilation>)

  predicate Compiles(job: Job) {
    GetLanguage(job.language) == Some(Cpp)
  }

  function Announcement(job: Job): seq<Effect> {
    if Compiles(job) then [Publish(Bare(Compiling))] else []
  }

  /** Results in order, one per test, stopping early exactly on a panic. */
  ghost predicate WellRan(job: Job, ran: Ran) {
    && |ran.results| <= |Tests(job)|
    && (ran.panic.None? <==> |ran.results| == |Tests(job)|)
    && forall i :: 0 <= i < |ran.results| ==>
         ran.results[i].index == i + 1 && ran.results[i].testId == Tests(job)[i].id
  }

  ghost predicate Follows(job: Job, c: Course, log: seq<Effect>) {
    match c
    case Rejected(v, e) => log == Failure(job, v, e, None)
    case CompilerPanic(m) => Compiles(job) && log == Announcement(job) + ([Cleanup] + Recovery(job, m))
    case CompilerError(e, comp) =>
      Compiles(job) && log == Announcement(job) + (Failure(job, CompilationError, e, comp) + [Cleanup])
    case Tested(ran, comp) => WellRan(job, ran) && log == Announcement(job) + Phase(job, comp, ran)
  }

  /** Prepare was reached and succeeded. */
  predicate Prepared(host: Host, job: Job) {
    match (GetLanguage(job.language), SelectSandbox(host, job.sandbox))
    case (Some(_), Some(b)) => host.backend(b).prepare(WorkspaceOf(Normalized(JobRequest(job), host.freshId))).Returns?
    case _ => false
  }

  function CompileCourse(sb: Sandbox, job: Job, req: Request): Course {
    match sb.compile(WorkspaceOf(req))
    case CompilePanics(m) => CompilerPanic(m)
    case CompileErrs(m, comp) => CompilerError(m, comp)
    case Compiled(comp) =>
      if comp.Some? && !comp.value.success then CompilerError(comp.value.stderr, comp)
      else Tested(RunAll(sb, req, job), comp)
  }

  function PreparedCourse(sb: Sandbox, lang: Language, job: Job, req: Request): Course {
    if lang.NeedsCompilation() then CompileCourse(sb, job, req) else Tested(RunAll(sb, req, job), None)
  }

  /** The course of a job once its language and backend are known. */
  function CourseOn(sb: Sandbox, lang: Language, job: Job, req: Request): Course {
    match sb.prepare(WorkspaceOf(req))
    case Panics(m) => Rejected(SystemError, PanicText(m))
    case Errs(m) => Rejected(SystemError, "sandbox prepare failed: " + m)
    case Returns(context) => PreparedCourse(InContext(sb, context), lang, job, req)
  }

  lemma RunsWell(sb: Sandbox, job: Job, req: Request)
    ensures WellRan(job, RunAll(sb, req, job))
  {
    hide Tests;
  }

  lemma FollowsCompileCourse(sb: Sandbox, job: Job, req: Request)
    requires Compiles(job)
    ensures Follows(job, CompileCourse(sb, job, req), CompilePhase(sb, job, req))
  {
    hide RunAll, Phase, Tests, Failure, WellRan;
    RunsWell(sb, job, req);
  }

  lemma FollowsCourseOn(sb: Sandbox, lang: Language, job: Job, req: Request)
    requires GetLanguage(job.language) == Some(lang)
    ensures Follows(job, CourseOn(sb, lang, job, req), ProcessOn(sb, lang, job, req))
  {
    hide RunAll, Phase, Tests, CompilePhase, CompileCourse, Failure, InContext;
    if sb.prepare(WorkspaceOf(req)).Returns? {
      var inner := InContext(sb, sb.prepare(WorkspaceOf(req)).value);
      RunsWell(inner, job, req);
      if lang.NeedsCompilation() {
        FollowsCompileCourse(inner, job, req);
      } else {
        assert [] + RunPhase(inner, job, req, None) == RunPhase(inner, job, req, None);
      }
    }
  }

  lemma CourseOf(host: Host, job: Job) returns (c: Course)
    ensures Follows(job, c, Process(host, job))
    ensures c.Rejected? <==> !Prepared(host, job)
  {
    if GetLanguage(job.language).None? {
      c := Rejected(SystemError, UnsupportedText(job.language));
    } else if SelectSandbox(host, job.sandbox).None? {
      c := Rejected(SystemError, SelectText(host, job.sandbox));
    } else {
      var sb, lang := host.backend(SelectSandbox(host, job.sandbox).value), GetLanguage(job.language).value;
      var req := Normalized(JobRequest(job), host.freshId);
      FollowsCourseOn(sb, lang, job, req);
      c := CourseOn(sb, lang, job, req);
    }
  }

  // ---- The event grammar -------------------------------------------------

  datatype Mark = Mark(status: Status, test: nat)

  function Marks(evs: seq<Event>): (ms: seq<Mark>)
    ensures |ms| == |evs|
    ensures forall i :: 0 <= i < |evs| ==> ms[i] == Mark(evs[i].status, evs[i].current)
  {
    seq(|evs|, i requires 0 <= i < |evs| => Mark(evs[i].status, evs[i].current))
  }

  /** START_1 RESULT_1 ... START_k RESULT_k, where RESULT_i is PASSED_i or FAILED_i. */
  function Rounds(passed: seq<bool>): seq<Mark> {
    if passed == [] then []
    else
      var k := |passed|;
      Rounds(passed[..k - 1])
      + [Mark(TestCaseStart, k), Mark(if passed[k - 1] then TestCasePassed else TestCaseFailed, k)]
  }

  function Opening(compiles: bool): seq<Mark> {
    if compiles then [Mark(Compiling, 0), Mark(Running, 0)] else [Mark(Running, 0)]
  }

  /** [COMPILING] RUNNING (START_i RESULT_i) for i = 1..n, COMPLETED */
  function FullWord(compiles: bool, passed: seq<bool>): seq<Mark> {
    Opening(compiles) + Rounds(passed) + [Mark(Completed, |passed|)]
  }

  /** The same, cut off right after a START, then FAILED. */
  function CutWord(compiles: bool, passed: seq<bool>): seq<Mark> {
    Opening(compiles) + Rounds(passed) + [Mark(TestCaseStart, |passed| + 1), Mark(Failed, 0)]
  }

  ghost predicate InGrammar(w: seq<Mark>, compiles: bool, n: nat) {
    || w == [Mark(Failed, 0)]
    || (compiles && w == [Mark(Compiling, 0), Mark(Failed, 0)])
    || (exists passed :: |passed| == n && w == FullWord(compiles, passed))
    || (exists passed :: |passed| < n && w == CutWord(compiles, passed))
  }

  function Outcomes(rs: seq<TestResult>): (bs: seq<bool>)
    ensures |bs| == |rs|
  {
    seq(|rs|, i requires 0 <= i < |rs| => rs[i].verdict == Accepted)
  }

  lemma NoMarks()
    ensures Marks(Events([])) == []
  {
  }

  lemma MarksOfRound(job: Job, n: nat, r: TestResult)
    ensures Marks([StartEvent(job, n), ResultEvent(job, n, r)])
         == [Mark(TestCaseStart, n + 1), Mark(if r.verdict == Accepted then TestCasePassed else TestCaseFailed, n + 1)]
  {
  }

  lemma MarksConcat(a: seq<Event>, b: seq<Event>)
    ensures Marks(a + b) == Marks(a) + Marks(b)
  {
  }

  lemma {:induction false} RoundMarks(job: Job, rs: seq<TestResult>)
    ensures Marks(Events(ResultEffects(job, rs))) == Rounds(Outcomes(rs))
  {
    hide Events, Marks, StartEvent, ResultEvent;
    if rs == [] {
      NoMarks();
    } else {
      var n := |rs| - 1;
      RoundMarks(job, rs[..n]);
      var start, result := StartEvent(job, n), ResultEvent(job, n, rs[n]);
      EventsConcat(ResultEffects(job, rs[..n]), [Publish(start), Publish(result)]);
      EventsOfTwo(Publish(start), Publish(result));
      MarksConcat(Events(ResultEffects(job, rs[..n])), [start, result]);
      MarksOfRound(job, n, rs[n]);
      assert Outcomes(rs)[..n] == Outcomes(rs[..n]);
      assert [start] + [result] == [start, result];
    }
  }

  function ClosingEvents(job: Job, comp: Option<Compilation>, ran: Ran): seq<Event> {
    match ran.panic
    case None => [CompletedEvent(job, comp, ran.results)]
    case Some(m) => [StartEvent(job, |ran.results|), FailedEvent(SystemError, PanicText(m), None)]
  }

  lemma FailureEvents(job: Job, v: Verdict, e: string, comp: Option<Compilation>)
    ensures Events(Failure(job, v, e, comp)) == [FailedEvent(v, e, comp)]
    ensures Events([Cleanup] + Failure(job, v, e, comp)) == [FailedEvent(v, e, comp)]
    ensures Events(Failure(job, v, e, comp) + [Cleanup]) == [FailedEvent(v, e, comp)]
  {
    EventsOfTwo(Save(FailedState(job, v, e, comp)), Publish(FailedEvent(v, e, comp)));
    EventsOfTwo(Cleanup, Cleanup);
    EventsConcat([Cleanup], Failure(job, v, e, comp));
    EventsConcat(Failure(job, v, e, comp), [Cleanup]);
  }

  lemma EventsOfClosing(job: Job, comp: Option<Compilation>, ran: Ran)
    ensures Events(Closing(job, comp, ran)) == ClosingEvents(job, comp, ran)
  {
    hide Events, Failure, CompletedState, CompletedEvent, StartEvent, PanicText;
    match ran.panic {
      case None =>
        var save, done := Save(CompletedState(job, comp, ran.results)), Publish(CompletedEvent(job, comp, ran.results));
        assert [save, done, Cleanup] == [save, done] + [Cleanup];
        EventsOfTwo(save, done);
        EventsOfTwo(Cleanup, Cleanup);
        EventsConcat([save, done], [Cleanup]);
      case Some(m) =>
        var start := Publish(StartEvent(job, |ran.results|));
        EventsOfTwo(start, Cleanup);
        FailureEvents(job, SystemError, PanicText(m), None);
        EventsConcat([start, Cleanup], Recovery(job, m));
    }
  }

  /** The events of the test phase. */
  lemma PhaseEvents(job: Job, comp: Option<Compilation>, ran: Ran)
    ensures Events(Phase(job, comp, ran))
         == [RunningEvent(job, comp)] + Events(ResultEffects(job, ran.results)) + ClosingEvents(job, comp, ran)
  {
    hide Events, ResultEffects, Closing, ClosingEvents, RunningEvent, RunningState;
    EventsOfTwo(Publish(RunningEvent(job, comp)), Save(RunningState(job, comp)));
    EventsOfClosing(job, comp, ran);
    EventsOfThree(Overture(job, comp), ResultEffects(job, ran.results), Closing(job, comp, ran));
  }

  lemma AnnouncementEvents(job: Job, rest: seq<Effect>)
    ensures Events(Announcement(job) + rest) == (if Compiles(job) then [Bare(Compiling)] else []) + Events(rest)
  {
    EventsConcat(Announcement(job), rest);
    EventsOfTwo(Publish(Bare(Compiling)), Cleanup);
  }

  function WordOf(job: Job, ran: Ran): seq<Mark> {
    if ran.panic.None? then FullWord(Compiles(job), Outcomes(ran.results))
    else CutWord(Compiles(job), Outcomes(ran.results))
  }

  function ClosingMarks(ran: Ran): seq<Mark> {
    if ran.panic.None? then [Mark(Completed, |ran.results|)]
    else [Mark(TestCaseStart, |ran.results| + 1), Mark(Failed, 0)]
  }

  lemma MarksOfFour(a: seq<Event>, b: seq<Event>, c: seq<Event>, d: seq<Event>)
    ensures Marks(a + (b + c + d)) == Marks(a + b) + Marks(c) + Marks(d)
  {
    assert a + (b + c + d) == a + b + c + d;
    MarksConcat(a + b, c);
    MarksConcat(a + b + c, d);
  }

  lemma OpeningMarks(job: Job, comp: Option<Compilation>)
    ensures Marks((if Compiles(job) then [Bare(Compiling)] else []) + [RunningEvent(job, comp)])
      == Opening(Compiles(job))
  {
  }

  lemma SameLength(rs: seq<TestResult>)
    ensures |Outcomes(rs)| == |rs|
  {
  }

  lemma MarksOfClosing(job: Job, comp: Option<Compilation>, ran: Ran)
    requires ran.panic.None? ==> |ran.results| == |Tests(job)|
    ensures Marks(ClosingEvents(job, comp, ran)) == ClosingMarks(ran)
  {
    hide PanicText;
  }

  /** The word of a job that reaches its tests, given what its tests did. */
  lemma PhaseWord(job: Job, comp: Option<Compilation>, ran: Ran)
    requires ran.panic.None? ==> |ran.results| == |Tests(job)|
    ensures Marks(Events(Announcement(job) + Phase(job, comp, ran))) == WordOf(job, ran)
  {
    hide Marks, Events, Opening, Rounds, Outcomes, RunningEvent, ResultEffects, Phase, Announcement, ClosingEvents,
      Tests;
    AnnouncementEvents(job, Phase(job, comp, ran));
    PhaseEvents(job, comp, ran);
    RoundMarks(job, ran.results);
    var head: seq<Event> := if Compiles(job) then [Bare(Compiling)] else [];
    var running, rounds, closing :=
      [RunningEvent(job, comp)], Events(ResultEffects(job, ran.results)), ClosingEvents(job, comp, ran);
    MarksOfFour(head, running, rounds, closing);
    OpeningMarks(job, comp);
    MarksOfClosing(job, comp, ran);
    SameLength(ran.results);
  }

  /** The marks of the courses that never reach the tests. */
  lemma ShortWords(job: Job, v: Verdict, e: string, comp: Option<Compilation>)
    ensures var f := Failure(job, v, e, comp);
            && Marks(Events(f)) == [Mark(Failed, 0)]
            && (Compiles(job) ==>
                  && Marks(Events(Announcement(job) + ([Cleanup] + f))) == [Mark(Compiling, 0), Mark(Failed, 0)]
                  && Marks(Events(Announcement(job) + (f + [Cleanup]))) == [Mark(Compiling, 0), Mark(Failed, 0)])
  {
    hide Failure, Announcement, Events;
    var f := Failure(job, v, e, comp);
    FailureEvents(job, v, e, comp);
    AnnouncementEvents(job, [Cleanup] + f);
    AnnouncementEvents(job, f + [Cleanup]);
  }

  lemma CourseWord(job: Job, c: Course, log: seq<Effect>)
    requires Follows(job, c, log)
    ensures InGrammar(Marks(Events(log)), Compiles(job), |Tests(job)|)
  {
    if c.Tested? {
      PhaseWord(job, c.comp, c.ran);
      assert |Outcomes(c.ran.results)| == |c.ran.results|;
    } else if c.Rejected? {
      ShortWords(job, c.verdict, c.error, None);
    } else if c.CompilerPanic? {
      ShortWords(job, SystemError, PanicText(c.panic), None);
    } else {
      ShortWords(job, CompilationError, c.error, c.comp);
    }
  }

  /** Soundness: every trace of every job on every host is a word of the grammar. */
  lemma TraceInGrammar(host: Host, job: Job)
    ensures InGrammar(Marks(Events(Process(host, job))), Compiles(job), |Tests(job)|)
  {
    var c := CourseOf(host, job);
    CourseWord(job, c, Process(host, job));
  }

  lemma {:induction false} RoundsAreNotTerminal(passed: seq<bool>)
    ensures |Rounds(passed)| == 2 * |passed|
    ensures forall m :: m in Rounds(passed) ==> !Terminal(m.status) && !m.status.Queued?
  {
    if passed != [] {
      RoundsAreNotTerminal(passed[..|passed| - 1]);
    }
  }

  /** A word with its one terminal mark at the end. */
  ghost predicate TerminalLast(w: seq<Mark>) {
    && w != []
    && forall i :: 0 <= i < |w| ==> !w[i].status.Queued? && (Terminal(w[i].status) <==> i == |w| - 1)
  }

  lemma LongWordsEndOnce(compiles: bool, passed: seq<bool>)
    ensures |FullWord(compiles, passed)| == 2 * |passed| + 2 + if compiles then 1 else 0
    ensures |CutWord(compiles, passed)| == |FullWord(compiles, passed)| + 1
    ensures TerminalLast(FullWord(compiles, passed)) && TerminalLast(CutWord(compiles, passed))
  {
    RoundsAreNotTerminal(passed);
    var rounds := Rounds(passed);
    assert forall i :: 0 <= i < |rounds| ==> rounds[i] in rounds;
  }

  lemma WordsEndOnce(w: seq<Mark>, compiles: bool, n: nat)
    requires InGrammar(w, compiles, n)
    ensures |w| <= 2 * n + 3 && TerminalLast(w)
  {
    if passed :| |passed| == n && w == FullWord(compiles, passed) {
      LongWordsEndOnce(compiles, passed);
    } else if passed :| |passed| < n && w == CutWord(compiles, passed) {
      LongWordsEndOnce(compiles, passed);
    }
  }

  /** Exactly one terminal event, and it is the last; at most 2n+3 events in all. */
  lemma OneTerminalEventLast(host: Host, job: Job)
    ensures var evs := Events(Process(host, job));
            && 0 < |evs| <= 2 * |Tests(job)| + 3
            && forall i :: 0 <= i < |evs| ==>
                 !evs[i].status.Queued? && (Terminal(evs[i].status) <==> i == |evs| - 1)
  {
    TraceInGrammar(host, job);
    var evs := Events(Process(host, job));
    var w := Marks(evs);
    WordsEndOnce(w, Compiles(job), |Tests(job)|);
    assert forall i :: 0 <= i < |evs| ==> w[i].status == evs[i].status;
  }

  // ---- Completeness of the grammar --------------------------------------

  const PREPARE := Panic(Raised("prepare"), "")
  const COMPILE := Panic(Raised("compile"), "")
  const EXECUTE := Panic(Raised("execute"), "")

  /** A backend that acts out a word: `stage` 0 panics in Prepare, 1 in Compile,
      2 runs the tests as listed and panics when the list ends. */
  function Actor(stage: nat, passed: seq<bool>): Sandbox {
    Sandbox(
      ws => if stage == 0 then Panics(PREPARE) else Returns(Ready),
      ws => if stage == 1 then CompilePanics(COMPILE) else Compiled(None),
      (i: nat, r) =>
        if i >= |passed| then Panics(EXECUTE)
        else Returns(Some(SystemErrorExecution().(verdict := if passed[i] then Accepted else WrongAnswer))),
      "")
  }

  function Theatre(stage: nat, passed: seq<bool>): Host {
    Host("linux", true, true, "exec-0", b => Actor(stage, passed))
  }

  lemma ActedTest(stage: nat, passed: seq<bool>, req: Request, ts: seq<TestCase>, i: nat)
    requires i < |ts|
    ensures Executed(Actor(stage, passed), req, ts, i)
         == if i >= |passed| then Panics(EXECUTE)
            else Returns(SystemErrorExecution().(verdict := if passed[i] then Accepted else WrongAnswer))
  {
  }

  lemma OutcomesExtend(rs: seq<TestResult>, r: TestResult)
    ensures Outcomes(rs + [r]) == Outcomes(rs) + [r.verdict == Accepted]
  {
  }

  lemma NoOutcomes(sb: Sandbox, req: Request, ts: seq<TestCase>)
    ensures RunTests(sb, req, ts, 0) == Ran([], None) && Outcomes([]) == []
  {
  }

  lemma ItemKeepsVerdict(t: TestCase, i: nat, x: Execution)
    ensures ResultItem(t, i, x).verdict == x.verdict
  {
  }

  lemma {:induction false} ActedTests(sb: Sandbox, stage: nat, passed: seq<bool>, req: Request, ts: seq<TestCase>,
      k: nat)
    requires sb == Actor(stage, passed)
    requires k <= |passed| <= |ts|
    ensures var ran := RunTests(sb, req, ts, k);
            ran.panic.None? && Outcomes(ran.results) == passed[..k]
  {
    hide ResultItem, Executed, Outcomes, RunTests, Actor;
    if k == 0 {
      NoOutcomes(sb, req, ts);
    } else {
      ActedTests(sb, stage, passed, req, ts, k - 1);
      ActedTest(stage, passed, req, ts, k - 1);
      var rs := RunTests(sb, req, ts, k - 1).results;
      var x := Executed(sb, req, ts, k - 1).value;
      ContinuedBy(sb, req, ts, k - 1, rs);
      ItemKeepsVerdict(ts[k - 1], k - 1, x);
      OutcomesExtend(rs, ResultItem(ts[k - 1], k - 1, x));
      assert passed[..k] == passed[..k - 1] + [passed[k - 1]];
    }
  }

  lemma ActedRun(job: Job, passed: seq<bool>, req: Request)
    requires |passed| <= |Tests(job)|
    ensures Marks(Events(Announcement(job) + RunPhase(Actor(2, passed), job, req, None)))
         == if |passed| == |Tests(job)| then FullWord(Compiles(job), passed) else CutWord(Compiles(job), passed)
  {
    var sb, ts, k := Actor(2, passed), Tests(job), |passed|;
    ActedTests(sb, 2, passed, req, ts, k);
    if k < |ts| {
      ActedTest(2, passed, req, ts, k);
      StoppedBy(sb, req, ts, k, |ts|, RunTests(sb, req, ts, k).results, EXECUTE);
    }
    assert passed[..k] == passed;
    PhaseWord(job, None, RunAll(sb, req, job));
  }

  /** What a job does on each of the three stages. */
  lemma ActedProcess(stage: nat, passed: seq<bool>, job: Job)
    requires GetLanguage(job.language).Some?
    requires SelectSandbox(Theatre(0, []), job.sandbox).Some?
    ensures Process(Theatre(stage, passed), job)
         == if stage == 0 then Recovery(job, PREPARE)
            else if stage == 1 && Compiles(job) then Announcement(job) + ([Cleanup] + Recovery(job, COMPILE))
            else Announcement(job) + RunPhase(Actor(stage, passed), job, Normalized(JobRequest(job), "exec-0"), None)
  {
    hide Normalized, WorkspaceOf, RunPhase, Recovery, GetLanguage, SelectSandbox;
    SelectionIgnoresBehaviour(Theatre(stage, passed), Theatre(0, []), job.sandbox);
    var req := Normalized(JobRequest(job), "exec-0");
    assert [] + RunPhase(Actor(stage, passed), job, req, None) == RunPhase(Actor(stage, passed), job, req, None);
  }

  /** Completeness: for every job whose language and sandbox preference are
      known, every word of the grammar is the trace of some host. */
  lemma EveryWordHappens(job: Job, w: seq<Mark>) returns (host: Host)
    requires GetLanguage(job.language).Some?
    requires SelectSandbox(Theatre(0, []), job.sandbox).Some?
    requires InGrammar(w, Compiles(job), |Tests(job)|)
    ensures Marks(Events(Process(host, job))) == w
  {
    hide Normalized, Process;
    var req := Normalized(JobRequest(job), "exec-0");
    if w == [Mark(Failed, 0)] {
      host := Theatre(0, []);
      ActedProcess(0, [], job);
      FailureEvents(job, SystemError, PanicText(PREPARE), None);
    } else if Compiles(job) && w == [Mark(Compiling, 0), Mark(Failed, 0)] {
      host := Theatre(1, []);
      ActedProcess(1, [], job);
      FailureEvents(job, SystemError, PanicText(COMPILE), None);
      AnnouncementEvents(job, [Cleanup] + Recovery(job, COMPILE));
    } else {
      var passed :| |passed| <= |Tests(job)|
                    && w == if |passed| == |Tests(job)|
                      then FullWord(Compiles(job), passed) else CutWord(Compiles(job), passed);
      host := Theatre(2, passed);
      ActedProcess(2, passed, job);
      ActedRun(job, passed, req);
    }
  }
}
