/** What ProcessJob leaves behind: the final record, its agreement with the
    published events, and what stays hidden. */
module Outcomes {
  import opened Models
  import opened Sandboxes
  import opened Worker
  import opened Traces

  // ---- The final save and the final publication -------------------------

  /** Effects that leave a submission unfinished. */
  predicate Quiet(e: Effect, id: string) {
    match e
    case Save(s) => s.status == Running && s.id == id
    case Publish(v) => !Terminal(v.status) && !v.status.Queued?
    case Cleanup => true
  }

  /** The frame built from a finished record (pkg/api/websocket.go). */
  function FinalEvent(s: State): Event {
    Event(s.status, s.total, s.total, Some(s.verdict), None, s.compilation, s.wallMs, s.cpuMs, s.peakMB, s.error)
  }

  /** The event published with it: FAILED carries no test counts. */
  function LiveEvent(s: State): Event {
    if s.status == Failed then FinalEvent(s).(current := 0, total := 0) else FinalEvent(s)
  }

  /** A terminal save and the publication that announces it. */
  predicate Announces(save: Effect, pub: Effect, id: string) {
    && save.Save? && pub.Publish?
    && Terminal(save.state.status) && save.state.id == id && pub.event == LiveEvent(save.state)
  }

  /** Position k holds the only terminal save, k+1 the only terminal publication,
      and nothing but clean-up follows. */
  ghost predicate Concludes(log: seq<Effect>, k: nat, id: string) {
    && k + 1 < |log|
    && Announces(log[k], log[k + 1], id)
    && (forall i :: 0 <= i < k ==> Quiet(log[i], id))
    && (forall i :: k + 1 < i < |log| ==> log[i].Cleanup?)
  }

  ghost predicate NoSaves(log: seq<Effect>) {
    forall i :: 0 <= i < |log| ==> !log[i].Save?
  }

  /** One save, at m. */
  ghost predicate OneSave(log: seq<Effect>, m: nat) {
    m < |log| && forall i :: 0 <= i < |log| ==> (log[i].Save? <==> i == m)
  }

  /** The end of a trace, and the RUNNING save before it: a COMPLETED trace has
      exactly one, a FAILED trace at most one. */
  ghost predicate IsFinale(log: seq<Effect>, k: nat, id: string) {
    && Concludes(log, k, id)
    && ((exists m: nat :: OneSave(log[..k], m)) || (log[k].state.status == Failed && NoSaves(log[..k])))
  }

  ghost predicate AllQuiet(log: seq<Effect>, id: string) {
    forall i :: 0 <= i < |log| ==> Quiet(log[i], id)
  }

  lemma FinaleAfter(before: seq<Effect>, log: seq<Effect>, k: nat, id: string)
    requires AllQuiet(before, id) && Concludes(log, k, id)
    ensures Concludes(before + log, |before| + k, id)
    ensures (before + log)[|before| + k] == log[k]
  {
  }

  lemma {:induction false} ResultsAreQuiet(job: Job, rs: seq<TestResult>)
    ensures AllQuiet(ResultEffects(job, rs), job.id) && NoSaves(ResultEffects(job, rs))
  {
    if rs != [] {
      ResultsAreQuiet(job, rs[..|rs| - 1]);
    }
  }

  /** The stored record once the effects of `done`, none of them terminal, have
      been carried out on a QUEUED one. */
  ghost predicate Reflects(done: seq<Effect>, s: State) {
    && (NoSaves(done) ==> s.status == Queued)
    && (forall i :: 0 <= i < |done| && done[i].Save? ==> s == done[i].state)
  }

  /** The record each course ends with. */
  function CourseState(job: Job, c: Course): State {
    match c
    case Rejected(v, e) => FailedState(job, v, e, None)
    case CompilerPanic(m) => FailedState(job, SystemError, PanicText(m), None)
    case CompilerError(e, comp) => FailedState(job, CompilationError, e, comp)
    case Tested(ran, comp) =>
      if ran.panic.None? then CompletedState(job, comp, ran.results)
      else FailedState(job, SystemError, PanicText(ran.panic.value), None)
  }

  ghost predicate EndsIn(log: seq<Effect>, k: nat, s: State) {
    IsFinale(log, k, s.id) && log[k].state == s
  }

  lemma ClosingFinale(job: Job, comp: Option<Compilation>, ran: Ran) returns (k: nat)
    ensures Concludes(Closing(job, comp, ran), k, job.id) && NoSaves(Closing(job, comp, ran)[..k])
    ensures Closing(job, comp, ran)[k].state == CourseState(job, Tested(ran, comp))
  {
    hide PanicText;
    k := if ran.panic.None? then 0 else 2;
  }

  /** The save of the opening is the only one up to position c of the closing. */
  lemma SavesUpTo(opening: seq<Effect>, m: nat, results: seq<Effect>, closing: seq<Effect>, c: nat)
    requires OneSave(opening, m) && NoSaves(results) && c <= |closing| && NoSaves(closing[..c])
    ensures OneSave((opening + (results + closing))[..|opening| + (|results| + c)], m)
  {
    assert (opening + (results + closing))[..|opening| + (|results| + c)] == opening + (results + closing[..c]);
  }

  lemma OpeningIsQuiet(job: Job, comp: Option<Compilation>) returns (m: nat)
    ensures AllQuiet(Announcement(job) + Overture(job, comp), job.id)
    ensures OneSave(Announcement(job) + Overture(job, comp), m)
  {
    hide Compiles;
    m := |Announcement(job)| + 1;
  }

  lemma CourseStateId(job: Job, c: Course)
    ensures CourseState(job, c).id == job.id
  {
  }

  lemma Regroup(a: seq<Effect>, b: seq<Effect>, c: seq<Effect>, d: seq<Effect>)
    ensures a + b + (c + d) == a + (b + c + d)
  {
  }

  lemma PhaseFinale(job: Job, comp: Option<Compilation>, ran: Ran) returns (k: nat)
    ensures EndsIn(Announcement(job) + Phase(job, comp, ran), k, CourseState(job, Tested(ran, comp)))
  {
    hide ResultEffects, Closing, Announcement, Overture, CourseState, Concludes, AllQuiet, OneSave, NoSaves;
    CourseStateId(job, Tested(ran, comp));
    var results, closing := ResultEffects(job, ran.results), Closing(job, comp, ran);
    var c := ClosingFinale(job, comp, ran);
    ResultsAreQuiet(job, ran.results);
    FinaleAfter(results, closing, c, job.id);
    var opening := Announcement(job) + Overture(job, comp);
    var m := OpeningIsQuiet(job, comp);
    FinaleAfter(opening, results + closing, |results| + c, job.id);
    Regroup(Announcement(job), Overture(job, comp), results, closing);
    k := |opening| + (|results| + c);
    SavesUpTo(opening, m, results, closing, c);
  }

  /** A failure between effects that neither save nor publish anything terminal. */
  lemma FailureFinale(job: Job, before: seq<Effect>, v: Verdict, e: string, comp: Option<Compilation>,
      after: seq<Effect>)
    requires AllQuiet(before, job.id) && NoSaves(before) && (forall i :: 0 <= i < |after| ==> after[i].Cleanup?)
    ensures EndsIn(before + Failure(job, v, e, comp) + after, |before|, FailedState(job, v, e, comp))
  {
    var log := before + Failure(job, v, e, comp) + after;
    assert log[..|before|] == before;
    assert log[|before|] == Save(FailedState(job, v, e, comp));
    assert log[|before| + 1] == Publish(FailedEvent(v, e, comp));
  }

  lemma CourseFinale(job: Job, c: Course, log: seq<Effect>) returns (k: nat)
    requires Follows(job, c, log)
    ensures EndsIn(log, k, CourseState(job, c))
  {
    hide EndsIn, Failure, FailedState, PanicText, Phase, WellRan;
    match c {
      case Rejected(v, e) =>
        k := 0;
        FailureFinale(job, [], v, e, None, []);
        assert log == [] + Failure(job, v, e, None) + [];
      case CompilerPanic(m) =>
        k := 2;
        FailureFinale(job, Announcement(job) + [Cleanup], SystemError, PanicText(m), None, []);
        assert log == Announcement(job) + [Cleanup] + Failure(job, SystemError, PanicText(m), None) + [];
      case CompilerError(e, comp) =>
        k := 1;
        FailureFinale(job, Announcement(job), CompilationError, e, comp, [Cleanup]);
        assert log == Announcement(job) + Failure(job, CompilationError, e, comp) + [Cleanup];
      case Tested(ran, comp) => k := PhaseFinale(job, comp, ran);
    }
  }

  /** The position of the terminal save in the trace of a job. */
  ghost function Finale(host: Host, job: Job): (k: nat)
    ensures IsFinale(Process(host, job), k, job.id)
  {
    assert exists k: nat :: IsFinale(Process(host, job), k, job.id) by {
      var c := CourseOf(host, job);
      var k := CourseFinale(job, c, Process(host, job));
    }
    var k: nat :| IsFinale(Process(host, job), k, job.id);
    k
  }

  /** The record a job ends with. */
  ghost function FinalState(host: Host, job: Job): (s: State)
    ensures Terminal(s.status) && s.id == job.id
  {
    Process(host, job)[Finale(host, job)].state
  }

  lemma FinaleIsUnique(log: seq<Effect>, i: nat, j: nat, id: string)
    requires IsFinale(log, i, id) && IsFinale(log, j, id)
    ensures i == j
  {
  }

  /** A trace with a finale, whoever produced it. */
  ghost predicate Ends(log: seq<Effect>, id: string) {
    exists k: nat :: IsFinale(log, k, id)
  }

  ghost function End(log: seq<Effect>, id: string): (k: nat)
    requires Ends(log, id)
    ensures IsFinale(log, k, id)
  {
    var k: nat :| IsFinale(log, k, id);
    k
  }

  /** The record such a trace saves last. */
  ghost function EndState(log: seq<Effect>, id: string): (s: State)
    requires Ends(log, id)
    ensures Terminal(s.status) && s.id == id
  {
    log[End(log, id)].state
  }

  lemma ProcessEnds(host: Host, job: Job)
    ensures Ends(Process(host, job), job.id)
    ensures EndState(Process(host, job), job.id) == FinalState(host, job)
  {
    var log := Process(host, job);
    assert IsFinale(log, Finale(host, job), job.id);
    FinaleIsUnique(log, Finale(host, job), End(log, job.id), job.id);
  }

  lemma FinalStateOf(host: Host, job: Job) returns (c: Course)
    ensures Follows(job, c, Process(host, job))
    ensures FinalState(host, job) == CourseState(job, c)
  {
    c := CourseOf(host, job);
    var log := Process(host, job);
    var k := CourseFinale(job, c, log);
    FinaleIsUnique(log, k, Finale(host, job), job.id);
  }

  // ---- Aggregation -------------------------------------------------------

  lemma {:induction false} AllPassed(rs: seq<TestResult>)
    ensures Passed(rs) <= |rs|
    ensures Passed(rs) == |rs| <==> forall i :: 0 <= i < |rs| ==> rs[i].verdict == Accepted
  {
    if rs == [] {
      assert PassedIndices(rs) == {};
    } else {
      var n := |rs| - 1;
      AllPassed(rs[..n]);
      PassedExtends(rs[..n], rs[n]);
      assert rs[..n] + [rs[n]] == rs;
    }
  }

  /** A COMPLETED record lists every test in order, its verdict is that of the
      first test not accepted, and it is ACCEPTED exactly when all tests passed. */
  lemma CompletedRecord(host: Host, job: Job)
    requires FinalState(host, job).status == Completed
    ensures var s := FinalState(host, job);
            && s.total == |Tests(job)| == |s.results|
            && (forall i :: 0 <= i < s.total ==>
                  s.results[i].index == i + 1 && s.results[i].testId == Tests(job)[i].id)
            && IsOverall(s.results, s.verdict)
            && s.passed == |PassedIndices(s.results)|
            && (s.verdict == Accepted <==> s.passed == s.total)
            && IsPeak(s.results, s.peakMB)
            && s.wallMs == WallSum(s.results) && s.cpuMs == CpuSum(s.results)
  {
    hide Process, PassedIndices, Phase, Failure;
    var c := FinalStateOf(host, job);
    AllPassed(c.ran.results);
  }

  // ---- Rebuilding the record from the event stream ----------------------

  /** What a client can know about a submission. */
  datatype Board = Board(
    done: bool,
    total: nat,
    compilation: Option<Compilation>,
    results: seq<TestResult>,
    passed: nat,
    verdict: Verdict,
    wallMs: real,
    cpuMs: real,
    peakMB: real)

  const BLANK := Board(false, 0, None, [], 0, Accepted, 0.0, 0.0, 0.0)

  function Tally(b: Board, r: TestResult): Board {
    b.(results := b.results + [r], wallMs := b.wallMs + r.wallMs, cpuMs := b.cpuMs + r.cpuMs,
       peakMB := if r.peakMB > b.peakMB then r.peakMB else b.peakMB)
  }

  /** A client that listens: it never looks at the totals in COMPLETED. */
  function Listen(b: Board, e: Event): Board {
    match e.status
    case Running => b.(total := e.total, compilation := e.compilation)
    case TestCasePassed => if e.result.Some? then Tally(b, e.result.value).(passed := b.passed + 1) else b
    case TestCaseFailed =>
      if e.result.Some? && e.verdict.Some? then
        Tally(b, e.result.value).(verdict := if b.verdict == Accepted then e.verdict.value else b.verdict)
      else b
    case Completed => b.(done := true)
    case _ => b
  }

  function ListenAll(evs: seq<Event>): Board {
    if evs == [] then BLANK else Listen(ListenAll(evs[..|evs| - 1]), evs[|evs| - 1])
  }

  function BoardOf(s: State): Board {
    Board(s.status == Completed, s.total, s.compilation, s.results, s.passed, s.verdict, s.wallMs, s.cpuMs, s.peakMB)
  }

  /** The client's board after the rounds that produced the given results. */
  function BoardAfter(total: nat, comp: Option<Compilation>, rs: seq<TestResult>, t: Totals): Board {
    Board(false, total, comp, rs, t.passed, t.overall, t.wall, t.cpu, t.peak)
  }

  lemma BoardStep(job: Job, total: nat, comp: Option<Compilation>, rs: seq<TestResult>, t: Totals, r: TestResult)
    ensures Listen(Listen(BoardAfter(total, comp, rs, t), StartEvent(job, |rs|)), ResultEvent(job, |rs|, r))
         == BoardAfter(total, comp, rs + [r], Extended(t, r))
  {
  }

  lemma RoundsExtend(job: Job, rs: seq<TestResult>, r: TestResult)
    ensures Events(ResultEffects(job, rs + [r]))
         == Events(ResultEffects(job, rs)) + [StartEvent(job, |rs|), ResultEvent(job, |rs|, r)]
  {
    hide StartEvent, ResultEvent;
    var start, result := Publish(StartEvent(job, |rs|)), Publish(ResultEvent(job, |rs|, r));
    assert (rs + [r])[..|rs|] == rs;
    EventsConcat(ResultEffects(job, rs), [start, result]);
    EventsOfTwo(start, result);
  }

  lemma ListenToTwo(evs: seq<Event>, a: Event, b: Event)
    ensures ListenAll(evs + [a]) == Listen(ListenAll(evs), a)
    ensures ListenAll(evs + [a, b]) == Listen(Listen(ListenAll(evs), a), b)
  {
    assert (evs + [a])[..|evs|] == evs;
    assert (evs + [a, b])[..|evs| + 1] == evs + [a];
  }

  lemma {:induction false} ListenToRounds(head: seq<Event>, job: Job, comp: Option<Compilation>, rs: seq<TestResult>)
    requires ListenAll(head) == BLANK.(total := |Tests(job)|, compilation := comp)
    ensures ListenAll(head + Events(ResultEffects(job, rs))) == BoardAfter(|Tests(job)|, comp, rs, TotalsOf(rs))
  {
    if rs == [] {
      assert head + Events(ResultEffects(job, rs)) == head;
      assert PassedIndices(rs) == {};
    } else {
      var n := |rs| - 1;
      var before, r := rs[..n], rs[n];
      assert before + [r] == rs;
      ListenToRounds(head, job, comp, before);
      RoundsExtend(job, before, r);
      var evs := Events(ResultEffects(job, before));
      var start, result := StartEvent(job, n), ResultEvent(job, n, r);
      assert head + (evs + [start, result]) == head + evs + [start, result];
      ListenToTwo(head + evs, start, result);
      BoardStep(job, |Tests(job)|, comp, before, TotalsOf(before), r);
      TotalsExtend(before, r);
    }
  }

  lemma ListenToOpening(announced: seq<Event>, running: Event)
    requires announced == [] || announced == [Bare(Compiling)]
    requires running.status == Running
    ensures ListenAll(announced + [running]) == BLANK.(total := running.total, compilation := running.compilation)
  {
    ListenToTwo([], Bare(Compiling), running);
    assert [] + [Bare(Compiling)] == [Bare(Compiling)];
    ListenToTwo(announced, running, running);
  }

  lemma ListenToEnd(announced: seq<Event>, running: Event, rounds: seq<Event>, done: Event)
    ensures ListenAll(announced + ([running] + rounds + [done]))
      == Listen(ListenAll(announced + [running] + rounds), done)
  {
    assert announced + ([running] + rounds + [done]) == announced + [running] + rounds + [done];
    ListenToTwo(announced + [running] + rounds, done, done);
  }

  lemma ListenToPhase(job: Job, comp: Option<Compilation>, ran: Ran)
    requires ran.panic.None?
    ensures var evs := Events(Announcement(job) + Phase(job, comp, ran));
            && evs != [] && evs[|evs| - 1] == CompletedEvent(job, comp, ran.results)
            && ListenAll(evs) == BoardOf(CompletedState(job, comp, ran.results))
  {
    hide Overall, Peak, WallSum, CpuSum, Passed, ResultEffects, Phase, Announcement;
    var announced: seq<Event> := if Compiles(job) then [Bare(Compiling)] else [];
    var running, rounds, done :=
      RunningEvent(job, comp), Events(ResultEffects(job, ran.results)), CompletedEvent(job, comp, ran.results);
    AnnouncementEvents(job, Phase(job, comp, ran));
    PhaseEvents(job, comp, ran);
    ListenToOpening(announced, running);
    ListenToRounds(announced + [running], job, comp, ran.results);
    ListenToEnd(announced, running, rounds, done);
  }

  /** Folding the complete event stream of a COMPLETED job rebuilds its record,
      and the totals announced by COMPLETED are the ones the client counted. */
  lemma StreamRebuildsRecord(host: Host, job: Job)
    requires FinalState(host, job).status == Completed
    ensures var s := FinalState(host, job);
            var evs := Events(Process(host, job));
            && ListenAll(evs) == BoardOf(s)
            && evs[|evs| - 1] == FinalEvent(s)
  {
    var c := FinalStateOf(host, job);
    ListenToPhase(job, c.comp, c.ran);
  }
}
