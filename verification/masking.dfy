/** Which differences between two executions a client can see. */
module Masking {
  import opened Models
  import opened Requests
  import opened Sandboxes
  import opened Worker

  /** The same reply, up to the text of an error and the output of a failed
      hidden test. */
  predicate SameVisible(t: TestCase, a: Reply<Execution>, b: Reply<Execution>) {
    match (a, b)
    case (Returns(x), Returns(y)) =>
      x == y || (t.hidden && x.verdict != Accepted && y == x.(stdout := y.stdout, stderr := y.stderr))
    case (Errs(_), Errs(_)) => true
    case (Panics(m), Panics(n)) => m == n
    case _ => false
  }

  /** A result item tells two executions apart exactly when they differ visibly. */
  lemma ItemShowsVisible(t: TestCase, i: nat, x: Execution, y: Execution)
    ensures ResultItem(t, i, x) == ResultItem(t, i, y) <==> SameVisible(t, Returns(x), Returns(y))
  {
  }

  /** The same for what Execute hands back, which may be nil. */
  predicate SameReply(t: TestCase, a: Reply<Option<Execution>>, b: Reply<Option<Execution>>) {
    match (a, b)
    case (Returns(Some(x)), Returns(Some(y))) => SameVisible(t, Returns(x), Returns(y))
    case (Returns(None), Returns(None)) => true
    case (Errs(_), Errs(_)) => true
    case (Panics(m), Panics(n)) => m == n
    case _ => false
  }

  /** Two hosts that differ only in what the tests of `job` keep hidden. */
  ghost predicate DifferOnlyHidden(g: Host, h: Host, job: Job) {
    && g.(backend := h.backend) == h
    && (forall b, ws :: g.backend(b).prepare(ws) == h.backend(b).prepare(ws))
    && (forall b, ws :: g.backend(b).compile(ws) == h.backend(b).compile(ws))
    && (forall b, i: nat, r :: i < |Tests(job)| ==>
          SameReply(Tests(job)[i], g.backend(b).execute(i, r), h.backend(b).execute(i, r)))
    && (forall b :: g.backend(b).trace == h.backend(b).trace)
  }

  /** Replies that look the same lead to the same item, or the same panic. */
  lemma SameTest(p: Sandbox, q: Sandbox, req: Request, ts: seq<TestCase>, i: nat)
    requires i < |ts| && p.trace == q.trace
    requires var r := req.(stdin := ts[i].input, expected := ts[i].expected);
             SameReply(ts[i], p.execute(i, r), q.execute(i, r))
    ensures match (Executed(p, req, ts, i), Executed(q, req, ts, i))
            case (Returns(x), Returns(y)) => ResultItem(ts[i], i, x) == ResultItem(ts[i], i, y)
            case (Panics(m), Panics(o)) => m == o
            case _ => false
  {
  }

  lemma {:induction false} SameRuns(p: Sandbox, q: Sandbox, req: Request, ts: seq<TestCase>, n: nat)
    requires n <= |ts|
    requires p.trace == q.trace
    requires forall i: nat, r :: i < |ts| ==> SameReply(ts[i], p.execute(i, r), q.execute(i, r))
    ensures RunTests(p, req, ts, n) == RunTests(q, req, ts, n)
  {
    hide SameVisible, SameReply, Executed, ResultItem;
    if n > 0 {
      SameRuns(p, q, req, ts, n - 1);
      var i := n - 1;
      var r := req.(stdin := ts[i].input, expected := ts[i].expected);
      assert SameReply(ts[i], p.execute(i, r), q.execute(i, r));
      SameTest(p, q, req, ts, i);
    }
  }

  lemma SamePhases(p: Sandbox, q: Sandbox, req: Request, job: Job, comp: Option<Compilation>)
    requires p.trace == q.trace
    requires forall i: nat, r :: i < |Tests(job)| ==> SameReply(Tests(job)[i], p.execute(i, r), q.execute(i, r))
    ensures RunPhase(p, job, req, comp) == RunPhase(q, job, req, comp)
  {
    SameRuns(p, q, req, Tests(job), |Tests(job)|);
  }

  lemma SameOn(p: Sandbox, q: Sandbox, lang: Language, job: Job, req: Request)
    requires p.prepare(WorkspaceOf(req)) == q.prepare(WorkspaceOf(req))
    requires p.compile(WorkspaceOf(req)) == q.compile(WorkspaceOf(req))
    requires p.trace == q.trace
    requires forall i: nat, r :: i < |Tests(job)| ==> SameReply(Tests(job)[i], p.execute(i, r), q.execute(i, r))
    ensures ProcessOn(p, lang, job, req) == ProcessOn(q, lang, job, req)
  {
    if p.prepare(WorkspaceOf(req)).Returns? {
      var context := p.prepare(WorkspaceOf(req)).value;
      var inP, inQ := InContext(p, context), InContext(q, context);
      assert forall i: nat, r :: i < |Tests(job)| ==> SameReply(Tests(job)[i], inP.execute(i, r), inQ.execute(i, r));
      forall comp ensures RunPhase(inP, job, req, comp) == RunPhase(inQ, job, req, comp) {
        SamePhases(inP, inQ, req, job, comp);
      }
    }
  }

  /** Hidden output never reaches the bus or the store: hosts that differ only
      there produce the same saves, the same events, in the same order. */
  lemma HiddenOutputStaysHidden(g: Host, h: Host, job: Job)
    requires DifferOnlyHidden(g, h, job)
    ensures Process(g, job) == Process(h, job)
  {
    SelectionIgnoresBehaviour(g, h, job.sandbox);
    if GetLanguage(job.language).Some? && SelectSandbox(g, job.sandbox).Some? {
      var b := SelectSandbox(g, job.sandbox).value;
      SameOn(g.backend(b), h.backend(b), GetLanguage(job.language).value, job, Normalized(JobRequest(job), g.freshId));
    }
  }

  lemma NoTestsRan(p: Sandbox, q: Sandbox, req: Request, ts: seq<TestCase>)
    ensures RunTests(p, req, ts, 0) == RunTests(q, req, ts, 0)
  {
  }

  /** A run without a panic ends with the item of its last test. */
  lemma LastTest(sb: Sandbox, req: Request, ts: seq<TestCase>, n: nat)
    requires 0 < n <= |ts| && RunTests(sb, req, ts, n).panic.None?
    ensures RunTests(sb, req, ts, n - 1).panic.None? && Executed(sb, req, ts, n - 1).Returns?
    ensures RunTests(sb, req, ts, n)
         == Ran(RunTests(sb, req, ts, n - 1).results
                + [ResultItem(ts[n - 1], n - 1, Executed(sb, req, ts, n - 1).value)], None)
  {
    hide ResultItem;
  }

  lemma LastDecides(a: seq<TestResult>, x: TestResult, b: seq<TestResult>, y: TestResult)
    ensures a + [x] == b + [y] <==> a == b && x == y
  {
    if a + [x] == b + [y] {
      assert |a + [x]| == |b + [y]|;
      assert a == (a + [x])[..|a|] && b == (b + [y])[..|b|];
      assert x == (a + [x])[|a|] && y == (b + [y])[|b|];
    }
  }

  /** The converse: when no test panics, two sandboxes give the same results
      only if no test differs visibly. */
  lemma {:induction false} OnlyHiddenDiffers(p: Sandbox, q: Sandbox, req: Request, ts: seq<TestCase>, n: nat)
    requires n <= |ts|
    requires RunTests(p, req, ts, n).panic.None? && RunTests(q, req, ts, n).panic.None?
    ensures RunTests(p, req, ts, n) == RunTests(q, req, ts, n)
       <==> forall i :: 0 <= i < n ==> SameVisible(ts[i], Executed(p, req, ts, i), Executed(q, req, ts, i))
  {
    hide ResultItem, SameVisible, Executed, RunTests;
    if n == 0 {
      NoTestsRan(p, q, req, ts);
    } else {
      LastTest(p, req, ts, n);
      LastTest(q, req, ts, n);
      OnlyHiddenDiffers(p, q, req, ts, n - 1);
      var rp, rq := RunTests(p, req, ts, n - 1).results, RunTests(q, req, ts, n - 1).results;
      var x, y := Executed(p, req, ts, n - 1).value, Executed(q, req, ts, n - 1).value;
      ItemShowsVisible(ts[n - 1], n - 1, x, y);
      LastDecides(rp, ResultItem(ts[n - 1], n - 1, x), rq, ResultItem(ts[n - 1], n - 1, y));
    }
  }
}
