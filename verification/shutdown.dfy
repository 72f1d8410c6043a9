/** When workers leave the pool, and that they stay in it otherwise, over every
    run (pkg/worker/pool.go). */
module Shutdown {
  import opened Models
  import opened Requests
  import opened Sandboxes
  import opened Worker
  import opened Pipeline
  import opened Lifecycle
  import opened Submissions

  // ---- The flags ---------------------------------------------------------

  lemma FlagsStep(p: Pipe, a: Action)
    requires Enabled(p, a)
    ensures var q := Step(p, a);
            && (q.stopping <==> p.stopping || a == RequestStop)
            && (q.cancelled <==> p.cancelled || a == CancelContext)
            && (q.stopped <==> p.stopped || a == StopReturns)
  {
    hide Process, NormalizedJob, Stored, QueuedState;
  }

  lemma ClosedStep(p: Pipe, a: Action)
    requires Enabled(p, a)
    ensures Step(p, a).queue.closed <==> p.queue.closed || a == CloseQueue
  {
    hide Process, NormalizedJob, Stored, QueuedState;
  }

  /** Stop, cancellation and closing are in force exactly once they were asked for. */
  lemma {:induction false} FlagsAreHistory(cfg: Config, acts: seq<Action>)
    requires IsRun(cfg, acts)
    ensures var p := After(cfg, acts);
            && (p.stopping <==> RequestStop in acts)
            && (p.cancelled <==> CancelContext in acts)
            && (p.queue.closed <==> CloseQueue in acts)
            && (p.stopped <==> StopReturns in acts)
  {
    hide Enabled, Step;
    if acts != [] {
      var before, a := acts[..|acts| - 1], acts[|acts| - 1];
      FlagsAreHistory(cfg, before);
      FlagsStep(After(cfg, before), a);
      ClosedStep(After(cfg, before), a);
      assert acts == before + [a];
    }
  }

  // ---- Leaving -----------------------------------------------------------

  /** In every run, a worker has left its loop only if Stop was requested, the
      context cancelled, or the queue closed and drained. */
  lemma ExitedMeansShutdown(cfg: Config, acts: seq<Action>, w: nat)
    requires IsRun(cfg, acts) && w < |After(cfg, acts).runners| && After(cfg, acts).runners[w].Exited?
    ensures var p := After(cfg, acts); p.stopping || p.cancelled || (p.queue.closed && p.queue.ch == [])
  {
    RunInv(cfg, acts);
  }

  /** While the pool is in service nobody has left it. */
  lemma NobodyLeavesInService(cfg: Config, acts: seq<Action>)
    requires IsRun(cfg, acts) && RequestStop !in acts && CancelContext !in acts
    requires CloseQueue !in acts || After(cfg, acts).queue.ch != []
    ensures |After(cfg, acts).runners| == cfg.concurrency
    ensures forall w :: 0 <= w < cfg.concurrency ==> !After(cfg, acts).runners[w].Exited?
  {
    hide IsRun, After;
    FlagsAreHistory(cfg, acts);
    ActiveJobsIsLoad(cfg, acts);
    forall w | 0 <= w < cfg.concurrency ensures !After(cfg, acts).runners[w].Exited? {
      if After(cfg, acts).runners[w].Exited? {
        ExitedMeansShutdown(cfg, acts, w);
        assert false;
      }
    }
  }

  lemma ExitStep(p: Pipe, a: Action, w: nat)
    requires Enabled(p, a) && w < |p.runners|
    ensures |Step(p, a).runners| == |p.runners|
    ensures Step(p, a).runners[w].Exited? <==> p.runners[w].Exited? || a == Leave(w) || a == PollFails(w)
  {
    hide Process, Enabled, Step;
    RunnersStep(p, a);
  }

  lemma PoolIsIdleAtFirst(cfg: Config)
    ensures forall w :: 0 <= w < |Init(cfg).runners| ==> Init(cfg).runners[w].Idle?
  {
  }

  /** A worker has left its loop exactly if it saw the stop, or its Dequeue failed:
      a poll that runs out never ends it. */
  lemma {:induction false} ExitedExactly(cfg: Config, acts: seq<Action>, w: nat)
    requires IsRun(cfg, acts) && w < |After(cfg, acts).runners|
    ensures After(cfg, acts).runners[w].Exited? <==> Leave(w) in acts || PollFails(w) in acts
  {
    hide Enabled, Step, Init;
    if acts == [] {
      PoolIsIdleAtFirst(cfg);
    } else {
      var before, a := acts[..|acts| - 1], acts[|acts| - 1];
      RunnersStep(After(cfg, before), a);
      ExitedExactly(cfg, before, w);
      ExitStep(After(cfg, before), a, w);
      assert acts == before + [a];
    }
  }

  // ---- Going on ----------------------------------------------------------

  /** At the top of its loop a worker leaves exactly if it is told to, else it polls. */
  lemma IdleChoice(p: Pipe, w: nat)
    requires w < |p.runners| && p.runners[w].Idle?
    ensures Enabled(p, Leave(w)) <==> p.stopping || p.cancelled
    ensures Enabled(p, Poll(w)) <==> !(p.stopping || p.cancelled)
    ensures forall a :: Enabled(p, a) && ByRunner(a) && a.w == w ==> a == Leave(w) || a == Poll(w)
  {
    hide Process;
  }

  /** A poll may run out at any time; it fails exactly if the context is cancelled or
      the queue is closed and drained; it succeeds exactly with the head. */
  lemma PollingChoice(p: Pipe, w: nat, job: Job, host: Host)
    requires w < |p.runners| && p.runners[w].Polling?
    ensures Enabled(p, PollTimeout(w)) && Step(p, PollTimeout(w)).runners[w].Idle?
    ensures Enabled(p, PollFails(w)) <==> p.cancelled || (p.queue.closed && p.queue.ch == [])
    ensures Enabled(p, Dequeue(w, job, host)) <==> p.queue.ch != [] && p.queue.ch[0] == job
  {
    hide Process;
  }

  /** While the pool is in service, a worker between two jobs can take the head of
      the queue in at most two steps. */
  lemma HeadCanBeTaken(cfg: Config, acts: seq<Action>, w: nat, host: Host) returns (more: seq<Action>)
    requires IsRun(cfg, acts)
    requires var p := After(cfg, acts);
             && !p.stopping && !p.cancelled && p.queue.ch != []
             && w < |p.runners| && (p.runners[w].Idle? || p.runners[w].Polling?)
    ensures |more| <= 2 && IsRun(cfg, acts + more)
    ensures var job := After(cfg, acts).queue.ch[0];
            && After(cfg, acts + more).runners != [] && w < |After(cfg, acts + more).runners|
            && After(cfg, acts + more).runners[w] == Fetched(job, Process(host, job))
            && After(cfg, acts + more).queue.ch == After(cfg, acts).queue.ch[1..]
  {
    hide IsRun, After, Process;
    var p := After(cfg, acts);
    var job := p.queue.ch[0];
    more := [];
    if p.runners[w].Idle? {
      RunExtends(cfg, acts, Poll(w));
      more := [Poll(w)];
    }
    assert acts + [] == acts;
    var q := After(cfg, acts + more);
    RunExtends(cfg, acts + more, Dequeue(w, job, host));
    assert acts + (more + [Dequeue(w, job, host)]) == acts + more + [Dequeue(w, job, host)];
    more := more + [Dequeue(w, job, host)];
  }

  ghost predicate WithinLog(r: Runner) { r.Busy? ==> r.pc <= |r.log| }

  lemma {:induction false} WorkersStayWithinLog(cfg: Config, acts: seq<Action>, w: nat)
    requires IsRun(cfg, acts) && w < |After(cfg, acts).runners|
    ensures WithinLog(After(cfg, acts).runners[w])
  {
    hide Enabled, Step, Init, Process;
    if acts == [] {
      PoolIsIdleAtFirst(cfg);
    } else {
      var before, a := acts[..|acts| - 1], acts[|acts| - 1];
      RunnersStep(After(cfg, before), a);
      WorkersStayWithinLog(cfg, before, w);
    }
  }

  /** No worker is ever stuck: in every reachable state each one that has not left
      its loop can take a step. */
  lemma WorkerGoesOn(cfg: Config, acts: seq<Action>, w: nat) returns (a: Action)
    requires IsRun(cfg, acts) && w < |After(cfg, acts).runners| && !After(cfg, acts).runners[w].Exited?
    ensures Enabled(After(cfg, acts), a) && ByRunner(a) && a.w == w
  {
    hide IsRun, After, Process, NormalizedJob;
    var p := After(cfg, acts);
    WorkersStayWithinLog(cfg, acts, w);
    match p.runners[w] {
      case Idle => a := if p.stopping || p.cancelled then Leave(w) else Poll(w);
      case Polling => a := PollTimeout(w);
      case Fetched(_, _) => a := CountActive(w);
      case Counted(_, _) => a := CountTotal(w);
      case Busy(job, log, pc) => a := if pc < |log| then Act(w, job.id, log[pc]) else Finish(w);
    }
  }

  // ---- Stopping ----------------------------------------------------------

  /** How far a worker is from the end of its loop once Stop is requested. */
  function Stage(r: Runner): nat {
    match r
    case Polling => 3
    case Idle => 1
    case Exited => 0
    case _ => 2
  }

  /** How far it is from the end of its job. */
  function Left(r: Runner): int {
    match r
    case Fetched(_, log) => |log| + 2
    case Counted(_, log) => |log| + 1
    case Busy(_, log, pc) => |log| - pc
    case _ => 0
  }

  /** After Stop is requested every step of a worker brings it closer to its end, and
      nothing else moves it: it finishes the job it has, takes one more at most, and
      leaves. */
  lemma StoppingWorkersEnd(p: Pipe, a: Action, w: nat)
    requires Enabled(p, a) && p.stopping && w < |p.runners|
    ensures |Step(p, a).runners| == |p.runners|
    ensures var r, s := p.runners[w], Step(p, a).runners[w];
            if ByRunner(a) && a.w == w then Stage(s) < Stage(r) || (Stage(s) == Stage(r) && Left(s) < Left(r))
            else s == r
  {
    hide Process, Enabled, Step;
    RunnersStep(p, a);
  }
}
