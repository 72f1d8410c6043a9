/** Runs that exist: every submission can be carried through, and every
    submission can leave a client waiting. */
module Scenarios {
  import opened Models
  import opened Requests
  import opened Sandboxes
  import opened Worker
  import opened Outcomes
  import opened Pipeline
  import Submissions
  import Topics
  import Traces
  import Lifecycle
  import Buses
  import G = Gateway
  import Finales

  // ---- The pipeline ------------------------------------------------------

  lemma TakeStep(cfg: Config, acts: seq<Action>, p: Pipe, a: Action, q: Pipe)
    requires IsRun(cfg, acts) && After(cfg, acts) == p && Enabled(p, a) && Step(p, a) == q
    ensures IsRun(cfg, acts + [a]) && After(cfg, acts + [a]) == q
  {
    hide Enabled, Step;
    RunExtends(cfg, acts, a);
  }

  /** A job on its way into the queue. */
  function Entry(job: Job): seq<Action> {
    [Arrive(0), SaveQueued(0, job), CheckOpen(0), Send(0, job)]
  }

  /** A job alone in the queue of an idle pool. */
  ghost predicate Alone(p: Pipe, job: Job) {
    p.queue.ch == [job] && p.runners != [] && p.runners[0] == Idle && !p.stopping && !p.cancelled
  }

  lemma StartsEmpty(cfg: Config)
    ensures IsRun(cfg, []) && After(cfg, []) == Init(cfg)
  {
  }

  lemma Enter(cfg: Config, job: Job)
    requires Configured(cfg)
    ensures IsRun(cfg, Entry(job)) && Alone(After(cfg, Entry(job)), NormalizedJob(job))
    ensures HandlerIs(After(cfg, Entry(job)), 0, Enqueued(job.id))
    ensures IsRun(cfg, Entry(job)[..2]) && job.id in After(cfg, Entry(job)[..2]).store
    ensures After(cfg, Entry(job)[..2]).store[job.id].status == Queued
  {
    hide NormalizedJob, Process, IsRun, After;
    ConfiguredIsPositive(cfg);
    StartsEmpty(cfg);
    var p0 := Init(cfg);
    var p1 := SetHandler(p0, 0, Admitted);
    var p2 := Accept(p1, 0, job);
    var p3 := SetHandler(p2, 0, Sending(job));
    var a1 := [] + [Arrive(0)];
    var a2 := a1 + [SaveQueued(0, job)];
    var a3 := a2 + [CheckOpen(0)];
    TakeStep(cfg, [], p0, Arrive(0), p1);
    TakeStep(cfg, a1, p1, SaveQueued(0, job), p2);
    TakeStep(cfg, a2, p2, CheckOpen(0), p3);
    TakeStep(cfg, a3, p3, Send(0, job), Append(p3, 0, job));
    assert a3 + [Send(0, job)] == Entry(job) && Entry(job)[..2] == a2;
  }

  function Pickup(job: Job, host: Host): seq<Action> {
    [Poll(0), Dequeue(0, NormalizedJob(job), host), CountActive(0), CountTotal(0)]
  }

  lemma Pick(cfg: Config, acts: seq<Action>, job: Job, host: Host)
    requires IsRun(cfg, acts) && Alone(After(cfg, acts), NormalizedJob(job))
    ensures IsRun(cfg, acts + Pickup(job, host)) && After(cfg, acts + Pickup(job, host)).runners != []
    ensures After(cfg, acts + Pickup(job, host)).runners[0]
         == Busy(NormalizedJob(job), Process(host, NormalizedJob(job)), 0)
    ensures After(cfg, acts + Pickup(job, host)).handlers == After(cfg, acts).handlers
  {
    hide NormalizedJob, Process, IsRun, After;
    var j, log := NormalizedJob(job), Process(host, NormalizedJob(job));
    var p := After(cfg, acts);
    var p1 := SetRunner(p, 0, Polling);
    var p2 := Take(p1, 0, j, log);
    var p3 := SetRunner(p2, 0, Counted(j, log)).(active := p2.active + 1);
    var p4 := SetRunner(p3, 0, Busy(j, log, 0)).(total := p3.total + 1);
    var a1 := acts + [Poll(0)];
    var a2 := a1 + [Dequeue(0, j, host)];
    var a3 := a2 + [CountActive(0)];
    TakeStep(cfg, acts, p, Poll(0), p1);
    TakeStep(cfg, a1, p1, Dequeue(0, j, host), p2);
    TakeStep(cfg, a2, p2, CountActive(0), p3);
    TakeStep(cfg, a3, p3, CountTotal(0), p4);
    assert a3 + [CountTotal(0)] == acts + Pickup(job, host);
  }

  function Acts(w: nat, id: string, log: seq<Effect>): seq<Action> {
    seq(|log|, i requires 0 <= i < |log| => Act(w, id, log[i]))
  }

  /** A worker that has carried out k effects. */
  ghost predicate Working(p: Pipe, job: Job, log: seq<Effect>, k: nat) {
    p.runners != [] && p.runners[0] == Busy(job, log, k)
  }

  /** Nothing stands in the way of a worker carrying out its effects. */
  lemma {:induction false} PlayOut(cfg: Config, acts: seq<Action>, job: Job, log: seq<Effect>, from: nat, k: nat)
    requires IsRun(cfg, acts) && Working(After(cfg, acts), job, log, from) && from <= k <= |log|
    ensures IsRun(cfg, acts + Acts(0, job.id, log[from..k]))
    ensures Working(After(cfg, acts + Acts(0, job.id, log[from..k])), job, log, k)
    ensures After(cfg, acts + Acts(0, job.id, log[from..k])).handlers == After(cfg, acts).handlers
  {
    hide Process, NormalizedJob, IsRun, After;
    if k == from {
      assert acts + Acts(0, job.id, log[from..k]) == acts;
    } else {
      PlayOut(cfg, acts, job, log, from, k - 1);
      var before := acts + Acts(0, job.id, log[from..k - 1]);
      var p := After(cfg, before);
      TakeStep(cfg, before, p, Act(0, job.id, log[k - 1]), Carry(p, 0));
      assert acts + Acts(0, job.id, log[from..k]) == before + [Act(0, job.id, log[k - 1])];
    }
  }

  function FullRun(job: Job, host: Host): seq<Action> {
    Entry(job) + Pickup(job, host) + Acts(0, job.id, Process(host, NormalizedJob(job)))
  }

  lemma FinishedRunner(p: Pipe, g: Lifecycle.Tracks, job: Job, log: seq<Effect>)
    requires Lifecycle.Inv(p, g) && p.runners != [] && p.runners[0] == Busy(job, log, |log|) && Ends(log, job.id)
    ensures job.id in p.store && p.store[job.id] == EndState(log, job.id)
  {
    hide Lifecycle.HandlersOk, Lifecycle.QueueOk, Lifecycle.PoolOk, Lifecycle.RunnersOk, NormalizedJob;
    assert Lifecycle.RecordOk(p.store, p.runners[0]);
    assert IsFinale(log, End(log, job.id), job.id);
  }

  /** Every job on every host has a run that carries it through. */
  lemma EverySubmissionCanFinish(cfg: Config, job: Job, host: Host)
    requires Configured(cfg)
    ensures IsRun(cfg, FullRun(job, host)) && job.id in After(cfg, FullRun(job, host)).store
    ensures After(cfg, FullRun(job, host)).store[job.id] == FinalState(host, NormalizedJob(job))
  {
    hide NormalizedJob, Process, IsRun, After, Enabled, Step, Alone;
    var j := NormalizedJob(job);
    var log := Process(host, j);
    Enter(cfg, job);
    Pick(cfg, Entry(job), job, host);
    PlayOut(cfg, Entry(job) + Pickup(job, host), j, log, 0, |log|);
    Submissions.NormalizedKeepsId(job);
    assert log[0..|log|] == log;
    var run := FullRun(job, host);
    ProcessEnds(host, j);
    Submissions.RunInv(cfg, run);
    FinishedRunner(After(cfg, run), Submissions.TracksOf(cfg, run), j, log);
  }

  // ---- Where QUEUED may come ---------------------------------------------

  /** The same run, with the handler's QUEUED after the first k effects. */
  function LateAnnouncement(job: Job, host: Host, k: nat): seq<Action>
    requires k <= |Process(host, NormalizedJob(job))|
  {
    var log := Process(host, NormalizedJob(job));
    Entry(job) + Pickup(job, host) + Acts(0, job.id, log[..k]) + [Announce(0, job.id)] + Acts(0, job.id, log[k..])
  }

  lemma {:induction false} ActsPublish(w: nat, id: string, log: seq<Effect>)
    ensures Topics.TopicEvents(Acts(w, id, log), id) == Traces.Events(log)
  {
    if log != [] {
      var n := |log| - 1;
      ActsPublish(w, id, log[..n]);
      assert Acts(w, id, log)[..n] == Acts(w, id, log[..n]);
    }
  }

  lemma {:induction false} QuietActions(acts: seq<Action>, id: string)
    requires forall i :: 0 <= i < |acts| ==> !acts[i].Announce? && !acts[i].Act?
    ensures Topics.TopicEvents(acts, id) == []
  {
    if acts != [] {
      QuietActions(acts[..|acts| - 1], id);
    }
  }

  lemma LateAnnouncementRuns(cfg: Config, job: Job, host: Host, k: nat)
    requires Configured(cfg) && k <= |Process(host, NormalizedJob(job))|
    ensures IsRun(cfg, LateAnnouncement(job, host, k))
  {
    hide NormalizedJob, Process, IsRun, After, Alone;
    var j := NormalizedJob(job);
    var log := Process(host, j);
    Submissions.NormalizedKeepsId(job);
    Enter(cfg, job);
    Pick(cfg, Entry(job), job, host);
    var start := Entry(job) + Pickup(job, host);
    PlayOut(cfg, start, j, log, 0, k);
    assert log[0..k] == log[..k] && log[k..|log|] == log[k..];
    var early := start + Acts(0, job.id, log[..k]);
    var p := After(cfg, early);
    TakeStep(cfg, early, p, Announce(0, job.id), SetHandler(p, 0, Answered(job.id)));
    PlayOut(cfg, early + [Announce(0, job.id)], j, log, k, |log|);
  }

  /** QUEUED may come anywhere on the stream: for every job, every host and every
      point of the trace some run publishes it there. */
  lemma QueuedComesAnywhere(cfg: Config, job: Job, host: Host, k: nat)
    requires Configured(cfg) && k <= |Process(host, NormalizedJob(job))|
    ensures var log := Process(host, NormalizedJob(job));
            && IsRun(cfg, LateAnnouncement(job, host, k))
            && Topics.TopicEvents(LateAnnouncement(job, host, k), job.id)
               == Traces.Events(log[..k]) + [Bare(Queued)] + Traces.Events(log[k..])
  {
    hide NormalizedJob, Process, IsRun, After, Enabled, Step, Alone, Working, Topics.TopicEvents;
    LateAnnouncementRuns(cfg, job, host, k);
    var log := Process(host, NormalizedJob(job));
    var start, early, late := Entry(job) + Pickup(job, host), Acts(0, job.id, log[..k]), Acts(0, job.id, log[k..]);
    QuietActions(start, job.id);
    ActsPublish(0, job.id, log[..k]);
    ActsPublish(0, job.id, log[k..]);
    Topics.OneAction(Announce(0, job.id), job.id);
    Topics.TopicConcat(start + early + [Announce(0, job.id)], late, job.id);
    Topics.TopicConcat(start + early, [Announce(0, job.id)], job.id);
    Topics.TopicConcat(start, early, job.id);
  }

  // ---- A refused submission ----------------------------------------------

  /** Every submission can be turned away, by a queue that is closed meanwhile. */
  lemma EverySubmissionCanBeRefused(cfg: Config, job: Job) returns (acts: seq<Action>)
    requires Configured(cfg)
    ensures IsRun(cfg, acts) && Submissions.At(After(cfg, acts), job.id, Submissions.TurnedAway(0))
  {
    hide NormalizedJob, Process, IsRun, After, QueuedState;
    ConfiguredIsPositive(cfg);
    StartsEmpty(cfg);
    var p0 := Init(cfg);
    var p1 := SetHandler(p0, 0, Admitted);
    var p2 := Accept(p1, 0, job);
    var p3 := p2.(queue := p2.queue.(closed := true));
    TakeStep(cfg, [], p0, Arrive(0), p1);
    TakeStep(cfg, [] + [Arrive(0)], p1, SaveQueued(0, job), p2);
    TakeStep(cfg, [] + [Arrive(0)] + [SaveQueued(0, job)], p2, CloseQueue, p3);
    acts := [] + [Arrive(0)] + [SaveQueued(0, job)] + [CloseQueue];
    TakeStep(cfg, acts, p3, CheckOpen(0), SetHandler(p3, 0, Refused(job.id)));
    acts := acts + [CheckOpen(0)];
  }

  // ---- The whole system --------------------------------------------------

  function Lift(acts: seq<Action>): seq<G.Move> {
    seq(|acts|, i requires 0 <= i < |acts| => G.Backend(acts[i]))
  }

  lemma Grow(cfg: Config, ms: seq<G.Move>, m: G.Move)
    requires G.Feasible(cfg, ms) && G.Can(G.Reached(cfg, ms), m)
    ensures G.Feasible(cfg, ms + [m]) && G.Reached(cfg, ms + [m]) == G.Next(G.Reached(cfg, ms), m)
  {
    hide G.Can, G.Next;
    assert (ms + [m])[..|ms|] == ms;
  }

  lemma StaysOpenFor(b: Buses.Bus, a: Action)
    ensures G.NextBus(b, G.Backend(a)).closed == b.closed
    ensures G.Publication(a).None? ==> G.NextBus(b, G.Backend(a)) == b
  {
  }

  lemma LastIsEnabled(cfg: Config, acts: seq<Action>, a: Action, run: seq<Action>)
    requires IsRun(cfg, run) && run == acts + [a]
    ensures IsRun(cfg, acts) && Enabled(After(cfg, acts), a)
  {
    hide Enabled, Step;
    assert run[..|run| - 1] == acts;
  }

  /** A run of the pipeline is a run of the system in which readers stand still. */
  lemma {:induction false} LiftRun(cfg: Config, ms: seq<G.Move>, acts: seq<Action>)
    requires G.Feasible(cfg, ms) && IsRun(cfg, G.PipeOps(ms) + acts)
    ensures G.Feasible(cfg, ms + Lift(acts)) && G.PipeOps(ms + Lift(acts)) == G.PipeOps(ms) + acts
    ensures G.Reached(cfg, ms + Lift(acts)).readers == G.Reached(cfg, ms).readers
    ensures G.Reached(cfg, ms + Lift(acts)).bus.closed == G.Reached(cfg, ms).bus.closed
    ensures (forall i :: 0 <= i < |acts| ==> G.Publication(acts[i]).None?) ==>
              G.Reached(cfg, ms + Lift(acts)).bus == G.Reached(cfg, ms).bus
  {
    hide Enabled, Step, G.Feasible, G.Reached, After, IsRun, G.NextBus, G.NextPipe;
    if acts == [] {
      assert ms + Lift(acts) == ms && G.PipeOps(ms) + acts == G.PipeOps(ms);
    } else {
      var n := |acts| - 1;
      var earlier, a := acts[..n], acts[n];
      var run := G.PipeOps(ms) + acts;
      assert run == G.PipeOps(ms) + earlier + [a];
      LastIsEnabled(cfg, G.PipeOps(ms) + earlier, a, run);
      LiftRun(cfg, ms, earlier);
      var so := ms + Lift(earlier);
      G.RunsProject(cfg, so);
      Grow(cfg, so, G.Backend(a));
      assert ms + Lift(acts) == so + [G.Backend(a)];
      assert (so + [G.Backend(a)])[..|so|] == so;
      StaysOpenFor(G.Reached(cfg, so).bus, a);
    }
  }

  /** Where the terminal event is in the run of a job. */
  lemma FullRunEnds(job: Job, host: Host) returns (p: nat)
    ensures 2 <= p < |FullRun(job, host)|
    ensures Finales.Ending(G.Backend(FullRun(job, host)[p]), job.id)
  {
    hide NormalizedJob, Process;
    var j := NormalizedJob(job);
    Submissions.NormalizedKeepsId(job);
    ProcessEnds(host, j);
    var log := Process(host, j);
    p := 8 + End(log, job.id) + 1;
    assert IsFinale(log, End(log, job.id), job.id);
    assert FullRun(job, host)[p] == Act(0, job.id, log[End(log, job.id) + 1]);
  }

  lemma StartOfFullRun(job: Job, host: Host)
    ensures FullRun(job, host)[..2] == Entry(job)[..2]
  {
    hide NormalizedJob, Process;
  }

  lemma ConnectAndCheck(cfg: Config, ms: seq<G.Move>, id: string)
    requires G.Feasible(cfg, ms) && G.Reached(cfg, ms).readers == map[] && !G.Settled(G.Reached(cfg, ms).pipe.store, id)
    ensures var more := ms + [G.Connect(0, id)] + [G.Check(0, true)];
            && G.Feasible(cfg, more) && G.PipeOps(more) == G.PipeOps(ms)
            && G.Reached(cfg, more).readers == map[0 := G.Reader(id, G.Checked, [])]
            && G.Reached(cfg, more).bus == G.Reached(cfg, ms).bus
  {
    hide Enabled, Step, G.Feasible, G.Reached, G.Settled, FinalEvent;
    Grow(cfg, ms, G.Connect(0, id));
    var one := ms + [G.Connect(0, id)];
    Grow(cfg, one, G.Check(0, true));
    var two := one + [G.Check(0, true)];
    assert one[..|ms|] == ms && two[..|one|] == one;
  }

  /** A client connects and reads the store as soon as the record is saved. */
  lemma Watch(cfg: Config, job: Job) returns (ms: seq<G.Move>)
    requires Configured(cfg)
    ensures G.Feasible(cfg, ms) && G.PipeOps(ms) == Entry(job)[..2]
    ensures G.Reached(cfg, ms).readers == map[0 := G.Reader(job.id, G.Checked, [])]
    ensures !G.Reached(cfg, ms).bus.closed
  {
    hide IsRun, After, Enabled, Step, NormalizedJob, Alone;
    Enter(cfg, job);
    var start := Entry(job)[..2];
    assert G.PipeOps([]) + start == start && [] + Lift(start) == Lift(start);
    LiftRun(cfg, [], start);
    ms := Lift(start);
    G.RunsProject(cfg, ms);
    ConnectAndCheck(cfg, ms, job.id);
    ms := ms + [G.Connect(0, job.id)] + [G.Check(0, true)];
  }

  lemma OpenAfterAttach(b: Buses.Bus, m: G.Move)
    requires m.Attach?
    ensures G.NextBus(b, m).closed == b.closed
  {
  }

  /** The submission ends while the client is between check and subscription. */
  lemma FinishUnseen(cfg: Config, job: Job, host: Host) returns (ms: seq<G.Move>, p: nat)
    requires Configured(cfg)
    ensures G.Feasible(cfg, ms) && p < |ms| && Finales.Ending(ms[p], job.id)
    ensures var s := G.Reached(cfg, ms);
            && s.readers == map[0 := G.Reader(job.id, G.Checked, [])]
            && !s.bus.closed && G.Settled(s.pipe.store, job.id)
  {
    hide Enabled, Step, IsRun, After, G.Feasible, G.Reached, Finales.Ending, FullRun, G.PipeOps, FinalState,
      NormalizedJob;
    var acts := FullRun(job, host);
    EverySubmissionCanFinish(cfg, job, host);
    var k := FullRunEnds(job, host);
    StartOfFullRun(job, host);
    var rest := acts[2..];
    assert acts[..2] + rest == acts;
    var start := Watch(cfg, job);
    LiftRun(cfg, start, rest);
    ms, p := start + Lift(rest), |start| + (k - 2);
    assert ms[p] == G.Backend(rest[k - 2]);
    G.RunsProject(cfg, ms);
  }

  /** The window is real: for every job on every host there is a run that ends
      with the record terminal, the bus open, and a connected client that has
      not been sent the terminal event and never will be. */
  lemma EveryJobCanLeaveAClientWaiting(cfg: Config, job: Job, host: Host) returns (ms: seq<G.Move>, p: nat)
    requires Configured(cfg)
    ensures G.Feasible(cfg, ms) && p < |ms| && Finales.Ending(ms[p], job.id)
    ensures var s := G.Reached(cfg, ms);
            && 0 in s.readers && s.readers[0].id == job.id && s.readers[0].phase.Streaming? && !s.bus.closed
            && Finales.Hopeless(s, 0) && G.Settled(s.pipe.store, job.id)
  {
    hide Enabled, Step, G.Feasible, G.Reached, Finales.Ending, Finales.HasTerminal, Buses.Apply, G.Settled, G.NextBus;
    ms, p := FinishUnseen(cfg, job, host);
    Grow(cfg, ms, G.Attach(0, job.id));
    Finales.AttachIsQuiet(G.Reached(cfg, ms).bus, G.Attach(0, job.id));
    OpenAfterAttach(G.Reached(cfg, ms).bus, G.Attach(0, job.id));
    ms := ms + [G.Attach(0, job.id)];
  }
}
