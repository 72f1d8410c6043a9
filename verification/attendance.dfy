/** Every job can be followed to its end: a run in which a client subscribes
    before the job is taken and is sent every event as it is published. */
module Attendance {
  import opened Models
  import opened Requests
  import opened Sandboxes
  import opened Worker
  import opened Outcomes
  import opened Gateway
  import opened Clients
  import Delivery
  import Lifecycle
  import Listeners
  import Pipeline
  import Scenarios
  import Submissions
  import Topics
  import Buses

  // ---- The bus -----------------------------------------------------------

  /** The client's channel, open and empty. */
  ghost predicate Drained(b: Buses.Bus, c: nat, id: string) {
    Buses.Inv(b) && Subscribed(b, c, id) && !b.closed && b.chans[c].buf == []
  }

  lemma Reaches(b: Buses.Bus, c: nat, id: string, e: Event)
    requires Drained(b, c, id)
    ensures Buses.Enters(b, Buses.Publish(id, e), c)
  {
    assert Buses.GoodChan(b, c);
  }

  lemma StaysOpenWhileUsed(b: Buses.Bus, op: Buses.Op)
    requires !op.Close?
    ensures Buses.Apply(b, op).closed == b.closed
  {
  }

  /** An event that is published, and received at once, leaves it so. */
  lemma PublishThenReceive(b: Buses.Bus, c: nat, id: string, e: Event)
    requires Drained(b, c, id)
    ensures var there := Buses.Apply(b, Buses.Publish(id, e));
            && c < |there.chans| && there.chans[c].buf == [e]
            && Drained(Buses.Apply(there, Buses.Receive(c)), c, id)
  {
    hide Buses.Inv, Buses.Apply;
    var there := Buses.Apply(b, Buses.Publish(id, e));
    Reaches(b, c, id, e);
    Buses.ApplyKeepsInv(b, Buses.Publish(id, e));
    Buses.ApplyKeepsInv(there, Buses.Receive(c));
    SubscribedStays(b, Buses.Publish(id, e), c, id);
    SubscribedStays(there, Buses.Receive(c), c, id);
    Buses.ChanStep(b, Buses.Publish(id, e), c);
    Buses.ChanStep(there, Buses.Receive(c), c);
    StaysOpenWhileUsed(b, Buses.Publish(id, e));
    StaysOpenWhileUsed(there, Buses.Receive(c));
  }

  // ---- One effect --------------------------------------------------------

  /** The worker has carried out k effects of its trace, and the client has been
      sent every event among them. */
  ghost predicate Attending(s: Sys, job: Job, log: seq<Effect>, k: nat, c: nat) {
    && Ends(log, job.id) && Scenarios.Working(s.pipe, job, log, k) && Drained(s.bus, c, job.id)
    && 0 in s.readers && s.readers[0].id == job.id
    && s.readers[0].phase == if k > End(log, job.id) + 1 then Closing(c) else Streaming(c)
  }

  /** Which effects publish, and which of them the terminal event. */
  lemma PublishesUpToEnd(log: seq<Effect>, k: nat, id: string)
    requires Ends(log, id) && k < |log|
    ensures log[k].Publish? ==> k <= End(log, id) + 1 && (Terminal(log[k].event.status) <==> k == End(log, id) + 1)
    ensures !log[k].Publish? ==> k != End(log, id) + 1
  {
    var n := End(log, id);
    assert IsFinale(log, n, id) && Concludes(log, n, id);
    if k < n {
      assert Quiet(log[k], id);
    }
  }

  lemma CarryOn(p: Pipeline.Pipe, job: Job, log: seq<Effect>, k: nat)
    requires Scenarios.Working(p, job, log, k) && k < |log|
    ensures Pipeline.Enabled(p, Pipeline.Act(0, job.id, log[k]))
    ensures Scenarios.Working(Pipeline.Step(p, Pipeline.Act(0, job.id, log[k])), job, log, k + 1)
  {
    hide Process, NormalizedJob;
  }

  lemma AttendStep(cfg: Pipeline.Config, ms: seq<Move>, job: Job, log: seq<Effect>, k: nat, c: nat)
    returns (more: seq<Move>)
    requires Feasible(cfg, ms) && Attending(Reached(cfg, ms), job, log, k, c) && k < |log|
    ensures Feasible(cfg, more) && ms <= more && Attending(Reached(cfg, more), job, log, k + 1, c)
    ensures PipeOps(more) == PipeOps(ms) + [Pipeline.Act(0, job.id, log[k])]
  {
    hide Feasible, Reached, Pipeline.Enabled, Pipeline.Step, Scenarios.Working, Drained, Buses.Apply, PipeOps,
      FinalEvent;
    var s, a := Reached(cfg, ms), Pipeline.Act(0, job.id, log[k]);
    CarryOn(s.pipe, job, log, k);
    PublishesUpToEnd(log, k, job.id);
    Scenarios.Grow(cfg, ms, Backend(a));
    more := ms + [Backend(a)];
    OpsConcat(ms, [Backend(a)]);
    Delivery.OneOp(Backend(a));
    if log[k].Publish? {
      PublishThenReceive(s.bus, c, job.id, log[k].event);
      Scenarios.Grow(cfg, more, Forward(0, c, true));
      OpsConcat(more, [Forward(0, c, true)]);
      Delivery.OneOp(Forward(0, c, true));
      more := more + [Forward(0, c, true)];
    }
  }

  /** All effects, one after the other. */
  lemma {:induction false} AttendAll(cfg: Pipeline.Config, ms: seq<Move>, job: Job, log: seq<Effect>, k: nat, c: nat)
    returns (more: seq<Move>)
    requires Feasible(cfg, ms) && Attending(Reached(cfg, ms), job, log, 0, c) && k <= |log|
    ensures Feasible(cfg, more) && ms <= more && Attending(Reached(cfg, more), job, log, k, c)
    ensures PipeOps(ms) <= PipeOps(more)
  {
    hide Feasible, Reached, Attending, PipeOps;
    more := ms;
    if k > 0 {
      more := AttendAll(cfg, ms, job, log, k - 1, c);
      more := AttendStep(cfg, more, job, log, k - 1, c);
    }
  }

  // ---- The run -----------------------------------------------------------

  lemma FreshChannel(b: Buses.Bus, id: string)
    requires Buses.Inv(b) && !b.closed
    ensures Drained(Buses.Apply(b, Buses.Subscribe(id)), |b.chans|, id)
  {
    Buses.SubscribeKeepsInv(b, Buses.Subscribe(id));
  }

  /** The client subscribes while the record is saved and the job not yet queued. */
  lemma SubscribeEarly(cfg: Pipeline.Config, job: Job) returns (ms: seq<Move>, c: nat)
    requires Pipeline.Configured(cfg)
    ensures Feasible(cfg, ms) && PipeOps(ms) == Scenarios.Entry(job)[..2]
    ensures |ms| > 0 && ms[|ms| - 1] == Attach(0, job.id) && PipeOps(ms[..|ms| - 1]) == Scenarios.Entry(job)[..2]
    ensures var s := Reached(cfg, ms);
            s.readers == map[0 := Reader(job.id, Streaming(c), [])] && Drained(s.bus, c, job.id)
  {
    hide Feasible, Reached, Pipeline.Enabled, Pipeline.Step, Scenarios.Entry, PipeOps, FinalEvent;
    var start := Scenarios.Watch(cfg, job);
    var m := Attach(0, job.id);
    BusInv(cfg, start);
    c := |Reached(cfg, start).bus.chans|;
    Scenarios.Grow(cfg, start, m);
    OpsConcat(start, [m]);
    Delivery.OneOp(m);
    ms := start + [m];
    assert ms[..|ms| - 1] == start;
    FreshChannel(Reached(cfg, start).bus, job.id);
  }

  /** What happens to a job from its save until a worker has it; nothing of it is
      published. */
  lemma WayIn(cfg: Pipeline.Config, job: Job, host: Host) returns (rest: seq<Pipeline.Action>)
    requires Pipeline.Configured(cfg)
    ensures var all := Scenarios.Entry(job) + Scenarios.Pickup(job, host);
            && Scenarios.Entry(job)[..2] + rest == all && Pipeline.IsRun(cfg, all)
            && Scenarios.Working(Pipeline.After(cfg, all), NormalizedJob(job), Process(host, NormalizedJob(job)), 0)
    ensures forall i :: 0 <= i < |rest| ==> Publication(rest[i]).None?
  {
    hide Process, NormalizedJob, Pipeline.IsRun, Pipeline.After, Scenarios.Alone;
    Scenarios.Enter(cfg, job);
    Scenarios.Pick(cfg, Scenarios.Entry(job), job, host);
    rest := (Scenarios.Entry(job) + Scenarios.Pickup(job, host))[2..];
  }

  /** The job enters the queue and is taken, while the client waits. */
  lemma TakeUp(cfg: Pipeline.Config, job: Job, host: Host) returns (ms: seq<Move>, q: nat, c: nat)
    requires Pipeline.Configured(cfg)
    ensures Feasible(cfg, ms) && q < |ms| && ms[q] == Attach(0, job.id)
    ensures PipeOps(ms[..q]) == Scenarios.Entry(job)[..2]
    ensures PipeOps(ms) == Scenarios.Entry(job) + Scenarios.Pickup(job, host)
    ensures Attending(Reached(cfg, ms), NormalizedJob(job), Process(host, NormalizedJob(job)), 0, c)
  {
    hide Feasible, Reached, PipeOps, Process, NormalizedJob, Pipeline.IsRun, Pipeline.After, Drained,
      Scenarios.Alone, Scenarios.Working;
    var start;
    start, c := SubscribeEarly(cfg, job);
    q := |start| - 1;
    var rest := WayIn(cfg, job, host);
    Scenarios.LiftRun(cfg, start, rest);
    ms := start + Scenarios.Lift(rest);
    assert ms[..q] == start[..q];
    RunsProject(cfg, ms);
    Submissions.NormalizedKeepsId(job);
    ProcessEnds(host, NormalizedJob(job));
  }

  lemma EntryTakesNothing(job: Job, id: string)
    ensures !Topics.TakenUp(Scenarios.Entry(job)[..2], id)
  {
  }

  /** When the worker is done the client has been told, and the record is final. */
  lemma AttendedToTheEnd(cfg: Pipeline.Config, ms: seq<Move>, job: Job, log: seq<Effect>, c: nat)
    requires Feasible(cfg, ms) && Attending(Reached(cfg, ms), job, log, |log|, c)
    ensures var s := Reached(cfg, ms);
            && 0 in s.readers && s.readers[0].id == job.id && Told(s.readers[0].phase) && !s.bus.closed
            && job.id in s.pipe.store && s.pipe.store[job.id] == EndState(log, job.id)
  {
    hide Feasible, Reached, PipeOps, Lifecycle.Inv, Pipeline.IsRun, Pipeline.After;
    RunsProject(cfg, ms);
    Submissions.RunInv(cfg, PipeOps(ms));
    assert IsFinale(log, End(log, job.id), job.id) && Concludes(log, End(log, job.id), job.id);
    Scenarios.FinishedRunner(Reached(cfg, ms).pipe, Submissions.TracksOf(cfg, PipeOps(ms)), job, log);
  }

  /** Every job on every host can be followed to its end by a client that subscribed
      before it was taken; with up to 30 tests, if it completes, that client
      rebuilds its record. */
  lemma EveryJobCanBeFollowed(cfg: Pipeline.Config, job: Job, host: Host) returns (ms: seq<Move>, q: nat)
    requires Pipeline.Configured(cfg)
    ensures Feasible(cfg, ms) && q < |ms| && ms[q] == Attach(0, job.id) && !Topics.TakenUp(PipeOps(ms[..q]), job.id)
    ensures var s := Reached(cfg, ms);
            && 0 in s.readers && Told(s.readers[0].phase) && !s.bus.closed
            && job.id in s.pipe.store && s.pipe.store[job.id] == FinalState(host, NormalizedJob(job))
            && (s.pipe.store[job.id].status == Completed && 2 * |Tests(job)| + 4 <= 64 ==>
                  ListenAll(Delivery.DataOf(s.readers[0].frames)) == BoardOf(s.pipe.store[job.id]))
  {
    hide Feasible, Reached, PipeOps, Process, NormalizedJob, Attending, FinalState, Topics.TakenUp, ListenAll,
      BoardOf, Delivery.DataOf, Scenarios.Pickup, Tests;
    var j := NormalizedJob(job);
    var log := Process(host, j);
    var c, start;
    start, q, c := TakeUp(cfg, job, host);
    EntryTakesNothing(job, job.id);
    ms := AttendAll(cfg, start, j, log, |log|, c);
    assert ms[..q] == start[..q];
    AttendedToTheEnd(cfg, ms, j, log, c);
    Submissions.NormalizedKeepsId(job);
    ProcessEnds(host, j);
    assert Pipeline.SaveQueued(0, job) in PipeOps(ms) by {
      assert PipeOps(start)[1] == Pipeline.SaveQueued(0, job);
      assert PipeOps(ms)[1] == PipeOps(start)[1];
    }
    if FinalState(host, j).status == Completed && 2 * |Tests(job)| + 4 <= 64 {
      assert Delivery.Small(ms, job.id);
      Listeners.ClientRebuildsRecord(cfg, ms, q, 0, job.id);
    }
  }
}
