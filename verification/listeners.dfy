/** What a client can rebuild from the frames it was sent. */
module Listeners {
  import opened Models
  import opened Worker
  import opened Outcomes
  import opened Gateway
  import opened Clients
  import opened Delivery
  import Requests
  import Sandboxes
  import Traces
  import Pipeline
  import Lifecycle
  import Submissions
  import Topics

  // ---- QUEUED does not matter to a listener ------------------------------

  function WithoutQueued(evs: seq<Event>): seq<Event> {
    if evs == [] then []
    else WithoutQueued(evs[..|evs| - 1]) + if evs[|evs| - 1].status.Queued? then [] else [evs[|evs| - 1]]
  }

  lemma {:induction false} ListenersIgnoreQueued(evs: seq<Event>)
    ensures ListenAll(evs) == ListenAll(WithoutQueued(evs))
  {
    if evs != [] {
      var n := |evs| - 1;
      ListenersIgnoreQueued(evs[..n]);
      var heard := WithoutQueued(evs[..n]);
      if evs[n].status.Queued? {
        assert heard + [] == heard;
      } else {
        ListenToTwo(heard, evs[n], evs[n]);
      }
    }
  }

  lemma {:induction false} WithoutQueuedGrows(a: seq<Event>, b: seq<Event>)
    requires a <= b
    ensures WithoutQueued(a) <= WithoutQueued(b)
  {
    if a != b {
      WithoutQueuedGrows(a, b[..|b| - 1]);
    } else {
      assert a == b;
    }
  }

  // ---- The worker's part of a stream -------------------------------------

  lemma OneMore(evs: seq<Event>, more: seq<Event>)
    requires |more| <= 1
    ensures WithoutQueued(evs + more)
         == WithoutQueued(evs) + if more != [] && !more[0].status.Queued? then more else []
  {
    if more != [] {
      assert (evs + more)[..|evs|] == evs;
    } else {
      assert evs + more == evs;
    }
  }

  lemma {:induction false} WorkerPart(acts: seq<Pipeline.Action>, id: string)
    requires forall e :: e in Topics.WorkerEvents(acts, id) ==> !e.status.Queued?
    ensures WithoutQueued(Topics.TopicEvents(acts, id)) == Topics.WorkerEvents(acts, id)
  {
    if acts != [] {
      var before, a := acts[..|acts| - 1], acts[|acts| - 1];
      WorkerPart(before, id);
      var evs := Topics.TopicEvents(before, id);
      OneMore(evs, Topics.Emitted(a, id));
      if a.Act? && Topics.Emitted(a, id) != [] {
        assert Topics.Emitted(a, id)[0] in Topics.WorkerEvents(acts, id);
      }
    }
  }

  ghost predicate IsTrace(host: Sandboxes.Host, job: Job, evs: seq<Event>, record: State) {
    evs <= Traces.Events(Process(host, job)) && record == FinalState(host, job)
  }

  /** The trace behind a terminal record: its events are those on the topic, and
      it ends in the record. */
  lemma TraceOfRecord(cfg: Pipeline.Config, acts: seq<Pipeline.Action>, id: string)
    requires Pipeline.IsRun(cfg, acts) && id in Pipeline.After(cfg, acts).store
    requires Terminal(Pipeline.After(cfg, acts).store[id].status)
    ensures exists host, job :: IsTrace(host, job, Topics.WorkerEvents(acts, id), Pipeline.After(cfg, acts).store[id])
  {
    hide Pipeline.IsRun, Pipeline.After, Lifecycle.Inv, Process, Requests.NormalizedJob, Lifecycle.Follow;
    var p, g := Pipeline.After(cfg, acts), Submissions.TracksOf(cfg, acts);
    Submissions.RunInv(cfg, acts);
    Submissions.TracksAreSourced(cfg, acts);
    Submissions.TerminalIsEnd(p, g, id);
    var t := g[id];
    assert Submissions.Sourced(acts, t);
    var w, host :| Pipeline.Dequeue(w, Requests.NormalizedJob(t.job), host) in acts
                   && t.log == Process(host, Requests.NormalizedJob(t.job));
    var job := Requests.NormalizedJob(t.job);
    Submissions.NormalizedKeepsId(t.job);
    ProcessEnds(host, job);
    if Topics.WorkerEvents(acts, id) != [] {
      Topics.TopicIsPrefix(cfg, acts, id);
    }
    assert IsTrace(host, job, Topics.WorkerEvents(acts, id), p.store[id]);
  }

  /** A part of a trace that contains its terminal event is all of it. */
  lemma TerminalMeansWhole(host: Sandboxes.Host, job: Job, evs: seq<Event>)
    requires evs != [] && evs <= Traces.Events(Process(host, job)) && Terminal(evs[|evs| - 1].status)
    ensures evs == Traces.Events(Process(host, job))
  {
    hide Process, Traces.Events;
    Traces.OneTerminalEventLast(host, job);
  }

  // ---- From the frames to the record -------------------------------------

  /** The data of a finished connection ends with the terminal event. */
  lemma ToldEndsTerminal(rd: Reader)
    requires FramesOk(rd) && Told(rd.phase)
    ensures DataOf(rd.frames) != [] && Terminal(DataOf(rd.frames)[|DataOf(rd.frames)| - 1].status)
  {
    var k: nat :| OverAt(rd.frames, k);
    var upto := rd.frames[..k] + [rd.frames[k]];
    DataExtends(rd.frames[..k], rd.frames[k]);
    if |rd.frames| == k + 2 {
      assert rd.frames == upto + [rd.frames[k + 1]];
      DataExtends(upto, rd.frames[k + 1]);
    } else {
      assert rd.frames == upto;
    }
  }

  lemma LastHeard(evs: seq<Event>)
    requires evs != [] && Terminal(evs[|evs| - 1].status)
    ensures WithoutQueued(evs) != [] && Terminal(WithoutQueued(evs)[|WithoutQueued(evs)| - 1].status)
  {
  }

  lemma SplitActions(ms: seq<Move>, q: nat, r: nat, id: string)
    requires q < |ms| && ms[q] == Attach(r, id)
    ensures PipeOps(ms) == PipeOps(ms[..q]) + PipeOps(ms[q + 1..])
  {
    assert ms == ms[..q] + [ms[q]] + ms[q + 1..];
    OpsConcat(ms[..q] + [ms[q]], ms[q + 1..]);
    OpsConcat(ms[..q], [ms[q]]);
    OneOp(ms[q]);
    assert PipeOps(ms[..q]) + [] == PipeOps(ms[..q]);
  }

  lemma HeardIsWorkers(cfg: Pipeline.Config, ms: seq<Move>, q: nat, r: nat, id: string)
    requires Feasible(cfg, ms) && q < |ms| && ms[q] == Attach(r, id) && Small(ms, id) && !Reached(cfg, ms).bus.closed
    requires !Topics.TakenUp(PipeOps(ms[..q]), id)
    requires forall e :: e in Topics.WorkerEvents(PipeOps(ms), id) ==> !e.status.Queued?
    ensures r in Reached(cfg, ms).readers
    ensures WithoutQueued(DataOf(Reached(cfg, ms).readers[r].frames)) <= Topics.WorkerEvents(PipeOps(ms), id)
  {
    hide Feasible, Reached, Small, Topics.TopicEvents, Topics.WorkerEvents, PipeOps, BusOps, DataOf, Topics.TakenUp,
      Pipeline.IsRun, WithoutQueued;
    SmallStreamsAreComplete(cfg, ms, q, r, id);
    SplitActions(ms, q, r, id);
    var pre, post := PipeOps(ms[..q]), PipeOps(ms[q + 1..]);
    FeasiblePrefix(cfg, ms, q);
    RunsProject(cfg, ms[..q]);
    Topics.SilentUntilTaken(cfg, pre, id);
    Topics.WorkerConcat(pre, post, id);
    assert Topics.WorkerEvents(PipeOps(ms), id) == Topics.WorkerEvents(post, id);
    WorkerPart(post, id);
    WithoutQueuedGrows(DataOf(Reached(cfg, ms).readers[r].frames), SentSince(ms, q, id));
  }

  lemma WorkersNeverQueue(host: Sandboxes.Host, job: Job, evs: seq<Event>)
    requires evs <= Traces.Events(Process(host, job))
    ensures forall e :: e in evs ==> !e.status.Queued?
  {
    hide Process, Traces.Events;
    Traces.OneTerminalEventLast(host, job);
    forall e | e in evs ensures !e.status.Queued? {
      var i :| 0 <= i < |evs| && evs[i] == e;
      assert Traces.Events(Process(host, job))[i] == e;
    }
  }

  /** End to end: a client that subscribed before a worker took the job, on an open
      bus, with up to 30 tests, and that was sent the terminal event of a COMPLETED
      submission, rebuilds the stored record by folding the frames it was sent,
      wherever QUEUED came among them. */
  lemma ClientRebuildsRecord(cfg: Pipeline.Config, ms: seq<Move>, q: nat, r: nat, id: string)
    requires Feasible(cfg, ms) && q < |ms| && ms[q] == Attach(r, id) && Small(ms, id) && !Reached(cfg, ms).bus.closed
    requires !Topics.TakenUp(PipeOps(ms[..q]), id)
    requires r in Reached(cfg, ms).readers && Told(Reached(cfg, ms).readers[r].phase)
    requires Settled(Reached(cfg, ms).pipe.store, id) && Reached(cfg, ms).pipe.store[id].status == Completed
    ensures ListenAll(DataOf(Reached(cfg, ms).readers[r].frames)) == BoardOf(Reached(cfg, ms).pipe.store[id])
  {
    hide Feasible, Reached, Small, Topics.WorkerEvents, PipeOps, DataOf, Topics.TakenUp, Process, Traces.Events,
      ListenAll, BoardOf, FramesOk, WithoutQueued, Pipeline.IsRun, Pipeline.After, FinalEvent;
    var s, acts := Reached(cfg, ms), PipeOps(ms);
    var data := DataOf(s.readers[r].frames);
    RunsProject(cfg, ms);
    TraceOfRecord(cfg, acts, id);
    var host, job :| IsTrace(host, job, Topics.WorkerEvents(acts, id), s.pipe.store[id]);
    WorkersNeverQueue(host, job, Topics.WorkerEvents(acts, id));
    HeardIsWorkers(cfg, ms, q, r, id);
    FramesInv(cfg, ms, r);
    ToldEndsTerminal(s.readers[r]);
    LastHeard(data);
    TerminalMeansWhole(host, job, WithoutQueued(data));
    ListenersIgnoreQueued(data);
    StreamRebuildsRecord(host, job);
  }
}
