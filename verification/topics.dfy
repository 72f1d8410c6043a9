/** What is published on the topic of a submission, over every run. */
module Topics {
  import opened Models
  import opened Requests
  import opened Worker
  import opened Traces
  import opened Outcomes
  import opened Queues
  import opened Pipeline
  import opened Lifecycle
  import opened Submissions

  /** The event an action publishes on the topic of a submission. */
  function Emitted(a: Action, id: string): seq<Event> {
    match a
    case Announce(_, i) => if i == id then [Bare(Queued)] else []
    case Act(_, i, e) => if i == id then Published(e) else []
    case _ => []
  }

  /** Everything published on a topic, in order. */
  function TopicEvents(acts: seq<Action>, id: string): seq<Event> {
    if acts == [] then [] else TopicEvents(acts[..|acts| - 1], id) + Emitted(acts[|acts| - 1], id)
  }

  /** The part of it that workers published. */
  function WorkerEvents(acts: seq<Action>, id: string): seq<Event> {
    if acts == [] then []
    else WorkerEvents(acts[..|acts| - 1], id)
         + if acts[|acts| - 1].Act? then Emitted(acts[|acts| - 1], id) else []
  }

  function Announcements(acts: seq<Action>, id: string): nat {
    if acts == [] then 0
    else Announcements(acts[..|acts| - 1], id)
         + if acts[|acts| - 1].Announce? && acts[|acts| - 1].id == id then 1 else 0
  }

  lemma {:induction false} TopicSplits(acts: seq<Action>, id: string)
    ensures |TopicEvents(acts, id)| == |WorkerEvents(acts, id)| + Announcements(acts, id)
    ensures forall e :: e in TopicEvents(acts, id) ==> e in WorkerEvents(acts, id) || e == Bare(Queued)
  {
    if acts != [] {
      TopicSplits(acts[..|acts| - 1], id);
    }
  }

  /** The effects a worker has carried out on a submission. */
  ghost function Performed(rs: seq<Runner>, t: Track): seq<Effect> {
    match t.stage
    case AtRunner(w) =>
      if w < |rs| && rs[w].Busy? && rs[w].pc <= |t.log| then t.log[..rs[w].pc] else []
    case Done => t.log
    case _ => []
  }

  ghost function Answers(hs: map<nat, Handler>, t: Track): nat {
    if t.h in hs && hs[t.h].Answered? then 1 else 0
  }

  lemma PerformedElsewhere(rs: seq<Runner>, g: Tracks, w: nat, r: Runner, id: string)
    requires RunnersOk(rs, g) && id in g && w < |rs|
    requires !(Holding(rs[w]) && rs[w].job.id == id)
    ensures Performed(rs[w := r], g[id]) == Performed(rs, g[id])
  {
  }

  lemma PerformedCounting(rs: seq<Runner>, g: Tracks, w: nat, id: string)
    requires RunnersOk(rs, g) && id in g && w < |rs| && (rs[w].Fetched? || rs[w].Counted?) && rs[w].job.id == id
    ensures Performed(rs, g[id]) == []
    ensures Performed(rs[w := Counted(rs[w].job, rs[w].log)], g[id]) == []
    ensures Performed(rs[w := Busy(rs[w].job, rs[w].log, 0)], g[id]) == []
  {
    assert HeldBy(rs[w], w, g);
  }

  lemma OneMoreEffect(log: seq<Effect>, pc: nat)
    requires pc < |log|
    ensures Events(log[..pc + 1]) == Events(log[..pc]) + Published(log[pc])
  {
    assert log[..pc + 1][..pc] == log[..pc];
  }

  lemma PerformedAct(rs: seq<Runner>, g: Tracks, w: nat, id: string)
    requires RunnersOk(rs, g) && id in g && w < |rs| && rs[w].Busy? && rs[w].pc < |rs[w].log| && rs[w].job.id == id
    ensures Events(Performed(rs[w := rs[w].(pc := rs[w].pc + 1)], g[id]))
         == Events(Performed(rs, g[id])) + Published(rs[w].log[rs[w].pc])
  {
    hide NormalizedJob, IsFinale, Events, Published;
    var r := rs[w];
    assert HeldBy(r, w, g);
    OneMoreEffect(r.log, r.pc);
  }

  lemma PerformedFinish(rs: seq<Runner>, g: Tracks, w: nat, id: string)
    requires RunnersOk(rs, g) && id in g && w < |rs| && rs[w].Busy? && rs[w].pc == |rs[w].log| && rs[w].job.id == id
    ensures Performed(rs, g[id]) == g[id].log
  {
    assert HeldBy(rs[w], w, g);
    assert rs[w].log[..rs[w].pc] == rs[w].log;
  }

  lemma PerformedDequeue(p: Pipe, g: Tracks, a: Action, id: string)
    requires RunnersOk(p.runners, g) && QueueOk(p.queue.ch, g) && Enabled(p, a) && id in g && a.Dequeue?
    ensures id in Follow(p, g, a)
    ensures Performed(p.runners[a.w := NextRunner(p.runners[a.w], a)], Follow(p, g, a)[id])
         == Performed(p.runners, g[id])
  {
    hide Process, NormalizedJob;
    PerformedElsewhere(p.runners, g, a.w, NextRunner(p.runners[a.w], a), id);
    assert g[p.queue.ch[0].id].stage == Waiting;
  }

  lemma PerformedAtFinish(p: Pipe, g: Tracks, a: Action, id: string)
    requires RunnersOk(p.runners, g) && Enabled(p, a) && id in g && a.Finish?
    ensures id in Follow(p, g, a)
    ensures Performed(p.runners[a.w := Idle], Follow(p, g, a)[id]) == Performed(p.runners, g[id])
  {
    hide Process, NormalizedJob;
    if p.runners[a.w].job.id == id {
      PerformedFinish(p.runners, g, a.w, id);
    } else {
      PerformedElsewhere(p.runners, g, a.w, Idle, id);
    }
  }

  lemma PerformedAtAct(p: Pipe, g: Tracks, a: Action, id: string)
    requires RunnersOk(p.runners, g) && Enabled(p, a) && id in g && a.Act?
    ensures Events(Performed(p.runners[a.w := NextRunner(p.runners[a.w], a)], g[id]))
         == Events(Performed(p.runners, g[id])) + Emitted(a, id)
  {
    hide RunnersOk, Performed, Process, NormalizedJob;
    if p.runners[a.w].job.id == id {
      PerformedAct(p.runners, g, a.w, id);
    } else {
      PerformedElsewhere(p.runners, g, a.w, NextRunner(p.runners[a.w], a), id);
      assert Events(Performed(p.runners, g[id])) + [] == Events(Performed(p.runners, g[id]));
    }
  }

  lemma PerformedInLoop(p: Pipe, g: Tracks, a: Action, id: string)
    requires RunnersOk(p.runners, g) && Enabled(p, a) && id in g && MovesRunner(a)
    ensures Performed(p.runners[a.w := NextRunner(p.runners[a.w], a)], g[id]) == Performed(p.runners, g[id])
  {
    hide RunnersOk, Performed, Process, NormalizedJob;
    var rs, w := p.runners, a.w;
    if Holding(rs[w]) && rs[w].job.id == id {
      PerformedCounting(rs, g, w, id);
    } else {
      PerformedElsewhere(rs, g, w, NextRunner(rs[w], a), id);
    }
  }

  lemma PerformedByRunner(p: Pipe, g: Tracks, a: Action, id: string)
    requires RunnersOk(p.runners, g) && QueueOk(p.queue.ch, g) && Enabled(p, a) && id in g && ByRunner(a)
    ensures id in Follow(p, g, a)
    ensures Events(Performed(Step(p, a).runners, Follow(p, g, a)[id]))
         == Events(Performed(p.runners, g[id])) + if a.Act? then Emitted(a, id) else []
  {
    hide RunnersOk, QueueOk, Process, NormalizedJob, Performed;
    RunnersStep(p, a);
    if a.Dequeue? {
      PerformedDequeue(p, g, a, id);
    } else if a.Finish? {
      PerformedAtFinish(p, g, a, id);
    } else if a.Act? {
      PerformedAtAct(p, g, a, id);
    } else {
      PerformedInLoop(p, g, a, id);
    }
  }

  /** The events an action makes the worker of a submission publish. */
  lemma PerformedStep(p: Pipe, g: Tracks, a: Action, id: string)
    requires Inv(p, g) && Enabled(p, a) && id in g
    ensures id in Follow(p, g, a)
    ensures Events(Performed(Step(p, a).runners, Follow(p, g, a)[id]))
         == Events(Performed(p.runners, g[id])) + if a.Act? then Emitted(a, id) else []
  {
    hide HandlersOk, QueueOk, RunnersOk, RestOk, RecordsOk, PoolOk, Process, NormalizedJob;
    if ByRunner(a) {
      PerformedByRunner(p, g, a, id);
    } else if a.Send? {
      HandlerSends(p.handlers, g, a.h, a.job);
    } else if a.SaveQueued? {
      UnsavedIsUntracked(p, g, a.job.id);
    }
  }

  lemma AnsweredStep(p: Pipe, a: Action, h: nat)
    requires Enabled(p, a) && h in p.handlers
    ensures h in Step(p, a).handlers
    ensures Step(p, a).handlers[h].Answered? <==> p.handlers[h].Answered? || (a.Announce? && a.h == h)
    ensures a.Announce? && a.h == h ==> p.handlers[h] == Enqueued(a.id)
  {
    hide Process, NormalizedJob, Stored, QueuedState;
    if MovesRunner(a) || a.Dequeue? || a.Act? || a.Finish? {
      assert Step(p, a).handlers == p.handlers;
    }
  }

  lemma AnswersStep(p: Pipe, g: Tracks, a: Action, id: string)
    requires HandlersOk(p.handlers, g) && Enabled(p, a) && id in g && id in Follow(p, g, a)
    ensures Answers(Step(p, a).handlers, g[id])
         == Answers(p.handlers, g[id]) + if a.Announce? && a.id == id then 1 else 0
  {
    hide Step, Process, NormalizedJob;
    AnsweredStep(p, a, g[id].h);
    assert Subject(p.handlers[g[id].h]) == Some(id);
    if a.Announce? {
      assert Subject(p.handlers[a.h]) == Some(a.id);
    }
  }

  lemma HandlerStays(p: Pipe, g: Tracks, a: Action, id: string)
    requires Inv(p, g) && Enabled(p, a) && id in g
    ensures id in Follow(p, g, a) && Follow(p, g, a)[id].h == g[id].h
  {
    hide QueueOk, RunnersOk, RecordsOk, PoolOk, Process, NormalizedJob;
  }

  lemma NothingBeforeSaving(p: Pipe, g: Tracks, a: Action, id: string)
    requires Inv(p, g) && Enabled(p, a) && id !in g
    ensures Emitted(a, id) == []
    ensures id in Follow(p, g, a) ==>
      Performed(Step(p, a).runners, Follow(p, g, a)[id]) == [] && Answers(Step(p, a).handlers, Follow(p, g, a)[id]) == 0
  {
    hide QueueOk, PoolOk, Process, NormalizedJob, IsFinale, RecordsOk;
    if a.Act? {
      assert HeldBy(p.runners[a.w], a.w, g);
    }
    if a.Announce? {
      assert Subject(p.handlers[a.h]) == Some(a.id);
    }
  }

  /** In every run the worker events on a topic are the events of the effects
      carried out so far, and QUEUED was announced at most once. */
  lemma {:induction false} TopicInv(cfg: Config, acts: seq<Action>, id: string)
    requires IsRun(cfg, acts)
    ensures var p, g := After(cfg, acts), TracksOf(cfg, acts);
            if id in g then
              && WorkerEvents(acts, id) == Events(Performed(p.runners, g[id]))
              && Announcements(acts, id) == Answers(p.handlers, g[id])
            else WorkerEvents(acts, id) == [] && Announcements(acts, id) == 0
  {
    hide Inv, Enabled, Step, Follow, Performed;
    if acts != [] {
      var before, a := acts[..|acts| - 1], acts[|acts| - 1];
      var p, g := After(cfg, before), TracksOf(cfg, before);
      RunInv(cfg, before);
      TopicInv(cfg, before, id);
      if id in g {
        PerformedStep(p, g, a, id);
        HandlerStays(p, g, a, id);
        AnswersStep(p, g, a, id);
      } else {
        NothingBeforeSaving(p, g, a, id);
      }
    }
  }

  lemma {:induction false} EventsOfPrefix(log: seq<Effect>, k: nat)
    requires k <= |log|
    ensures Events(log[..k]) <= Events(log)
  {
    EventsConcat(log[..k], log[k..]);
    assert log[..k] + log[k..] == log;
  }

  lemma PerformedIsPrefix(p: Pipe, g: Tracks, id: string)
    requires Inv(p, g) && id in g && Performed(p.runners, g[id]) != []
    ensures var t := g[id];
            && t.job.id == id && (t.stage.AtRunner? || t.stage.Done?)
            && |Performed(p.runners, t)| <= |t.log|
            && Performed(p.runners, t) == t.log[..|Performed(p.runners, t)|]
            && (At(p, id, Finished) ==> Performed(p.runners, t) == t.log)
  {
    hide QueueOk, PoolOk, NormalizedJob, IsFinale, RecordsOk;
    var t := g[id];
    if t.stage.AtRunner? {
      assert Holds(p.runners[t.stage.w], id);
    }
  }

  lemma TopicIsPrefix(cfg: Config, acts: seq<Action>, id: string)
    requires IsRun(cfg, acts) && WorkerEvents(acts, id) != []
    ensures var g := TracksOf(cfg, acts);
            && id in g && g[id].job.id == id && (g[id].stage.AtRunner? || g[id].stage.Done?)
            && WorkerEvents(acts, id) <= Events(g[id].log)
            && (At(After(cfg, acts), id, Finished) ==> WorkerEvents(acts, id) == Events(g[id].log))
  {
    hide Inv, At, Performed, Process, NormalizedJob;
    var p, g := After(cfg, acts), TracksOf(cfg, acts);
    RunInv(cfg, acts);
    TopicInv(cfg, acts, id);
    var t := g[id];
    PerformedIsPrefix(p, g, id);
    EventsOfPrefix(t.log, |Performed(p.runners, t)|);
  }

  /** Whatever the interleaving, the events workers publish on a topic are the
      beginning of one ProcessJob trace of the submitted job, all of it once the
      submission is finished. */
  lemma TopicFollowsOneTrace(cfg: Config, acts: seq<Action>, id: string)
    requires IsRun(cfg, acts) && WorkerEvents(acts, id) != []
    ensures exists h, w, job, host ::
              && SaveQueued(h, job) in acts && Dequeue(w, NormalizedJob(job), host) in acts && job.id == id
              && WorkerEvents(acts, id) <= Events(Process(host, NormalizedJob(job)))
              && (At(After(cfg, acts), id, Finished) ==>
                    WorkerEvents(acts, id) == Events(Process(host, NormalizedJob(job))))
  {
    hide Process, NormalizedJob;
    TopicIsPrefix(cfg, acts, id);
    TracksAreSourced(cfg, acts);
    var t := TracksOf(cfg, acts)[id];
    assert Sourced(acts, t);
    var w, host :| Dequeue(w, NormalizedJob(t.job), host) in acts && t.log == Process(host, NormalizedJob(t.job));
  }

  lemma JobStays(p: Pipe, g: Tracks, a: Action, id: string)
    requires Inv(p, g) && Enabled(p, a) && id in g
    ensures id in Follow(p, g, a) && Follow(p, g, a)[id].job == g[id].job
  {
    hide QueueOk, RunnersOk, RecordsOk, PoolOk, Process, NormalizedJob;
  }

  /** A submission id is saved by one handler, for one job. */
  lemma {:induction false} SavedIsTracked(cfg: Config, acts: seq<Action>, h: nat, job: Job)
    requires IsRun(cfg, acts) && SaveQueued(h, job) in acts
    ensures job.id in TracksOf(cfg, acts) && TracksOf(cfg, acts)[job.id].job == job
  {
    hide Process, NormalizedJob;
    var before, a := acts[..|acts| - 1], acts[|acts| - 1];
    RunInv(cfg, before);
    if SaveQueued(h, job) in before {
      SavedIsTracked(cfg, before, h, job);
      JobStays(After(cfg, before), TracksOf(cfg, before), a, job.id);
    }
  }

  /** A bound on everything a topic ever carries: 2n + 4 events for n tests. */
  lemma TopicIsShort(cfg: Config, acts: seq<Action>, h: nat, job: Job)
    requires IsRun(cfg, acts) && SaveQueued(h, job) in acts
    ensures |TopicEvents(acts, job.id)| <= 2 * |Tests(job)| + 4
  {
    hide Inv, IsRun, After, Process, TopicEvents, Performed;
    var id := job.id;
    var p, g := After(cfg, acts), TracksOf(cfg, acts);
    RunInv(cfg, acts);
    TopicInv(cfg, acts, id);
    TopicSplits(acts, id);
    SavedIsTracked(cfg, acts, h, job);
    if WorkerEvents(acts, id) != [] {
      TopicFollowsOneTrace(cfg, acts, id);
      var h', w, j, host :| SaveQueued(h', j) in acts && Dequeue(w, NormalizedJob(j), host) in acts && j.id == id
                            && WorkerEvents(acts, id) <= Events(Process(host, NormalizedJob(j)));
      SavedIsTracked(cfg, acts, h', j);
      OneTerminalEventLast(host, NormalizedJob(j));
    }
  }

  lemma TerminalIsLast(cfg: Config, acts: seq<Action>, id: string, k: nat)
    requires IsRun(cfg, acts) && k < |WorkerEvents(acts, id)| && Terminal(WorkerEvents(acts, id)[k].status)
    ensures k == |WorkerEvents(acts, id)| - 1
  {
    hide IsRun, Process, NormalizedJob;
    TopicFollowsOneTrace(cfg, acts, id);
    var h, w, job, host :| SaveQueued(h, job) in acts && Dequeue(w, NormalizedJob(job), host) in acts && job.id == id
                           && WorkerEvents(acts, id) <= Events(Process(host, NormalizedJob(job)));
    OneTerminalEventLast(host, NormalizedJob(job));
  }

  predicate PublishesOn(a: Action, id: string) { a.Act? && a.id == id && a.effect.Publish? }

  lemma PublicationAdds(acts: seq<Action>, i: nat, id: string)
    requires i < |acts| && PublishesOn(acts[i], id)
    ensures WorkerEvents(acts[..i + 1], id) == WorkerEvents(acts[..i], id) + [acts[i].effect.event]
  {
    assert acts[..i + 1][..i] == acts[..i];
  }

  lemma {:induction false} WorkerEventsGrow(acts: seq<Action>, id: string, i: nat, j: nat)
    requires i <= j <= |acts|
    ensures WorkerEvents(acts[..i], id) <= WorkerEvents(acts[..j], id)
  {
    if i < j {
      WorkerEventsGrow(acts, id, i, j - 1);
      assert acts[..j][..j - 1] == acts[..j - 1];
    }
  }

  /** The terminal event is the last worker event on its topic. */
  lemma NothingAfterTerminal(cfg: Config, acts: seq<Action>, i: nat, j: nat, id: string)
    requires IsRun(cfg, acts) && i < j < |acts|
    requires PublishesOn(acts[i], id) && Terminal(acts[i].effect.event.status)
    ensures !PublishesOn(acts[j], id)
  {
    hide IsRun, Process, NormalizedJob;
    if PublishesOn(acts[j], id) {
      RunPrefix(cfg, acts, j + 1);
      PublicationAdds(acts, i, id);
      WorkerEventsGrow(acts, id, i + 1, j);
      PublicationAdds(acts, j, id);
      TerminalIsLast(cfg, acts[..j + 1], id, |WorkerEvents(acts[..i], id)|);
      assert false;
    }
  }

  // ---- Where QUEUED comes ------------------------------------------------

  lemma {:induction false} TopicConcat(a: seq<Action>, b: seq<Action>, id: string)
    ensures TopicEvents(a + b, id) == TopicEvents(a, id) + TopicEvents(b, id)
  {
    if b == [] {
      assert a + b == a;
    } else {
      var n := |b| - 1;
      assert (a + b)[..|a + b| - 1] == a + b[..n];
      TopicConcat(a, b[..n], id);
    }
  }

  lemma {:induction false} WorkerConcat(a: seq<Action>, b: seq<Action>, id: string)
    ensures WorkerEvents(a + b, id) == WorkerEvents(a, id) + WorkerEvents(b, id)
  {
    if b == [] {
      assert a + b == a;
    } else {
      var n := |b| - 1;
      assert (a + b)[..|a + b| - 1] == a + b[..n];
      WorkerConcat(a, b[..n], id);
    }
  }

  lemma {:induction false} AnnouncementsConcat(a: seq<Action>, b: seq<Action>, id: string)
    ensures Announcements(a + b, id) == Announcements(a, id) + Announcements(b, id)
  {
    if b == [] {
      assert a + b == a;
    } else {
      var n := |b| - 1;
      assert (a + b)[..|a + b| - 1] == a + b[..n];
      AnnouncementsConcat(a, b[..n], id);
    }
  }

  /** Some worker has taken the submission. */
  ghost predicate TakenUp(acts: seq<Action>, id: string) {
    exists w, job, host :: Dequeue(w, job, host) in acts && job.id == id
  }

  /** No worker publishes before it has taken the job. */
  lemma SilentUntilTaken(cfg: Config, acts: seq<Action>, id: string)
    requires IsRun(cfg, acts) && !TakenUp(acts, id)
    ensures WorkerEvents(acts, id) == []
  {
    hide IsRun, Process, NormalizedJob;
    if WorkerEvents(acts, id) != [] {
      TopicFollowsOneTrace(cfg, acts, id);
      var h, w, job, host :| SaveQueued(h, job) in acts
                             && Dequeue(w, NormalizedJob(job), host) in acts && job.id == id;
      NormalizedKeepsId(job);
      assert false;
    }
  }

  /** Without an announcement a topic carries the worker's events alone. */
  lemma {:induction false} UnannouncedTopic(acts: seq<Action>, id: string)
    requires Announcements(acts, id) == 0
    ensures TopicEvents(acts, id) == WorkerEvents(acts, id)
  {
    if acts != [] {
      UnannouncedTopic(acts[..|acts| - 1], id);
    }
  }

  lemma OneAction(a: Action, id: string)
    ensures TopicEvents([a], id) == Emitted(a, id)
    ensures WorkerEvents([a], id) == if a.Act? then Emitted(a, id) else []
    ensures Announcements([a], id) == if a.Announce? && a.id == id then 1 else 0
  {
    assert [a][..0] == [];
  }

  /** At most one QUEUED is published on a topic, in every run. */
  lemma AnnouncedOnce(cfg: Config, acts: seq<Action>, id: string)
    requires IsRun(cfg, acts)
    ensures Announcements(acts, id) <= 1
  {
    TopicInv(cfg, acts, id);
  }

  /** In every run a topic is the worker's events, a part of one trace, with QUEUED
      inserted where the handler published it: after the events that workers had
      published by then. */
  lemma QueuedIsInserted(cfg: Config, acts: seq<Action>, i: nat, id: string)
    requires IsRun(cfg, acts) && i < |acts| && acts[i].Announce? && acts[i].id == id
    ensures var w, k := WorkerEvents(acts, id), |WorkerEvents(acts[..i], id)|;
            k <= |w| && TopicEvents(acts, id) == w[..k] + [Bare(Queued)] + w[k..]
  {
    hide IsRun, TopicEvents, WorkerEvents, Announcements;
    var a, rest := acts[..i], acts[i + 1..];
    assert acts == a + ([acts[i]] + rest);
    AnnouncedOnce(cfg, acts, id);
    AnnouncementsConcat(a, [acts[i]] + rest, id);
    AnnouncementsConcat([acts[i]], rest, id);
    TopicConcat(a, [acts[i]] + rest, id);
    TopicConcat([acts[i]], rest, id);
    WorkerConcat(a, [acts[i]] + rest, id);
    WorkerConcat([acts[i]], rest, id);
    OneAction(acts[i], id);
    UnannouncedTopic(a, id);
    UnannouncedTopic(rest, id);
  }

  lemma WorkersNeverAnnounce(cfg: Config, acts: seq<Action>, id: string)
    requires IsRun(cfg, acts) && WorkerEvents(acts, id) != []
    ensures !WorkerEvents(acts, id)[0].status.Queued?
  {
    hide IsRun, Process, NormalizedJob, WorkerEvents;
    TopicFollowsOneTrace(cfg, acts, id);
    var h, w, job, host :| SaveQueued(h, job) in acts && Dequeue(w, NormalizedJob(job), host) in acts && job.id == id
                           && WorkerEvents(acts, id) <= Events(Process(host, NormalizedJob(job)));
    OneTerminalEventLast(host, NormalizedJob(job));
  }

  /** QUEUED is the first event on its topic exactly if no worker has published
      there before the handler; so it is if the handler publishes before a worker
      takes the job. */
  lemma QueuedFirstExactly(cfg: Config, acts: seq<Action>, i: nat, id: string)
    requires IsRun(cfg, acts) && i < |acts| && acts[i].Announce? && acts[i].id == id
    ensures TopicEvents(acts, id) != []
    ensures TopicEvents(acts, id)[0] == Bare(Queued) <==> WorkerEvents(acts[..i], id) == []
    ensures !TakenUp(acts[..i], id) ==> TopicEvents(acts, id)[0] == Bare(Queued)
  {
    hide IsRun, TopicEvents, WorkerEvents, TakenUp;
    QueuedIsInserted(cfg, acts, i, id);
    RunPrefix(cfg, acts, i);
    if WorkerEvents(acts, id) != [] {
      WorkersNeverAnnounce(cfg, acts, id);
    }
    if !TakenUp(acts[..i], id) {
      SilentUntilTaken(cfg, acts[..i], id);
    }
  }
}
