/** What a submit handler answers, and what a client reads before the end, over every
    run (pkg/api/server.go). */
module Answers {
  import opened Models
  import opened Requests
  import opened Sandboxes
  import opened Worker
  import opened Outcomes
  import opened Pipeline
  import opened Lifecycle
  import opened Submissions
  import Reports

  // ---- The handler -------------------------------------------------------

  datatype Kind = Arrived | Entered | Announced | TurnedDown | Broke

  predicate IsKind(a: Action, h: nat, kind: Kind) {
    match kind
    case Arrived => a == Arrive(h)
    case Entered => a.Send? && a.h == h
    case Announced => a.Announce? && a.h == h
    case TurnedDown => (a.Overflow? || a.GiveUp?) && a.h == h
    case Broke => a == SendOnClosed(h)
  }

  /** Handler h has taken an action of this kind. */
  ghost predicate Did(acts: seq<Action>, h: nat, kind: Kind) {
    exists i :: 0 <= i < |acts| && IsKind(acts[i], h, kind)
  }

  lemma DidExtends(acts: seq<Action>, h: nat, kind: Kind)
    requires acts != []
    ensures Did(acts, h, kind) <==> Did(acts[..|acts| - 1], h, kind) || IsKind(acts[|acts| - 1], h, kind)
  {
    var before := acts[..|acts| - 1];
    assert forall i :: 0 <= i < |before| ==> before[i] == acts[i];
  }

  /** What a handler in this state has done. */
  ghost predicate Accounts(s: Handler, arrived: bool, entered: bool, announced: bool, down: bool, broke: bool) {
    && arrived
    && (entered <==> s.Enqueued? || s.Answered?)
    && (announced <==> s.Answered?)
    && (broke <==> s.Crashed?)
    && (down ==> s.Refused?)
  }

  predicate ByHandler(a: Action) { a.Arrive? || a.SaveQueued? || a.Send? || MovesHandler(a) }

  /** What an action does to the handlers. */
  lemma HandlersStep(p: Pipe, a: Action)
    requires Enabled(p, a)
    ensures !ByHandler(a) ==> Step(p, a).handlers == p.handlers
    ensures ByHandler(a) ==>
              a.h in Step(p, a).handlers && Step(p, a).handlers == p.handlers[a.h := Step(p, a).handlers[a.h]]
    ensures a.Arrive? ==>
              a.h !in p.handlers && (Step(p, a).handlers[a.h].Throttled? || Step(p, a).handlers[a.h].Admitted?)
    ensures ByHandler(a) && !a.Arrive? ==> a.h in p.handlers
    ensures a.SaveQueued? ==> p.handlers[a.h].Admitted? && Step(p, a).handlers[a.h].Saved?
    ensures a.CheckOpen? ==>
              p.handlers[a.h].Saved? && (Step(p, a).handlers[a.h].Refused? || Step(p, a).handlers[a.h].Sending?)
    ensures a.Send? ==> p.handlers[a.h].Sending? && Step(p, a).handlers[a.h].Enqueued?
    ensures a.SendOnClosed? ==> p.handlers[a.h].Sending? && Step(p, a).handlers[a.h].Crashed?
    ensures a.Overflow? || a.GiveUp? ==> p.handlers[a.h].Sending? && Step(p, a).handlers[a.h].Refused?
    ensures a.Announce? ==> p.handlers[a.h].Enqueued? && Step(p, a).handlers[a.h].Answered?
  {
    hide Process, NormalizedJob, Stored, QueuedState;
  }

  lemma AccountsStep(p: Pipe, a: Action, h: nat, arrived: bool, entered: bool, announced: bool, down: bool, broke: bool)
    requires Enabled(p, a)
    requires if h in p.handlers then Accounts(p.handlers[h], arrived, entered, announced, down, broke)
             else !arrived && !entered && !announced && !down && !broke
    ensures var hs := Step(p, a).handlers;
            var arrived', entered' := arrived || IsKind(a, h, Arrived), entered || IsKind(a, h, Entered);
            var announced' := announced || IsKind(a, h, Announced);
            var down', broke' := down || IsKind(a, h, TurnedDown), broke || IsKind(a, h, Broke);
            if h in hs then Accounts(hs[h], arrived', entered', announced', down', broke')
            else !arrived' && !entered' && !announced' && !down' && !broke'
  {
    hide Process, Enabled, Step;
    HandlersStep(p, a);
  }

  lemma NothingDone(h: nat)
    ensures forall kind :: !Did([], h, kind)
  {
  }

  /** In every run the answer of a handler tells what became of its job: 202 exactly if
      it entered the queue and was announced, a crash exactly if it was sent on a closed
      queue, 429 and 500 only if it never entered. */
  lemma {:induction false} AnswersAreTrue(cfg: Config, acts: seq<Action>, h: nat)
    requires IsRun(cfg, acts)
    ensures var hs := After(cfg, acts).handlers;
            if h in hs then
              Accounts(hs[h], Did(acts, h, Arrived), Did(acts, h, Entered), Did(acts, h, Announced),
                       Did(acts, h, TurnedDown), Did(acts, h, Broke))
            else !Did(acts, h, Arrived) && !Did(acts, h, Entered) && !Did(acts, h, Announced)
                 && !Did(acts, h, TurnedDown) && !Did(acts, h, Broke)
  {
    hide Enabled, Step, Accounts, IsKind, Did;
    if acts == [] {
      NothingDone(h);
    } else {
      var before, a := acts[..|acts| - 1], acts[|acts| - 1];
      AnswersAreTrue(cfg, before, h);
      AccountsStep(After(cfg, before), a, h, Did(before, h, Arrived), Did(before, h, Entered),
        Did(before, h, Announced),
                   Did(before, h, TurnedDown), Did(before, h, Broke));
      DidExtends(acts, h, Arrived);
      DidExtends(acts, h, Entered);
      DidExtends(acts, h, Announced);
      DidExtends(acts, h, TurnedDown);
      DidExtends(acts, h, Broke);
    }
  }

  /** A handler is throttled exactly if it found the queue at its limit. */
  lemma ThrottledExactly(p: Pipe, h: nat)
    requires Enabled(p, Arrive(h))
    ensures Step(p, Arrive(h)).handlers[h].Throttled? <==> |p.queue.ch| >= p.cfg.maxDepth
    ensures Step(p, Arrive(h)).handlers[h].Admitted? <==> |p.queue.ch| < p.cfg.maxDepth
  {
    hide Process;
  }

  /** Past its save a handler goes on exactly if the queue is open. */
  lemma CheckExactly(p: Pipe, h: nat)
    requires Enabled(p, CheckOpen(h))
    ensures var s := Step(p, CheckOpen(h)).handlers[h];
            if p.queue.closed then s == Refused(p.handlers[h].job.id) else s == Sending(p.handlers[h].job)
  {
    hide Process;
  }

  // ---- The record before the end -----------------------------------------

  /** The first step that puts a record where there was none. */
  lemma NewRecord(p: Pipe, g: Tracks, a: Action, id: string)
    requires Inv(p, g) && Enabled(p, a) && id !in p.store && id in Step(p, a).store
    ensures a.SaveQueued? && a.job.id == id
    ensures Step(p, a).store[id]
         == State(id, Queued, Accepted, a.job.language, |a.job.tests|, 0, [], None, 0.0, 0.0, 0.0, "")
  {
    hide Inv, Enabled, Step, Stored;
    StoreStep(p, a);
    if a.Act? {
      SaveAdvances(p, g, a.w);
    }
  }

  predicate IsQueuedRecord(s: State, id: string, job: Job) {
    && job.id == id
    && s == State(id, Queued, Accepted, job.language, |job.tests|, 0, [], None, 0.0, 0.0, 0.0, "")
  }

  lemma NewIsQueuedRecord(job: Job, id: string)
    requires job.id == id
    ensures IsQueuedRecord(State(id, Queued, Accepted, job.language, |job.tests|, 0, [], None, 0.0, 0.0, 0.0,
      ""), id, job)
  {
  }

  /** In every run a QUEUED record is, field by field, the one its handler saved. */
  lemma {:induction false} QueuedRecordIsSubmitted(cfg: Config, acts: seq<Action>, id: string)
    requires IsRun(cfg, acts) && id in After(cfg, acts).store && After(cfg, acts).store[id].status == Queued
    ensures exists h, job :: SaveQueued(h, job) in acts && IsQueuedRecord(After(cfg, acts).store[id], id, job)
  {
    hide Enabled, Step, Inv, IsQueuedRecord;
    var before, a := acts[..|acts| - 1], acts[|acts| - 1];
    assert acts == before + [a];
    RunInv(cfg, before);
    StepAdvances(After(cfg, before), TracksOf(cfg, before), a, id);
    if id in After(cfg, before).store {
      QueuedRecordIsSubmitted(cfg, before, id);
      var h, job :| SaveQueued(h, job) in before && IsQueuedRecord(After(cfg, before).store[id], id, job);
      assert SaveQueued(h, job) in acts;
    } else {
      NewRecord(After(cfg, before), TracksOf(cfg, before), a, id);
      NewIsQueuedRecord(a.job, id);
      assert SaveQueued(a.h, a.job) == acts[|before|];
    }
  }

  /** The record of a job that is being run, in full. */
  ghost predicate IsRunningRecord(s: State, host: Host, job: Job) {
    && Reports.Reaches(host, job)
    && s == State(job.id, Running, Accepted, job.language, |Reports.TestsOf(job)|, 0, [],
                  Reports.Built(Reports.Chosen(host, job), GetLanguage(job.language).value,
                    Reports.WorkspaceFor(host, job)),
                  0.0, 0.0, 0.0, "")
  }

  lemma SavedByNow(r: Runner, s: State)
    requires Holding(r) && Reflects(DoneBy(r), s) && s.status == Running
    ensures Save(s) in r.log
  {
    var done := DoneBy(r);
    if !NoSaves(done) {
      var i :| 0 <= i < |done| && done[i].Save?;
      assert done[i] == Save(s) && done[i] == r.log[i];
    }
  }

  /** A RUNNING record is one its worker has saved. */
  lemma RunningIsSaved(p: Pipe, g: Tracks, id: string)
    requires Inv(p, g) && id in p.store && p.store[id].status == Running
    ensures id in g && g[id].job.id == id && g[id].stage.AtRunner? && Save(p.store[id]) in g[id].log
  {
    hide QueueOk, PoolOk, NormalizedJob;
    var t := g[id];
    if t.stage.AtRunner? {
      var r := p.runners[t.stage.w];
      assert HeldBy(r, t.stage.w, g) && RecordOk(p.store, r);
      SavedByNow(r, p.store[id]);
    }
  }

  lemma SavedIsRunningRecord(host: Host, job: Job, s: State)
    requires Save(s) in Process(host, job) && s.status == Running
    ensures IsRunningRecord(s, host, job)
  {
    hide Process, Reports.Reaches, Reports.Built, Reports.WorkspaceFor, Reports.Chosen, Reports.TestsOf, GetLanguage;
    Reports.RunningSaveSays(host, job, Save(s));
  }

  /** In every run a RUNNING record is, field by field, that of the submitted job on the
      host that took it, with the compilation it got. */
  lemma RunningRecordIsTaken(cfg: Config, acts: seq<Action>, id: string)
    requires IsRun(cfg, acts) && id in After(cfg, acts).store && After(cfg, acts).store[id].status == Running
    ensures exists h, w, job, host ::
              && SaveQueued(h, job) in acts && Dequeue(w, NormalizedJob(job), host) in acts && job.id == id
              && IsRunningRecord(After(cfg, acts).store[id], host, NormalizedJob(job))
  {
    hide IsRun, After, Inv, Process, NormalizedJob, Follow, IsRunningRecord;
    var p, g := After(cfg, acts), TracksOf(cfg, acts);
    RunInv(cfg, acts);
    TracksAreSourced(cfg, acts);
    RunningIsSaved(p, g, id);
    var t := g[id];
    assert Sourced(acts, t);
    var w, host :| Dequeue(w, NormalizedJob(t.job), host) in acts && t.log == Process(host, NormalizedJob(t.job));
    SavedIsRunningRecord(host, NormalizedJob(t.job), p.store[id]);
    assert SaveQueued(t.h, t.job) in acts;
  }
}
