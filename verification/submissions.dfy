/** The promises of the submission pipeline, over every run. */
module Submissions {
  import opened Models
  import opened Requests
  import opened Worker
  import opened Outcomes
  import opened Queues
  import opened Pipeline
  import opened Lifecycle

  ghost function TracksOf(cfg: Config, acts: seq<Action>): Tracks
    requires IsRun(cfg, acts)
  {
    if acts == [] then map[]
    else
      var before := acts[..|acts| - 1];
      Follow(After(cfg, before), TracksOf(cfg, before), acts[|acts| - 1])
  }

  lemma {:induction false} IdleLoad(rs: seq<Runner>)
    requires forall w :: 0 <= w < |rs| ==> rs[w].Idle?
    ensures Load(rs) == 0
  {
    if rs != [] {
      IdleLoad(rs[..|rs| - 1]);
    }
  }

  lemma InitIsIdle(cfg: Config)
    ensures Inv(Init(cfg), map[])
  {
    IdleLoad(Init(cfg).runners);
  }

  /** The invariant holds in every reachable state. */
  lemma {:induction false} RunInv(cfg: Config, acts: seq<Action>)
    requires IsRun(cfg, acts)
    ensures Inv(After(cfg, acts), TracksOf(cfg, acts))
  {
    if acts == [] {
      InitIsIdle(cfg);
    } else {
      var before := acts[..|acts| - 1];
      RunInv(cfg, before);
      StepKeepsInv(After(cfg, before), TracksOf(cfg, before), acts[|acts| - 1]);
    }
  }

  // ---- Exactly one place -------------------------------------------------

  datatype Place = WithHandler(h: nat) | TurnedAway(h: nat) | InQueue(i: nat) | WithWorker(w: nat) | Finished

  predicate Holds(r: Runner, id: string) { Holding(r) && r.job.id == id }

  ghost predicate At(p: Pipe, id: string, place: Place) {
    match place
    case WithHandler(h) => h in p.handlers && (p.handlers[h].Saved? || p.handlers[h].Sending?)
      && p.handlers[h].job.id == id
    case TurnedAway(h) => h in p.handlers && (p.handlers[h] == Refused(id) || p.handlers[h] == Crashed(id))
    case InQueue(i) => i < |p.queue.ch| && p.queue.ch[i].id == id
    case WithWorker(w) => w < |p.runners| && Holds(p.runners[w], id)
    case Finished =>
      && id in p.store && Terminal(p.store[id].status)
      && forall w :: 0 <= w < |p.runners| ==> !Holds(p.runners[w], id)
  }

  ghost function PlaceOf(p: Pipe, g: Tracks, id: string): Place
    requires Inv(p, g) && id in g
  {
    match g[id].stage
    case Pending =>
      if p.handlers[g[id].h].Saved? || p.handlers[g[id].h].Sending? then WithHandler(g[id].h) else TurnedAway(g[id].h)
    case Waiting => assert Lists(p.queue.ch, id); var i: nat :| i < |p.queue.ch| && p.queue.ch[i].id == id; InQueue(i)
    case AtRunner(w) => WithWorker(w)
    case Done => Finished
  }

  lemma PlaceIsRight(p: Pipe, g: Tracks, id: string)
    requires Inv(p, g) && id in g
    ensures At(p, id, PlaceOf(p, g, id))
  {
    hide PoolOk, NormalizedJob, IsFinale, RecordsOk;
    forall w | 0 <= w < |p.runners| && Holds(p.runners[w], id) ensures g[id].stage == AtRunner(w) {
      assert HeldBy(p.runners[w], w, g);
    }
  }

  lemma PlaceIsOnly(p: Pipe, g: Tracks, id: string, place: Place)
    requires Inv(p, g) && At(p, id, place)
    ensures id in g && place == PlaceOf(p, g, id)
  {
    hide RecordsOk, PoolOk, NormalizedJob, IsFinale;
    match place {
      case WithHandler(h) => assert Subject(p.handlers[h]) == Some(id);
      case TurnedAway(h) => assert Subject(p.handlers[h]) == Some(id);
      case InQueue(i) =>
      case WithWorker(w) => assert HeldBy(p.runners[w], w, g);
      case Finished =>
    }
  }

  /** In every interleaving each saved submission is in exactly one place, held
      there once, and nothing but saved submissions is anywhere. */
  lemma ExactlyOnePlace(cfg: Config, acts: seq<Action>, id: string)
    requires IsRun(cfg, acts)
    ensures var p := After(cfg, acts);
            && (id in p.store <==> exists place :: At(p, id, place))
            && forall a, b :: At(p, id, a) && At(p, id, b) ==> a == b
  {
    var p, g := After(cfg, acts), TracksOf(cfg, acts);
    RunInv(cfg, acts);
    if id in p.store {
      PlaceIsRight(p, g, id);
    }
    forall a | At(p, id, a) ensures id in g && a == PlaceOf(p, g, id) {
      PlaceIsOnly(p, g, id, a);
    }
  }

  // ---- First in, first out ----------------------------------------------

  /** The jobs put into the queue, and those taken out, in order. */
  function SentJobs(acts: seq<Action>): seq<Job> {
    if acts == [] then []
    else SentJobs(acts[..|acts| - 1])
         + if acts[|acts| - 1].Send? then [NormalizedJob(acts[|acts| - 1].job)] else []
  }

  function TakenJobs(acts: seq<Action>): seq<Job> {
    if acts == [] then []
    else TakenJobs(acts[..|acts| - 1])
         + if acts[|acts| - 1].Dequeue? then [acts[|acts| - 1].job] else []
  }

  lemma Splice(sent: seq<Job>, taken: seq<Job>, ch: seq<Job>, head: seq<Job>, rest: seq<Job>, tail: seq<Job>)
    requires sent == taken + ch && head + rest == ch + tail
    ensures sent + tail == taken + head + rest
  {
    assert sent + tail == taken + (ch + tail);
    assert taken + head + rest == taken + (head + rest);
  }

  lemma QueueStep(p: Pipe, a: Action)
    requires Enabled(p, a)
    ensures (if a.Dequeue? then [a.job] else []) + Step(p, a).queue.ch
         == p.queue.ch + if a.Send? then [NormalizedJob(a.job)] else []
  {
    hide Process, NormalizedJob, Stored, QueuedState;
    if a.Dequeue? {
      assert [a.job] + p.queue.ch[1..] == p.queue.ch;
    } else if !a.Send? {
      assert Step(p, a).queue.ch == p.queue.ch;
    }
  }

  /** Jobs leave the queue in the order they entered, none lost, none repeated. */
  lemma {:induction false} FirstInFirstOut(cfg: Config, acts: seq<Action>)
    requires IsRun(cfg, acts)
    ensures SentJobs(acts) == TakenJobs(acts) + After(cfg, acts).queue.ch
  {
    hide Process, NormalizedJob;
    if acts != [] {
      var before, a := acts[..|acts| - 1], acts[|acts| - 1];
      FirstInFirstOut(cfg, before);
      var p := After(cfg, before);
      QueueStep(p, a);
      Splice(SentJobs(before), TakenJobs(before), p.queue.ch,
             if a.Dequeue? then [a.job] else [], Step(p, a).queue.ch,
             if a.Send? then [NormalizedJob(a.job)] else []);
    }
  }

  // ---- Stored records ----------------------------------------------------

  /** The store is written by SaveQueued and by the effects of ProcessJob only. */
  lemma StoreStep(p: Pipe, a: Action)
    requires Enabled(p, a)
    ensures a.SaveQueued? ==> Step(p, a).store == p.store[a.job.id := QueuedState(a.job)] && a.job.id !in p.store
    ensures a.Act? ==> a.w < |p.runners| && p.runners[a.w].Busy? && p.runners[a.w].pc < |p.runners[a.w].log|
                       && Step(p, a) == Carry(p, a.w)
    ensures !a.SaveQueued? && !a.Act? ==> Step(p, a).store == p.store
  {
    hide Process, NormalizedJob, Stored, QueuedState;
  }

  lemma SaveAdvances(p: Pipe, g: Tracks, w: nat)
    requires Inv(p, g) && w < |p.runners| && p.runners[w].Busy? && p.runners[w].pc < |p.runners[w].log|
    ensures forall id :: id in p.store ==> id in Carry(p, w).store && Advances(p.store[id], Carry(p, w).store[id])
    ensures forall id :: id in Carry(p, w).store ==> id in p.store
  {
    hide HandlersOk, QueueOk, RunnersOk, RestOk, RecordsOk, PoolOk, Process, NormalizedJob;
    RecordMoves(p.store, p.runners, g, w);
  }

  lemma AdvancesNot(store: map<string, State>, id: string)
    requires id in store
    ensures Advances(store[id], store[id])
  {
  }

  /** One step moves a stored record along one edge at most; a new record is QUEUED. */
  lemma StepAdvances(p: Pipe, g: Tracks, a: Action, id: string)
    requires Inv(p, g) && Enabled(p, a)
    ensures id in p.store ==> id in Step(p, a).store && Advances(p.store[id], Step(p, a).store[id])
    ensures id !in p.store && id in Step(p, a).store ==> Step(p, a).store[id].status == Queued
  {
    hide Inv, Advances, Step, Enabled, Stored;
    StoreStep(p, a);
    if a.Act? {
      SaveAdvances(p, g, a.w);
    } else if id in p.store {
      AdvancesNot(p.store, id);
    }
  }

  /** Where a record may get to: the paths along those edges. */
  predicate Leads(s: State, t: State) {
    || s == t
    || (s.status == Queued && (t.status == Running || Terminal(t.status)))
    || (s.status == Running && Terminal(t.status))
  }

  lemma LeadsOn(r: State, s: State, t: State)
    requires Leads(r, s) && Advances(s, t)
    ensures Leads(r, t)
  {
  }

  /** Over whole runs a stored record only moves forward, and a terminal record
      never changes at all. */
  lemma {:induction false} RecordsMoveForward(cfg: Config, acts: seq<Action>, j: nat, id: string)
    requires IsRun(cfg, acts) && j <= |acts| && IsRun(cfg, acts[..j])
    requires id in After(cfg, acts[..j]).store
    ensures id in After(cfg, acts).store
    ensures Leads(After(cfg, acts[..j]).store[id], After(cfg, acts).store[id])
    ensures Terminal(After(cfg, acts[..j]).store[id].status) ==>
              After(cfg, acts).store[id] == After(cfg, acts[..j]).store[id]
  {
    hide Enabled, Step, Inv;
    if j == |acts| {
      assert acts[..j] == acts;
    } else {
      var before, a := acts[..|acts| - 1], acts[|acts| - 1];
      assert before[..j] == acts[..j];
      RecordsMoveForward(cfg, before, j, id);
      RunInv(cfg, before);
      StepAdvances(After(cfg, before), TracksOf(cfg, before), a, id);
      LeadsOn(After(cfg, acts[..j]).store[id], After(cfg, before).store[id], After(cfg, acts).store[id]);
    }
  }

  ghost predicate StatusAt(cfg: Config, acts: seq<Action>, j: nat, id: string, status: Status) {
    && j <= |acts| && IsRun(cfg, acts[..j])
    && id in After(cfg, acts[..j]).store && After(cfg, acts[..j]).store[id].status == status
  }

  lemma StatusEarlier(cfg: Config, acts: seq<Action>, j: nat, id: string, status: Status)
    requires acts != [] && j < |acts|
    ensures StatusAt(cfg, acts, j, id, status) == StatusAt(cfg, acts[..|acts| - 1], j, id, status)
  {
    assert acts[..|acts| - 1][..j] == acts[..j];
  }

  /** COMPLETED is reached through RUNNING only: a record that is QUEUED at one
      moment and COMPLETED later was RUNNING in between. */
  lemma {:induction false} CompletedWasRunning(cfg: Config, acts: seq<Action>, j: nat, id: string)
    requires IsRun(cfg, acts) && StatusAt(cfg, acts, j, id, Queued) && StatusAt(cfg, acts, |acts|, id, Completed)
    ensures exists m :: j < m < |acts| && StatusAt(cfg, acts, m, id, Running)
  {
    hide Enabled, Step, Inv;
    assert acts[..|acts|] == acts;
    var before, a := acts[..|acts| - 1], acts[|acts| - 1];
    var n := |before|;
    assert before[..n] == before;
    RunInv(cfg, before);
    StepAdvances(After(cfg, before), TracksOf(cfg, before), a, id);
    StatusEarlier(cfg, acts, j, id, Queued);
    if StatusAt(cfg, acts, n, id, Running) {
      assert j < n;
    } else {
      RecordsMoveForward(cfg, before, j, id);
      CompletedWasRunning(cfg, before, j, id);
      var m :| j < m < n && StatusAt(cfg, before, m, id, Running);
      StatusEarlier(cfg, acts, m, id, Running);
    }
  }

  lemma TurnedAwayStep(p: Pipe, a: Action, id: string, h: nat)
    requires Enabled(p, a) && At(p, id, TurnedAway(h))
    ensures At(Step(p, a), id, TurnedAway(h))
  {
    hide Process, NormalizedJob, Stored, QueuedState, NextRunner;
  }

  lemma TurnedAwayIsQueued(p: Pipe, g: Tracks, id: string, h: nat)
    requires Inv(p, g) && At(p, id, TurnedAway(h))
    ensures id in p.store && p.store[id].status == Queued
  {
    hide QueueOk, RunnersOk, RecordsOk, PoolOk;
    assert Subject(p.handlers[h]) == Some(id);
  }

  /** A submission that Enqueue turned away is never taken up: its record reads
      QUEUED in every later state. */
  lemma {:induction false} TurnedAwayStaysQueued(cfg: Config, acts: seq<Action>, j: nat, id: string, h: nat)
    requires IsRun(cfg, acts) && j <= |acts| && IsRun(cfg, acts[..j])
    requires At(After(cfg, acts[..j]), id, TurnedAway(h))
    ensures At(After(cfg, acts), id, TurnedAway(h))
    ensures id in After(cfg, acts).store && After(cfg, acts).store[id].status == Queued
  {
    hide At, Enabled, Step, Inv;
    if j == |acts| {
      assert acts[..j] == acts;
    } else {
      var before, a := acts[..|acts| - 1], acts[|acts| - 1];
      assert before[..j] == acts[..j];
      TurnedAwayStaysQueued(cfg, before, j, id, h);
      TurnedAwayStep(After(cfg, before), a, id, h);
    }
    RunInv(cfg, acts);
    TurnedAwayIsQueued(After(cfg, acts), TracksOf(cfg, acts), id, h);
  }

  /** The submission's job, as its handler saved it, and the effects its worker
      was given, come from the run itself. */
  ghost predicate Sourced(acts: seq<Action>, t: Track) {
    && SaveQueued(t.h, t.job) in acts
    && (t.stage.AtRunner? || t.stage.Done? ==>
          exists w, host :: Dequeue(w, NormalizedJob(t.job), host) in acts
            && t.log == Process(host, NormalizedJob(t.job)))
  }

  lemma SourcedExtends(acts: seq<Action>, a: Action, t: Track)
    requires Sourced(acts, t)
    ensures Sourced(acts + [a], t)
  {
    if t.stage.AtRunner? || t.stage.Done? {
      var w, host :| Dequeue(w, NormalizedJob(t.job), host) in acts && t.log == Process(host, NormalizedJob(t.job));
      assert Dequeue(w, NormalizedJob(t.job), host) in acts + [a];
    }
  }

  lemma SourcedByDequeue(p: Pipe, g: Tracks, a: Action, acts: seq<Action>)
    requires QueueOk(p.queue.ch, g) && Enabled(p, a) && a.Dequeue? && a.job.id in g
    requires SaveQueued(g[a.job.id].h, g[a.job.id].job) in acts
    ensures Sourced(acts + [a], g[a.job.id].(stage := AtRunner(a.w), log := Process(a.host, a.job)))
  {
    assert a.job == NormalizedJob(g[a.job.id].job);
    assert Dequeue(a.w, NormalizedJob(g[a.job.id].job), a.host) == (acts + [a])[|acts|];
  }

  lemma SourcedStep(p: Pipe, g: Tracks, a: Action, acts: seq<Action>, id: string)
    requires Inv(p, g) && Enabled(p, a) && id in Follow(p, g, a)
    requires forall i :: i in g ==> Sourced(acts, g[i])
    ensures Sourced(acts + [a], Follow(p, g, a)[id])
  {
    hide HandlersOk, QueueOk, RestOk, RecordsOk, PoolOk, Process, NormalizedJob, IsFinale;
    assert (acts + [a])[|acts|] == a;
    if id in g {
      SourcedExtends(acts, a, g[id]);
      if a.Dequeue? && id == a.job.id {
        SourcedByDequeue(p, g, a, acts);
      } else if a.Finish? && id == p.runners[a.w].job.id {
        assert HeldBy(p.runners[a.w], a.w, g);
      }
    }
  }

  lemma {:induction false} TracksAreSourced(cfg: Config, acts: seq<Action>)
    requires IsRun(cfg, acts)
    ensures forall id :: id in TracksOf(cfg, acts) ==> Sourced(acts, TracksOf(cfg, acts)[id])
  {
    if acts != [] {
      var before, a := acts[..|acts| - 1], acts[|acts| - 1];
      TracksAreSourced(cfg, before);
      RunInv(cfg, before);
      assert before + [a] == acts;
      forall id | id in TracksOf(cfg, acts) ensures Sourced(acts, TracksOf(cfg, acts)[id]) {
        SourcedStep(After(cfg, before), TracksOf(cfg, before), a, before, id);
      }
    }
  }

  lemma NormalizedKeepsId(job: Job)
    ensures NormalizedJob(job).id == job.id
  {
  }

  lemma TerminalIsEnd(p: Pipe, g: Tracks, id: string)
    requires Inv(p, g) && id in p.store && Terminal(p.store[id].status)
    ensures id in g && g[id].job.id == id && (g[id].stage.AtRunner? || g[id].stage.Done?)
    ensures Ends(g[id].log, id) && p.store[id] == EndState(g[id].log, id)
  {
    hide QueueOk, PoolOk, NormalizedJob, IsFinale;
    var t := g[id];
    if t.stage.AtRunner? {
      assert HeldBy(p.runners[t.stage.w], t.stage.w, g);
      UnfinishedRecord(p.store, p.runners[t.stage.w]);
    }
  }

  /** What a client reads once a submission is terminal is exactly what ProcessJob
      computed for the job that was submitted, on the host that ran it. */
  lemma TerminalRecordIsComputed(cfg: Config, acts: seq<Action>, id: string)
    requires IsRun(cfg, acts) && id in After(cfg, acts).store
    requires Terminal(After(cfg, acts).store[id].status)
    ensures exists h, w, job, host ::
              && SaveQueued(h, job) in acts && Dequeue(w, NormalizedJob(job), host) in acts
              && job.id == id && After(cfg, acts).store[id] == FinalState(host, NormalizedJob(job))
  {
    hide Inv, Process, NormalizedJob;
    var p, g := After(cfg, acts), TracksOf(cfg, acts);
    RunInv(cfg, acts);
    TracksAreSourced(cfg, acts);
    TerminalIsEnd(p, g, id);
    var t := g[id];
    assert Sourced(acts, t);
    var w, host :| Dequeue(w, NormalizedJob(t.job), host) in acts && t.log == Process(host, NormalizedJob(t.job));
    NormalizedKeepsId(t.job);
    ProcessEnds(host, NormalizedJob(t.job));
  }

  // ---- The pool ----------------------------------------------------------

  lemma CfgStep(p: Pipe, a: Action)
    requires Enabled(p, a)
    ensures Step(p, a).cfg == p.cfg
  {
    hide Process, NormalizedJob;
  }

  lemma {:induction false} CfgIsConstant(cfg: Config, acts: seq<Action>)
    requires IsRun(cfg, acts)
    ensures After(cfg, acts).cfg == cfg
  {
    if acts != [] {
      var before := acts[..|acts| - 1];
      CfgIsConstant(cfg, before);
      CfgStep(After(cfg, before), acts[|acts| - 1]);
    }
  }

  /** activeJobs is the number of workers in the counted region of their loop,
      and at most the concurrency. */
  lemma ActiveJobsIsLoad(cfg: Config, acts: seq<Action>)
    requires IsRun(cfg, acts)
    ensures var p := After(cfg, acts);
            p.active == Load(p.runners) && 0 <= p.active <= cfg.concurrency == |p.runners|
  {
    RunInv(cfg, acts);
    LoadBound(After(cfg, acts).runners);
    CfgIsConstant(cfg, acts);
  }

  /** Workers that have a job not yet counted in totalJobs. */
  function Uncounted(rs: seq<Runner>): nat {
    if rs == [] then 0
    else Uncounted(rs[..|rs| - 1]) + if rs[|rs| - 1].Fetched? || rs[|rs| - 1].Counted? then 1 else 0
  }

  lemma {:induction false} UncountedUpdate(rs: seq<Runner>, w: nat, r: Runner)
    requires w < |rs|
    ensures Uncounted(rs[w := r]) == Uncounted(rs) - (if rs[w].Fetched? || rs[w].Counted? then 1 else 0)
                                     + if r.Fetched? || r.Counted? then 1 else 0
  {
    var n := |rs| - 1;
    if w == n {
      assert rs[w := r][..n] == rs[..n];
    } else {
      UncountedUpdate(rs[..n], w, r);
      assert rs[w := r][..n] == rs[..n][w := r];
    }
  }

  lemma {:induction false} IdleUncounted(rs: seq<Runner>)
    requires forall w :: 0 <= w < |rs| ==> rs[w].Idle?
    ensures Uncounted(rs) == 0
  {
    if rs != [] {
      IdleUncounted(rs[..|rs| - 1]);
    }
  }

  lemma TotalStep(p: Pipe, a: Action)
    requires Enabled(p, a)
    ensures Step(p, a).total + Uncounted(Step(p, a).runners)
         == p.total + Uncounted(p.runners) + if a.Dequeue? then 1 else 0
  {
    hide Uncounted, Process, Enabled, Step;
    RunnersStep(p, a);
    if ByRunner(a) {
      UncountedUpdate(p.runners, a.w, NextRunner(p.runners[a.w], a));
    }
  }

  /** totalJobs counts every job taken from the queue, except those whose worker
      is just about to count them. */
  lemma {:induction false} TotalJobsIsTaken(cfg: Config, acts: seq<Action>)
    requires IsRun(cfg, acts)
    ensures After(cfg, acts).total + Uncounted(After(cfg, acts).runners) == |TakenJobs(acts)|
  {
    hide Enabled, Step;
    if acts == [] {
      IdleUncounted(Init(cfg).runners);
    } else {
      TotalJobsIsTaken(cfg, acts[..|acts| - 1]);
      TotalStep(After(cfg, acts[..|acts| - 1]), acts[|acts| - 1]);
    }
  }

  function DequeuesBy(acts: seq<Action>, w: nat): nat {
    if acts == [] then 0
    else DequeuesBy(acts[..|acts| - 1], w)
         + if acts[|acts| - 1].Dequeue? && acts[|acts| - 1].w == w then 1 else 0
  }

  function CanDequeue(p: Pipe, w: nat): nat {
    if w < |p.runners| && p.runners[w].Polling? then 1 else 0
  }

  lemma StoppingStep(p: Pipe, a: Action, w: nat)
    requires Enabled(p, a) && p.stopping
    ensures Step(p, a).stopping
    ensures (if a.Dequeue? && a.w == w then 1 else 0) + CanDequeue(Step(p, a), w) <= CanDequeue(p, w)
  {
    hide Process, Enabled, Step;
    RunnersStep(p, a);
  }

  /** After stop is requested a worker takes at most one more job, and only if it
      was already polling. */
  lemma {:induction false} AtMostOneMoreJob(cfg: Config, before: seq<Action>, after: seq<Action>, w: nat)
    requires IsRun(cfg, before) && IsRun(cfg, before + after)
    requires After(cfg, before).stopping
    ensures After(cfg, before + after).stopping
    ensures DequeuesBy(after, w) + CanDequeue(After(cfg, before + after), w) <= CanDequeue(After(cfg, before), w) <= 1
  {
    hide Process, NormalizedJob;
    if after == [] {
      assert before + after == before;
    } else {
      var n := |after| - 1;
      assert (before + after)[..|before + after| - 1] == before + after[..n];
      AtMostOneMoreJob(cfg, before, after[..n], w);
      StoppingStep(After(cfg, before + after[..n]), after[n], w);
    }
  }

  lemma TakenIsHeld(p: Pipe, g: Tracks, a: Action)
    requires Inv(p, g) && Enabled(p, a) && a.Dequeue?
    ensures a.job.id in Follow(p, g, a) && Follow(p, g, a)[a.job.id].stage.AtRunner?
  {
    hide HandlersOk, QueueOk, RunnersOk, RestOk, RecordsOk, PoolOk, Process, NormalizedJob;
    QueueHead(p.queue.ch, g);
  }

  lemma UnsavedIsUntracked(p: Pipe, g: Tracks, id: string)
    requires Inv(p, g) && id !in p.store
    ensures id !in g
  {
    hide HandlersOk, QueueOk, RunnersOk, RecordsOk, PoolOk;
  }

  lemma StageStays(p: Pipe, g: Tracks, a: Action, id: string)
    requires Inv(p, g) && Enabled(p, a) && id in g && (g[id].stage.AtRunner? || g[id].stage.Done?)
    ensures id in Follow(p, g, a) && (Follow(p, g, a)[id].stage.AtRunner? || Follow(p, g, a)[id].stage.Done?)
  {
    hide HandlersOk, QueueOk, RunnersOk, RestOk, RecordsOk, PoolOk, Process, NormalizedJob;
    if a.Send? {
      HandlerSends(p.handlers, g, a.h, a.job);
    } else if a.SaveQueued? {
      UnsavedIsUntracked(p, g, a.job.id);
    }
  }

  lemma {:induction false} TakenAreHeldOrDone(cfg: Config, acts: seq<Action>, job: Job)
    requires IsRun(cfg, acts) && job in TakenJobs(acts)
    ensures job.id in TracksOf(cfg, acts)
    ensures TracksOf(cfg, acts)[job.id].stage.AtRunner? || TracksOf(cfg, acts)[job.id].stage.Done?
  {
    hide Inv, Enabled, Step, Follow;
    var before, a := acts[..|acts| - 1], acts[|acts| - 1];
    var p, g := After(cfg, before), TracksOf(cfg, before);
    RunInv(cfg, before);
    if job in TakenJobs(before) {
      TakenAreHeldOrDone(cfg, before, job);
      StageStays(p, g, a, job.id);
    } else {
      TakenIsHeld(p, g, a);
    }
  }

  lemma StoppedMeansExited(p: Pipe, g: Tracks)
    requires Inv(p, g) && p.stopped
    ensures (forall w :: 0 <= w < |p.runners| ==> p.runners[w].Exited?) && p.active == 0
  {
    hide HandlersOk, QueueOk, RunnersOk, RecordsOk, RestOk;
    LoadBound(p.runners);
  }

  lemma ExitedMeansDone(p: Pipe, g: Tracks, id: string)
    requires Inv(p, g) && (forall w :: 0 <= w < |p.runners| ==> p.runners[w].Exited?)
    requires id in g && (g[id].stage.AtRunner? || g[id].stage.Done?)
    ensures id in p.store && Terminal(p.store[id].status)
  {
    hide HandlersOk, QueueOk, RecordsOk, PoolOk, IsFinale, NormalizedJob;
  }

  /** When Stop returns, every worker has exited, no job is active, and every job
      that was ever dequeued has a terminal record. */
  lemma StopLeavesNothingRunning(cfg: Config, acts: seq<Action>)
    requires IsRun(cfg, acts) && After(cfg, acts).stopped
    ensures var p := After(cfg, acts);
            && (forall w :: 0 <= w < |p.runners| ==> p.runners[w].Exited?)
            && p.active == 0
            && forall job :: job in TakenJobs(acts) ==> job.id in p.store && Terminal(p.store[job.id].status)
  {
    hide Inv, IsRun, After;
    var p, g := After(cfg, acts), TracksOf(cfg, acts);
    RunInv(cfg, acts);
    StoppedMeansExited(p, g);
    forall job | job in TakenJobs(acts) ensures job.id in p.store && Terminal(p.store[job.id].status) {
      TakenAreHeldOrDone(cfg, acts, job);
      ExitedMeansDone(p, g, job.id);
    }
  }
}
