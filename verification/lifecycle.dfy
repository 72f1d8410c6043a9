/** Safety of the submission pipeline over all runs: where each submission is,
    how its stored record moves, and what the pool promises. */
module Lifecycle {
  import opened Models
  import opened Requests
  import opened Worker
  import opened Outcomes
  import opened Queues
  import opened Pipeline

  // ---- Bookkeeping for the proof ----------------------------------------

  datatype Stage = Pending | Waiting | AtRunner(w: nat) | Done

  /** What the proof remembers of a submission: its handler, its job, where it
      is, and what its worker does to it. */
  datatype Track = Track(h: nat, job: Job, stage: Stage, log: seq<Effect>)

  type Tracks = map<string, Track>

  /** The submission a handler is about. */
  function Subject(h: Handler): Option<string> {
    match h
    case Throttled => None
    case Admitted => None
    case Saved(job) => Some(job.id)
    case Sending(job) => Some(job.id)
    case Enqueued(id) => Some(id)
    case Answered(id) => Some(id)
    case Refused(id) => Some(id)
    case Crashed(id) => Some(id)
  }

  predicate Holding(r: Runner) { r.Fetched? || r.Counted? || r.Busy? }

  predicate Kept(h: Handler) { h.Saved? || h.Sending? || h.Refused? || h.Crashed? }

  /** Each submission has one handler, and each handler's submission is tracked. */
  ghost predicate HandlersOk(hs: map<nat, Handler>, g: Tracks) {
    && (forall h :: h in hs && Subject(hs[h]).Some? ==>
          Subject(hs[h]).value in g && g[Subject(hs[h]).value].h == h)
    && (forall id :: id in g ==>
          && g[id].h in hs && Subject(hs[g[id].h]) == Some(id) && g[id].job.id == id
          && (hs[g[id].h].Saved? || hs[g[id].h].Sending? ==> hs[g[id].h].job == g[id].job)
          && (g[id].stage.Pending? <==> Kept(hs[g[id].h])))
  }

  ghost predicate Lists(ch: seq<Job>, id: string) {
    exists i :: 0 <= i < |ch| && ch[i].id == id
  }

  /** The queue lists exactly the waiting submissions, each once. */
  ghost predicate QueueOk(ch: seq<Job>, g: Tracks) {
    && (forall i :: 0 <= i < |ch| ==>
          ch[i].id in g && g[ch[i].id].stage == Waiting && ch[i] == NormalizedJob(g[ch[i].id].job))
    && (forall i, j :: 0 <= i < j < |ch| ==> ch[i].id != ch[j].id)
    && (forall id :: id in g && g[id].stage == Waiting ==> Lists(ch, id))
  }

  ghost predicate HeldBy(r: Runner, w: nat, g: Tracks)
    requires Holding(r)
  {
    var id := r.job.id;
    && id in g && g[id].stage == AtRunner(w) && g[id].log == r.log
    && r.job == NormalizedJob(g[id].job) && Ends(r.log, id)
  }

  /** The workers hold exactly the submissions tracked to them. */
  ghost predicate RunnersOk(rs: seq<Runner>, g: Tracks) {
    && (forall w :: 0 <= w < |rs| && Holding(rs[w]) ==> HeldBy(rs[w], w, g))
    && (forall id :: id in g && g[id].stage.AtRunner? ==>
          g[id].stage.w < |rs| && Holding(rs[g[id].stage.w]) && rs[g[id].stage.w].job.id == id)
  }

  /** Records of submissions that no worker holds. */
  ghost predicate RestOk(store: map<string, State>, g: Tracks) {
    && store.Keys == g.Keys
    && forall id :: id in g ==>
         match g[id].stage
         case Pending => store[id].status == Queued
         case Waiting => store[id].status == Queued
         case AtRunner(_) => true
         case Done => Ends(g[id].log, id) && store[id] == EndState(g[id].log, id)
  }

  /** What a worker has carried out of ProcessJob. */
  function DoneBy(r: Runner): seq<Effect>
    requires Holding(r)
  {
    if r.Busy? && r.pc <= |r.log| then r.log[..r.pc] else []
  }

  /** The record of the submission a worker holds: QUEUED, then the RUNNING record
      once it is saved, then the final one. */
  ghost predicate RecordOk(store: map<string, State>, r: Runner) {
    Holding(r) && r.job.id in store && Ends(r.log, r.job.id) &&
    if r.Busy? && r.pc > End(r.log, r.job.id) then store[r.job.id] == EndState(r.log, r.job.id)
    else Reflects(DoneBy(r), store[r.job.id])
  }

  ghost predicate RecordsOk(store: map<string, State>, rs: seq<Runner>) {
    forall w :: 0 <= w < |rs| && Holding(rs[w]) ==> RecordOk(store, rs[w])
  }

  function Processing(r: Runner): nat { if r.Counted? || r.Busy? then 1 else 0 }

  function Load(rs: seq<Runner>): nat {
    if rs == [] then 0 else Load(rs[..|rs| - 1]) + Processing(rs[|rs| - 1])
  }

  /** The reasons for a worker to leave its loop. */
  predicate ShuttingDown(p: Pipe) { p.stopping || p.cancelled || (p.queue.closed && p.queue.ch == []) }

  /** The counter counts, and no worker has left its loop without a reason. */
  ghost predicate PoolOk(p: Pipe) {
    && p.active == Load(p.runners) && |p.runners| == p.cfg.concurrency
    && |p.queue.ch| <= p.queue.capacity == p.cfg.capacity
    && (p.stopped ==> p.stopping && forall w :: 0 <= w < |p.runners| ==> p.runners[w].Exited?)
    && (forall w :: 0 <= w < |p.runners| && p.runners[w].Exited? ==> ShuttingDown(p))
  }

  ghost predicate Inv(p: Pipe, g: Tracks) {
    && HandlersOk(p.handlers, g) && QueueOk(p.queue.ch, g) && RunnersOk(p.runners, g)
    && RestOk(p.store, g) && RecordsOk(p.store, p.runners) && PoolOk(p)
  }

  lemma {:induction false} LoadUpdate(rs: seq<Runner>, w: nat, r: Runner)
    requires w < |rs|
    ensures Load(rs[w := r]) == Load(rs) - Processing(rs[w]) + Processing(r)
  {
    var n := |rs| - 1;
    if w == n {
      assert rs[w := r][..n] == rs[..n];
    } else {
      LoadUpdate(rs[..n], w, r);
      assert rs[w := r][..n] == rs[..n][w := r];
    }
  }

  lemma {:induction false} LoadBound(rs: seq<Runner>)
    ensures Load(rs) <= |rs|
    ensures (forall w :: 0 <= w < |rs| ==> rs[w].Exited?) ==> Load(rs) == 0
  {
    if rs != [] {
      LoadBound(rs[..|rs| - 1]);
    }
  }

  // ---- How the parts of the invariant move ------------------------------

  /** s says the same about the same submission as r. */
  predicate Continues(r: Handler, s: Handler) {
    && Subject(s) == Subject(r) && Kept(s) == Kept(r)
    && (s.Saved? || s.Sending? ==> (r.Saved? || r.Sending?) && s.job == r.job)
  }

  /** A handler moves on without changing what it is about. */
  lemma HandlerMoves(hs: map<nat, Handler>, g: Tracks, h: nat, s: Handler)
    requires HandlersOk(hs, g) && h in hs && Continues(hs[h], s)
    ensures HandlersOk(hs[h := s], g)
  {
    hide NormalizedJob;
  }

  lemma HandlerArrives(hs: map<nat, Handler>, g: Tracks, h: nat, s: Handler)
    requires HandlersOk(hs, g) && h !in hs && Subject(s).None?
    ensures HandlersOk(hs[h := s], g)
  {
    hide NormalizedJob;
  }

  lemma HandlerSaves(hs: map<nat, Handler>, g: Tracks, h: nat, job: Job)
    requires HandlersOk(hs, g) && h in hs && hs[h].Admitted? && job.id !in g
    ensures HandlersOk(hs[h := Saved(job)], g[job.id := Track(h, job, Pending, [])])
  {
    hide NormalizedJob;
  }

  lemma HandlerSends(hs: map<nat, Handler>, g: Tracks, h: nat, job: Job)
    requires HandlersOk(hs, g) && h in hs && hs[h] == Sending(job)
    ensures job.id in g && g[job.id].h == h && g[job.id].job == job && g[job.id].stage.Pending?
    ensures HandlersOk(hs[h := Enqueued(job.id)], g[job.id := g[job.id].(stage := Waiting)])
  {
    hide NormalizedJob;
    assert Subject(hs[h]) == Some(job.id);
  }

  /** A submission past its handler changes stage. */
  lemma HandlersIgnore(hs: map<nat, Handler>, g: Tracks, id: string, t: Track)
    requires HandlersOk(hs, g) && id in g
    requires t.h == g[id].h && t.job == g[id].job && !t.stage.Pending? && !g[id].stage.Pending?
    ensures HandlersOk(hs, g[id := t])
  {
    hide NormalizedJob;
  }

  /** The queue does not notice submissions that are not waiting. */
  lemma QueueIgnores(ch: seq<Job>, g: Tracks, id: string, t: Track)
    requires QueueOk(ch, g) && (id in g ==> g[id].stage != Waiting) && t.stage != Waiting
    ensures QueueOk(ch, g[id := t])
  {
    hide NormalizedJob;
  }

  lemma QueueGrows(ch: seq<Job>, g: Tracks, job: Job)
    requires QueueOk(ch, g) && job.id in g && g[job.id].stage.Pending? && g[job.id].job == job
    ensures QueueOk(ch + [NormalizedJob(job)], g[job.id := g[job.id].(stage := Waiting)])
  {
    var more, f := ch + [NormalizedJob(job)], g[job.id := g[job.id].(stage := Waiting)];
    assert more[|ch|].id == job.id;
    forall id | id in f && f[id].stage == Waiting ensures Lists(more, id) {
      if id != job.id {
        var i :| 0 <= i < |ch| && ch[i].id == id;
        assert more[i].id == id;
      }
    }
  }

  lemma QueueHead(ch: seq<Job>, g: Tracks)
    requires QueueOk(ch, g) && ch != []
    ensures ch[0].id in g && g[ch[0].id].stage == Waiting && ch[0] == NormalizedJob(g[ch[0].id].job)
  {
    hide NormalizedJob;
  }

  lemma QueueShrinks(ch: seq<Job>, g: Tracks, t: Track)
    requires QueueOk(ch, g) && ch != [] && t.stage != Waiting
    ensures ch[0].id in g && g[ch[0].id].stage == Waiting && ch[0] == NormalizedJob(g[ch[0].id].job)
    ensures QueueOk(ch[1..], g[ch[0].id := t])
  {
    hide NormalizedJob;
    var f := g[ch[0].id := t];
    forall id | id in f && f[id].stage == Waiting ensures Lists(ch[1..], id) {
      var i :| 0 <= i < |ch| && ch[i].id == id;
      assert ch[1..][i - 1].id == id;
    }
  }

  lemma RunnersIgnore(rs: seq<Runner>, g: Tracks, id: string, t: Track)
    requires RunnersOk(rs, g) && (id in g ==> !g[id].stage.AtRunner?) && !t.stage.AtRunner?
    ensures RunnersOk(rs, g[id := t])
  {
    hide NormalizedJob;
    forall w | 0 <= w < |rs| && Holding(rs[w]) ensures HeldBy(rs[w], w, g[id := t]) {
      assert HeldBy(rs[w], w, g);
    }
  }

  /** A worker moves on with the same job, or with none before and after. */
  lemma RunnerMoves(rs: seq<Runner>, g: Tracks, w: nat, r: Runner)
    requires RunnersOk(rs, g) && w < |rs| && Holding(r) == Holding(rs[w])
    requires Holding(r) ==> r.job == rs[w].job && r.log == rs[w].log
    ensures RunnersOk(rs[w := r], g)
  {
    hide NormalizedJob;
    var moved := rs[w := r];
    forall v | 0 <= v < |rs| && Holding(moved[v]) ensures HeldBy(moved[v], v, g) {
      assert HeldBy(rs[v], v, g);
    }
  }

  lemma RunnerFetches(rs: seq<Runner>, g: Tracks, w: nat, job: Job, log: seq<Effect>)
    requires RunnersOk(rs, g) && w < |rs| && !Holding(rs[w])
    requires job.id in g && g[job.id].stage == Waiting && job == NormalizedJob(g[job.id].job) && Ends(log, job.id)
    ensures RunnersOk(rs[w := Fetched(job, log)], g[job.id := g[job.id].(stage := AtRunner(w), log := log)])
  {
    hide NormalizedJob;
    var f := g[job.id := g[job.id].(stage := AtRunner(w), log := log)];
    var moved := rs[w := Fetched(job, log)];
    forall v | 0 <= v < |rs| && Holding(moved[v]) ensures HeldBy(moved[v], v, f) {
      assert v != w ==> HeldBy(rs[v], v, g);
    }
  }

  lemma RunnerFinishes(rs: seq<Runner>, g: Tracks, w: nat)
    requires RunnersOk(rs, g) && w < |rs| && Holding(rs[w])
    ensures HeldBy(rs[w], w, g)
    ensures RunnersOk(rs[w := Idle], g[rs[w].job.id := g[rs[w].job.id].(stage := Done)])
  {
    hide NormalizedJob;
    assert HeldBy(rs[w], w, g);
    var f := g[rs[w].job.id := g[rs[w].job.id].(stage := Done)];
    var moved := rs[w := Idle];
    forall v | 0 <= v < |rs| && Holding(moved[v]) ensures HeldBy(moved[v], v, f) {
      assert HeldBy(rs[v], v, g);
    }
  }

  /** What surrounds the terminal save. */
  lemma FinaleHas(log: seq<Effect>, k: nat, id: string)
    requires IsFinale(log, k, id)
    ensures log[k].Save? && log[k].state.id == id
    ensures forall i :: 0 <= i < k && log[i].Save? ==> log[i].state.id == id
    ensures forall i :: k < i < |log| ==> !log[i].Save?
  {
    forall i | 0 <= i < k && log[i].Save? ensures log[i].state.id == id {
      assert Quiet(log[i], id);
    }
  }

  lemma ReflectsStep(done: seq<Effect>, s: State, e: Effect)
    requires Reflects(done, s)
    ensures Reflects(done + [e], if e.Save? then e.state else s) || (e.Save? && !NoSaves(done))
  {
    assert forall i :: 0 <= i < |done| ==> (done + [e])[i] == done[i];
    assert (done + [e])[|done|] == e;
  }

  /** The edges of a stored record: QUEUED to RUNNING or FAILED, RUNNING to
      COMPLETED or FAILED, nothing out of a terminal record. */
  predicate Advances(s: State, t: State) {
    || s == t
    || (s.status == Queued && (t.status == Running || t.status == Failed))
    || (s.status == Running && Terminal(t.status))
  }

  /** A save before the terminal one is the first: QUEUED becomes RUNNING. */
  lemma EarlySave(log: seq<Effect>, k: nat, pc: nat, id: string, s: State)
    requires IsFinale(log, k, id) && pc < k && Reflects(log[..pc], s)
    ensures log[pc].Save? ==> NoSaves(log[..pc]) && Advances(s, log[pc].state)
  {
    if log[pc].Save? {
      assert Quiet(log[pc], id) && log[..k][pc] == log[pc];
      var m: nat :| OneSave(log[..k], m);
      assert forall i :: 0 <= i < pc ==> log[..pc][i] == log[..k][i];
    }
  }

  /** The terminal save: COMPLETED replaces the RUNNING record, FAILED that or QUEUED. */
  lemma FinalSave(log: seq<Effect>, k: nat, id: string, s: State)
    requires IsFinale(log, k, id) && Reflects(log[..k], s)
    ensures Advances(s, log[k].state)
  {
    if m: nat :| OneSave(log[..k], m) {
      assert Quiet(log[m], id) && log[..k][m] == log[m];
    }
  }

  /** One effect of ProcessJob on the record of its submission. */
  lemma OwnRecordMoves(store: map<string, State>, r: Runner)
    requires r.Busy? && r.pc < |r.log| && RecordOk(store, r)
    ensures var e := r.log[r.pc];
            && RecordOk(Stored(store, e), r.(pc := r.pc + 1))
            && (e.Save? ==> e.state.id == r.job.id && Advances(store[e.state.id], e.state))
  {
    hide Announces, Reflects, OneSave, NoSaves, Advances;
    var e, id := r.log[r.pc], r.job.id;
    var k := End(r.log, id);
    FinaleHas(r.log, k, id);
    assert r.log[..r.pc + 1] == r.log[..r.pc] + [e];
    if r.pc < k {
      EarlySave(r.log, k, r.pc, id, store[id]);
      ReflectsStep(r.log[..r.pc], store[id], e);
    } else if r.pc == k {
      FinalSave(r.log, k, id, store[id]);
    }
  }

  /** Short of the terminal save the record is not terminal. */
  lemma UnfinishedRecord(store: map<string, State>, r: Runner)
    requires RecordOk(store, r)
    ensures store[r.job.id] == EndState(r.log, r.job.id) || !Terminal(store[r.job.id].status)
  {
    var k, done := End(r.log, r.job.id), DoneBy(r);
    if !(r.Busy? && r.pc > k) && !NoSaves(done) {
      var i :| 0 <= i < |done| && done[i].Save?;
      assert Quiet(r.log[i], r.job.id);
    }
  }

  lemma RecordMoves(store: map<string, State>, rs: seq<Runner>, g: Tracks, w: nat)
    requires RunnersOk(rs, g) && RecordsOk(store, rs) && RestOk(store, g)
    requires w < |rs| && rs[w].Busy? && rs[w].pc < |rs[w].log|
    ensures var e := rs[w].log[rs[w].pc];
            var after := Stored(store, e);
            && RecordsOk(after, rs[w := rs[w].(pc := rs[w].pc + 1)]) && RestOk(after, g)
            && (e.Save? ==> e.state.id == rs[w].job.id && e.state.id in store && Advances(store[e.state.id], e.state))
  {
    hide NormalizedJob, IsFinale, Quiet, Reflects, Advances;
    var r := rs[w];
    var e := r.log[r.pc];
    assert HeldBy(r, w, g) && RecordOk(store, r);
    OwnRecordMoves(store, r);
    var moved := rs[w := r.(pc := r.pc + 1)];
    var after := Stored(store, e);
    forall v | 0 <= v < |moved| && Holding(moved[v]) ensures RecordOk(after, moved[v]) {
      assert HeldBy(rs[v], v, g) && RecordOk(store, rs[v]);
    }
  }

  // ---- Every step keeps the invariant -----------------------------------

  ghost function Follow(p: Pipe, g: Tracks, a: Action): Tracks {
    match a
    case SaveQueued(h, job) => g[job.id := Track(h, job, Pending, [])]
    case Send(_, job) => if job.id in g then g[job.id := g[job.id].(stage := Waiting)] else g
    case Dequeue(w, job, host) =>
      if job.id in g then g[job.id := g[job.id].(stage := AtRunner(w), log := Process(host, job))] else g
    case Finish(w) =>
      if w < |p.runners| && Holding(p.runners[w]) && p.runners[w].job.id in g
      then g[p.runners[w].job.id := g[p.runners[w].job.id].(stage := Done)] else g
    case _ => g
  }

  predicate MovesHandler(a: Action) {
    a.CheckOpen? || a.SendOnClosed? || a.Overflow? || a.GiveUp? || a.Announce?
  }

  lemma HandlerParts(p: Pipe, g: Tracks, h: nat, s: Handler)
    requires Inv(p, g) && h in p.handlers && Continues(p.handlers[h], s)
    ensures Inv(SetHandler(p, h, s), g)
  {
    HandlerMoves(p.handlers, g, h, s);
  }

  lemma HandlerStep(p: Pipe, g: Tracks, a: Action)
    requires Inv(p, g) && Enabled(p, a) && MovesHandler(a)
    ensures Inv(Step(p, a), g)
  {
    hide Inv, Process, NormalizedJob;
    HandlerParts(p, g, a.h, Step(p, a).handlers[a.h]);
  }

  lemma ArriveStep(p: Pipe, g: Tracks, a: Action)
    requires Inv(p, g) && Enabled(p, a) && a.Arrive?
    ensures Inv(Step(p, a), g)
  {
    hide Process, NormalizedJob;
    HandlerArrives(p.handlers, g, a.h, Step(p, a).handlers[a.h]);
  }

  lemma AcceptPool(p: Pipe, h: nat, job: Job)
    requires PoolOk(p)
    ensures PoolOk(Accept(p, h, job))
  {
  }

  lemma RestGrows(store: map<string, State>, g: Tracks, s: State, t: Track)
    requires RestOk(store, g) && s.id !in g && s.status == Queued && t.stage.Pending?
    ensures RestOk(store[s.id := s], g[s.id := t])
  {
  }

  lemma RecordsIgnoreNew(store: map<string, State>, rs: seq<Runner>, g: Tracks, s: State)
    requires RecordsOk(store, rs) && RunnersOk(rs, g) && store.Keys == g.Keys && s.id !in store
    ensures RecordsOk(store[s.id := s], rs)
  {
    hide NormalizedJob;
    forall w | 0 <= w < |rs| && Holding(rs[w]) ensures RecordOk(store[s.id := s], rs[w]) {
      assert HeldBy(rs[w], w, g) && RecordOk(store, rs[w]);
    }
  }

  lemma Assembled(p: Pipe, g: Tracks)
    requires HandlersOk(p.handlers, g) && QueueOk(p.queue.ch, g) && RunnersOk(p.runners, g)
    requires RestOk(p.store, g) && RecordsOk(p.store, p.runners) && PoolOk(p)
    ensures Inv(p, g)
  {
  }

  lemma SaveParts(p: Pipe, g: Tracks, h: nat, job: Job)
    requires Inv(p, g) && HandlerIs(p, h, Admitted) && job.id !in p.store
    ensures Inv(Accept(p, h, job), g[job.id := Track(h, job, Pending, [])])
  {
    hide HandlersOk, QueueOk, PoolOk, RunnersOk, RecordsOk, NormalizedJob;
    var t := Track(h, job, Pending, []);
    HandlerSaves(p.handlers, g, h, job);
    QueueIgnores(p.queue.ch, g, job.id, t);
    RunnersIgnore(p.runners, g, job.id, t);
    RecordsIgnoreNew(p.store, p.runners, g, QueuedState(job));
    RestGrows(p.store, g, QueuedState(job), t);
    AcceptPool(p, h, job);
    Assembled(Accept(p, h, job), g[job.id := t]);
  }

  lemma SaveStep(p: Pipe, g: Tracks, a: Action)
    requires Inv(p, g) && Enabled(p, a) && a.SaveQueued?
    ensures Inv(Step(p, a), Follow(p, g, a))
  {
    hide Inv, Process, NormalizedJob;
    SaveParts(p, g, a.h, a.job);
  }

  lemma AppendPool(p: Pipe, h: nat, job: Job)
    requires PoolOk(p) && |p.queue.ch| < p.queue.capacity && !p.queue.closed
    ensures PoolOk(Append(p, h, job))
  {
    hide NormalizedJob;
  }

  lemma RestWaits(store: map<string, State>, g: Tracks, id: string, t: Track)
    requires RestOk(store, g) && id in g && g[id].stage.Pending? && t.stage == Waiting
    ensures RestOk(store, g[id := t])
  {
  }

  lemma SendParts(p: Pipe, g: Tracks, h: nat, job: Job)
    requires Inv(p, g) && HandlerIs(p, h, Sending(job)) && |p.queue.ch| < p.queue.capacity && !p.queue.closed
    ensures job.id in g
    ensures Inv(Append(p, h, job), g[job.id := g[job.id].(stage := Waiting)])
  {
    hide HandlersOk, QueueOk, PoolOk, RunnersOk, RecordsOk, RestOk, NormalizedJob;
    HandlerSends(p.handlers, g, h, job);
    var t := g[job.id].(stage := Waiting);
    QueueGrows(p.queue.ch, g, job);
    RunnersIgnore(p.runners, g, job.id, t);
    RestWaits(p.store, g, job.id, t);
    AppendPool(p, h, job);
    Assembled(Append(p, h, job), g[job.id := t]);
  }

  lemma SendStep(p: Pipe, g: Tracks, a: Action)
    requires Inv(p, g) && Enabled(p, a) && a.Send?
    ensures Inv(Step(p, a), Follow(p, g, a))
  {
    hide Inv, Process, NormalizedJob;
    SendParts(p, g, a.h, a.job);
  }

  lemma TakePool(p: Pipe, w: nat, job: Job, log: seq<Effect>)
    requires PoolOk(p) && w < |p.runners| && p.runners[w] == Polling && p.queue.ch != []
    ensures PoolOk(Take(p, w, job, log))
  {
    LoadUpdate(p.runners, w, Fetched(job, log));
  }

  lemma RestIgnoresHeld(store: map<string, State>, g: Tracks, id: string, t: Track)
    requires RestOk(store, g) && id in g && t.stage.AtRunner?
    ensures RestOk(store, g[id := t])
  {
  }

  lemma RecordsWithFetched(store: map<string, State>, rs: seq<Runner>, w: nat, job: Job, log: seq<Effect>)
    requires RecordsOk(store, rs) && w < |rs| && job.id in store && store[job.id].status == Queued && Ends(log, job.id)
    ensures RecordsOk(store, rs[w := Fetched(job, log)])
  {
  }

  lemma DequeueParts(p: Pipe, g: Tracks, w: nat, job: Job, log: seq<Effect>)
    requires Inv(p, g) && w < |p.runners| && p.runners[w] == Polling
    requires p.queue.ch != [] && p.queue.ch[0] == job && Ends(log, job.id)
    ensures job.id in g
    ensures Inv(Take(p, w, job, log), g[job.id := g[job.id].(stage := AtRunner(w), log := log)])
  {
    hide HandlersOk, QueueOk, PoolOk, RunnersOk, RecordsOk, NormalizedJob;
    QueueHead(p.queue.ch, g);
    var t := g[job.id].(stage := AtRunner(w), log := log);
    HandlersIgnore(p.handlers, g, job.id, t);
    QueueShrinks(p.queue.ch, g, t);
    RunnerFetches(p.runners, g, w, job, log);
    TakePool(p, w, job, log);
    RecordsWithFetched(p.store, p.runners, w, job, log);
    RestIgnoresHeld(p.store, g, job.id, t);
    Assembled(Take(p, w, job, log), g[job.id := t]);
  }

  lemma DequeueStep(p: Pipe, g: Tracks, a: Action)
    requires Inv(p, g) && Enabled(p, a) && a.Dequeue?
    ensures Inv(Step(p, a), Follow(p, g, a))
  {
    hide Inv, Process, NormalizedJob;
    var log, id := Process(a.host, a.job), a.job.id;
    ProcessEnds(a.host, a.job);
    DequeueParts(p, g, a.w, a.job, log);
  }

  predicate MovesRunner(a: Action) {
    a.Poll? || a.Leave? || a.PollTimeout? || a.PollFails? || a.CountActive? || a.CountTotal?
  }

  predicate ByRunner(a: Action) { MovesRunner(a) || a.Dequeue? || a.Act? || a.Finish? }

  /** Where an action leaves the worker that takes it. */
  ghost function NextRunner(r: Runner, a: Action): Runner {
    match a
    case Poll(_) => Polling
    case PollTimeout(_) => Idle
    case Leave(_) => Exited
    case PollFails(_) => Exited
    case Dequeue(_, job, host) => Fetched(job, Process(host, job))
    case CountActive(_) => if r.Fetched? then Counted(r.job, r.log) else r
    case CountTotal(_) => if r.Counted? then Busy(r.job, r.log, 0) else r
    case Act(_, _, _) => if r.Busy? then r.(pc := r.pc + 1) else r
    case Finish(_) => Idle
    case _ => r
  }

  /** What an action does to the workers and their counter. */
  lemma RunnersStep(p: Pipe, a: Action)
    requires Enabled(p, a)
    ensures ByRunner(a) ==> a.w < |p.runners| && Step(p, a).runners == p.runners[a.w := NextRunner(p.runners[a.w], a)]
    ensures !ByRunner(a) ==> Step(p, a).runners == p.runners
    ensures a.Poll? ==> !p.stopping
    ensures a.Dequeue? ==> p.runners[a.w].Polling?
    ensures a.CountActive? ==> p.runners[a.w].Fetched?
    ensures a.CountTotal? ==> p.runners[a.w].Counted?
    ensures a.Act? || a.Finish? ==> p.runners[a.w].Busy?
    ensures a.Act? ==> p.runners[a.w].pc < |p.runners[a.w].log|
    ensures a.Poll? || a.Leave? ==> p.runners[a.w].Idle?
    ensures a.PollTimeout? || a.PollFails? ==> p.runners[a.w].Polling?
    ensures Step(p, a).total == p.total + if a.CountTotal? then 1 else 0
    ensures p.stopping ==> Step(p, a).stopping
  {
    hide Process, NormalizedJob, Stored, QueuedState;
  }

  lemma RecordsWithLoop(store: map<string, State>, rs: seq<Runner>, w: nat, r: Runner)
    requires RecordsOk(store, rs) && w < |rs| && (Holding(r) ==> RecordOk(store, r))
    ensures RecordsOk(store, rs[w := r])
  {
  }

  lemma LoopParts(p: Pipe, g: Tracks, w: nat, r: Runner)
    requires Inv(p, g) && w < |p.runners| && !p.runners[w].Exited?
    requires r.Exited? ==> ShuttingDown(p)
    requires (!Holding(p.runners[w]) && !Holding(r))
          || (p.runners[w].Fetched? && r == Counted(p.runners[w].job, p.runners[w].log))
          || (p.runners[w].Counted? && r == Busy(p.runners[w].job, p.runners[w].log, 0))
    ensures Inv(SetRunner(p, w, r).(active := p.active + Processing(r) - Processing(p.runners[w])), g)
  {
    hide HandlersOk, QueueOk, RestOk, NormalizedJob, IsFinale;
    LoadUpdate(p.runners, w, r);
    RunnerMoves(p.runners, g, w, r);
    assert Holding(p.runners[w]) ==> RecordOk(p.store, p.runners[w]);
    RecordsWithLoop(p.store, p.runners, w, r);
  }

  lemma LoopStep(p: Pipe, g: Tracks, a: Action)
    requires Inv(p, g) && Enabled(p, a) && MovesRunner(a)
    ensures Inv(Step(p, a), g)
  {
    hide HandlersOk, QueueOk, RunnersOk, RestOk, RecordsOk, Load, Process, NormalizedJob;
    var r := Step(p, a).runners[a.w];
    LoopParts(p, g, a.w, r);
  }

  lemma CarryPool(p: Pipe, w: nat)
    requires PoolOk(p) && w < |p.runners| && p.runners[w].Busy? && p.runners[w].pc < |p.runners[w].log|
    ensures PoolOk(Carry(p, w))
  {
    LoadUpdate(p.runners, w, p.runners[w].(pc := p.runners[w].pc + 1));
  }

  lemma ActParts(p: Pipe, g: Tracks, w: nat)
    requires Inv(p, g) && w < |p.runners| && p.runners[w].Busy? && p.runners[w].pc < |p.runners[w].log|
    ensures Inv(Carry(p, w), g)
  {
    hide HandlersOk, QueueOk, PoolOk, RunnersOk, RecordsOk, RestOk, NormalizedJob;
    var r := p.runners[w];
    CarryPool(p, w);
    RunnerMoves(p.runners, g, w, r.(pc := r.pc + 1));
    RecordMoves(p.store, p.runners, g, w);
    Assembled(Carry(p, w), g);
  }

  lemma ActStep(p: Pipe, g: Tracks, a: Action)
    requires Inv(p, g) && Enabled(p, a) && a.Act?
    ensures Inv(Step(p, a), g)
  {
    hide Inv, Process, NormalizedJob;
    ActParts(p, g, a.w);
  }

  lemma RestFinishes(store: map<string, State>, g: Tracks, r: Runner, w: nat)
    requires RestOk(store, g) && RecordOk(store, r) && HeldBy(r, w, g) && r.Busy? && r.pc == |r.log|
    ensures RestOk(store, g[r.job.id := g[r.job.id].(stage := Done)])
  {
    assert IsFinale(r.log, End(r.log, r.job.id), r.job.id);
  }

  lemma OutsideIgnores(hs: map<nat, Handler>, ch: seq<Job>, g: Tracks, id: string)
    requires HandlersOk(hs, g) && QueueOk(ch, g) && id in g && g[id].stage.AtRunner?
    ensures HandlersOk(hs, g[id := g[id].(stage := Done)]) && QueueOk(ch, g[id := g[id].(stage := Done)])
  {
    HandlersIgnore(hs, g, id, g[id].(stage := Done));
    QueueIgnores(ch, g, id, g[id].(stage := Done));
  }

  lemma ReturnPool(p: Pipe, w: nat)
    requires PoolOk(p) && w < |p.runners| && p.runners[w].Busy?
    ensures PoolOk(Return(p, w))
  {
    LoadUpdate(p.runners, w, Idle);
  }

  lemma FinishParts(p: Pipe, g: Tracks, w: nat)
    requires Inv(p, g) && w < |p.runners| && p.runners[w].Busy? && p.runners[w].pc == |p.runners[w].log|
    ensures var id := p.runners[w].job.id;
            && id in g
            && Inv(Return(p, w), g[id := g[id].(stage := Done)])
  {
    hide HandlersOk, QueueOk, PoolOk, RestOk, NormalizedJob;
    var r := p.runners[w];
    RunnerFinishes(p.runners, g, w);
    var id := r.job.id;
    OutsideIgnores(p.handlers, p.queue.ch, g, id);
    ReturnPool(p, w);
    RecordsWithLoop(p.store, p.runners, w, Idle);
    RestFinishes(p.store, g, r, w);
    Assembled(Return(p, w), g[id := g[id].(stage := Done)]);
  }

  lemma FinishStep(p: Pipe, g: Tracks, a: Action)
    requires Inv(p, g) && Enabled(p, a) && a.Finish?
    ensures Inv(Step(p, a), Follow(p, g, a))
  {
    hide Inv, Process, NormalizedJob;
    FinishParts(p, g, a.w);
  }

  lemma ControlStep(p: Pipe, g: Tracks, a: Action)
    requires Inv(p, g) && Enabled(p, a)
    requires a.RequestStop? || a.StopReturns? || a.CancelContext? || a.CloseQueue?
    ensures Inv(Step(p, a), g)
  {
    hide Process, NormalizedJob;
  }

  predicate MovesSubmission(a: Action) {
    a.SaveQueued? || a.Send? || a.Dequeue? || a.Act? || a.Finish?
  }

  /** A submission changes its place or its record. */
  lemma SubmissionStep(p: Pipe, g: Tracks, a: Action)
    requires Inv(p, g) && Enabled(p, a) && MovesSubmission(a)
    ensures Inv(Step(p, a), Follow(p, g, a))
  {
    hide Inv, Process, NormalizedJob;
    match a {
      case SaveQueued(_, _) => SaveStep(p, g, a);
      case Send(_, _) => SendStep(p, g, a);
      case Dequeue(_, _, _) => DequeueStep(p, g, a);
      case Act(_, _, _) => ActStep(p, g, a);
      case Finish(_) => FinishStep(p, g, a);
    }
  }

  /** Every submission stays where it is. */
  lemma OtherStep(p: Pipe, g: Tracks, a: Action)
    requires Inv(p, g) && Enabled(p, a) && !MovesSubmission(a)
    ensures Inv(Step(p, a), g)
  {
    hide Inv, Process, NormalizedJob;
    if MovesHandler(a) {
      HandlerStep(p, g, a);
    } else if MovesRunner(a) {
      LoopStep(p, g, a);
    } else if a.Arrive? {
      ArriveStep(p, g, a);
    } else {
      ControlStep(p, g, a);
    }
  }

  lemma StepKeepsInv(p: Pipe, g: Tracks, a: Action)
    requires Inv(p, g) && Enabled(p, a)
    ensures Inv(Step(p, a), Follow(p, g, a))
  {
    hide Inv, Process, NormalizedJob;
    if MovesSubmission(a) {
      SubmissionStep(p, g, a);
    } else {
      assert Follow(p, g, a) == g;
      OtherStep(p, g, a);
    }
  }
}
