/** The submission pipeline as a transition system: submit handlers
    (pkg/api/server.go), the job queue, the worker pool (pkg/worker/pool.go) and
    the state store.  Every lock region, channel operation, atomic counter
    update, store call and publication is one step. */
module Pipeline {
  import opened Models
  import opened Requests
  import opened Sandboxes
  import opened Worker
  import opened Queues

  datatype Config = Config(maxDepth: nat, capacity: nat, concurrency: nat)

  /** The defaults of NewServer, NewMemoryQueue and NewWorkerPool. */
  function NewConfig(maxDepth: int, capacity: int, concurrency: int): (c: Config)
    ensures c.maxDepth > 0 && c.capacity > 0 && c.concurrency > 0
  {
    Config(if maxDepth <= 0 then 500 else maxDepth,
           if capacity <= 0 then DEFAULT_CAPACITY else capacity,
           if concurrency <= 0 then 4 else concurrency)
  }

  /** A configuration the system can start with. */
  ghost predicate Configured(cfg: Config) {
    exists maxDepth: int, capacity: int, concurrency: int :: cfg == NewConfig(maxDepth, capacity, concurrency)
  }

  /** Whatever is asked for, the system starts with positive limits, and with any
      positive limits that are asked for. */
  lemma ConfiguredIsPositive(cfg: Config)
    ensures Configured(cfg) <==> cfg.maxDepth > 0 && cfg.capacity > 0 && cfg.concurrency > 0
  {
    if cfg.maxDepth > 0 && cfg.capacity > 0 && cfg.concurrency > 0 {
      assert cfg == NewConfig(cfg.maxDepth, cfg.capacity, cfg.concurrency);
    }
  }

  /** Limits that are asked for are kept; missing ones are 500 waiting submissions, a
      channel of 10000 and 4 workers. */
  lemma ConfigDefaults(maxDepth: int, capacity: int, concurrency: int)
    ensures var c := NewConfig(maxDepth, capacity, concurrency);
            && (maxDepth > 0 ==> c.maxDepth == maxDepth) && (maxDepth <= 0 ==> c.maxDepth == 500)
            && (capacity > 0 ==> c.capacity == capacity) && (capacity <= 0 ==> c.capacity == 10000)
            && (concurrency > 0 ==> c.concurrency == concurrency) && (concurrency <= 0 ==> c.concurrency == 4)
  {
  }

  /** A submit handler, from the depth check on. */
  datatype Handler =
    | Throttled                 // 429
    | Admitted                  // depth check passed
    | Saved(job: Job)           // QUEUED state saved, Enqueue not yet entered
    | Sending(job: Job)         // Enqueue found the queue open and released its lock
    | Enqueued(id: string)      // in the queue, QUEUED event not yet published
    | Answered(id: string)      // 202
    | Refused(id: string)       // 500: Enqueue returned an error
    | Crashed(id: string)       // sent on a closed channel

  /** A worker routine.  `log` is what ProcessJob does to this job; the sandbox's
      answers are fixed when the job is taken, and carried out step by step. */
  datatype Runner =
    | Idle                                             // at the top of its loop
    | Polling                                          // inside Dequeue
    | Fetched(job: Job, log: seq<Effect>)              // has a job, not yet counted
    | Counted(job: Job, log: seq<Effect>)              // activeJobs incremented
    | Busy(job: Job, log: seq<Effect>, pc: nat)        // totalJobs incremented, inside ProcessJob
    | Exited

  datatype Pipe = Pipe(
    cfg: Config,
    queue: Queue,
    store: map<string, State>,
    handlers: map<nat, Handler>,
    runners: seq<Runner>,
    active: int,
    total: int,
    stopping: bool,
    stopped: bool,
    cancelled: bool)

  datatype Action =
    | Arrive(h: nat)
    | SaveQueued(h: nat, job: Job)
    | CheckOpen(h: nat)
    | Send(h: nat, job: Job)
    | SendOnClosed(h: nat)
    | Overflow(h: nat)
    | GiveUp(h: nat)
    | Announce(h: nat, id: string)
    | Poll(w: nat)
    | Leave(w: nat)
    | PollTimeout(w: nat)
    | PollFails(w: nat)
    | Dequeue(w: nat, job: Job, host: Host)
    | CountActive(w: nat)
    | CountTotal(w: nat)
    | Act(w: nat, id: string, effect: Effect)
    | Finish(w: nat)
    | RequestStop
    | StopReturns
    | CancelContext
    | CloseQueue

  function QueuedState(job: Job): State {
    State(job.id, Queued, Accepted, job.language, |job.tests|, 0, [], None, 0.0, 0.0, 0.0, "")
  }

  function Init(cfg: Config): Pipe {
    Pipe(cfg, Queue([], false, cfg.capacity), map[], map[], seq(cfg.concurrency, _ => Idle),
         0, 0, false, false, false)
  }

  predicate HandlerIs(p: Pipe, h: nat, s: Handler) { h in p.handlers && p.handlers[h] == s }

  ghost predicate RunnerIs(p: Pipe, w: nat, r: Runner) { w < |p.runners| && p.runners[w] == r }

  ghost predicate Enabled(p: Pipe, a: Action) {
    match a
    case Arrive(h) => h !in p.handlers
    // Submission ids are fresh.
    case SaveQueued(h, job) => HandlerIs(p, h, Admitted) && job.id !in p.store
    case CheckOpen(h) => h in p.handlers && p.handlers[h].Saved?
    case Send(h, job) => HandlerIs(p, h, Sending(job)) && !p.queue.closed && |p.queue.ch| < p.queue.capacity
    case SendOnClosed(h) => h in p.handlers && p.handlers[h].Sending? && p.queue.closed
    case Overflow(h) =>
      h in p.handlers && p.handlers[h].Sending? && !p.queue.closed && |p.queue.ch| >= p.queue.capacity
    case GiveUp(h) => h in p.handlers && p.handlers[h].Sending?
    case Announce(h, id) => HandlerIs(p, h, Enqueued(id))
    case Poll(w) => RunnerIs(p, w, Idle) && !p.stopping && !p.cancelled
    case Leave(w) => RunnerIs(p, w, Idle) && (p.stopping || p.cancelled)
    case PollTimeout(w) => RunnerIs(p, w, Polling)
    case PollFails(w) => RunnerIs(p, w, Polling) && (p.cancelled || (p.queue.closed && p.queue.ch == []))
    case Dequeue(w, job, host) => RunnerIs(p, w, Polling) && p.queue.ch != [] && p.queue.ch[0] == job
    case CountActive(w) => w < |p.runners| && p.runners[w].Fetched?
    case CountTotal(w) => w < |p.runners| && p.runners[w].Counted?
    case Act(w, id, e) =>
      && w < |p.runners| && p.runners[w].Busy? && p.runners[w].job.id == id
      && p.runners[w].pc < |p.runners[w].log| && p.runners[w].log[p.runners[w].pc] == e
    case Finish(w) =>
      w < |p.runners| && p.runners[w].Busy? && p.runners[w].pc == |p.runners[w].log|
    case RequestStop => !p.stopping
    case StopReturns => p.stopping && !p.stopped && forall w :: 0 <= w < |p.runners| ==> p.runners[w].Exited?
    case CancelContext => !p.cancelled
    case CloseQueue => true
  }

  function SetHandler(p: Pipe, h: nat, s: Handler): Pipe { p.(handlers := p.handlers[h := s]) }

  function SetRunner(p: Pipe, w: nat, r: Runner): Pipe
    requires w < |p.runners|
  {
    p.(runners := p.runners[w := r])
  }

  /** A handler saves the QUEUED record of a submission. */
  function Accept(p: Pipe, h: nat, job: Job): Pipe {
    SetHandler(p, h, Saved(job)).(store := p.store[job.id := QueuedState(job)])
  }

  /** A handler's job enters the queue. */
  function Append(p: Pipe, h: nat, job: Job): Pipe {
    SetHandler(p, h, Enqueued(job.id)).(queue := p.queue.(ch := p.queue.ch + [NormalizedJob(job)]))
  }

  /** A worker takes the job at the head of the queue. */
  function Take(p: Pipe, w: nat, job: Job, log: seq<Effect>): Pipe
    requires w < |p.runners| && p.queue.ch != []
  {
    SetRunner(p, w, Fetched(job, log)).(queue := p.queue.(ch := p.queue.ch[1..]))
  }

  function Stored(store: map<string, State>, e: Effect): map<string, State> {
    if e.Save? then store[e.state.id := e.state] else store
  }

  /** A worker carries out the next effect of ProcessJob. */
  function Carry(p: Pipe, w: nat): Pipe
    requires w < |p.runners| && p.runners[w].Busy? && p.runners[w].pc < |p.runners[w].log|
  {
    var r := p.runners[w];
    SetRunner(p, w, r.(pc := r.pc + 1)).(store := Stored(p.store, r.log[r.pc]))
  }

  /** A worker returns from ProcessJob. */
  function Return(p: Pipe, w: nat): Pipe
    requires w < |p.runners|
  {
    SetRunner(p, w, Idle).(active := p.active - 1)
  }

  /** The step an enabled action takes. */
  ghost function Step(p: Pipe, a: Action): Pipe
    requires Enabled(p, a)
  {
    match a
    case Arrive(h) => SetHandler(p, h, if |p.queue.ch| >= p.cfg.maxDepth then Throttled else Admitted)
    case SaveQueued(h, job) => Accept(p, h, job)
    case CheckOpen(h) =>
      SetHandler(p, h, if p.queue.closed then Refused(p.handlers[h].job.id) else Sending(p.handlers[h].job))
    case Send(h, job) => Append(p, h, job)
    case SendOnClosed(h) => SetHandler(p, h, Crashed(p.handlers[h].job.id))
    case Overflow(h) => SetHandler(p, h, Refused(p.handlers[h].job.id))
    case GiveUp(h) => SetHandler(p, h, Refused(p.handlers[h].job.id))
    case Announce(h, id) => SetHandler(p, h, Answered(id))
    case Poll(w) => SetRunner(p, w, Polling)
    case Leave(w) => SetRunner(p, w, Exited)
    case PollTimeout(w) => SetRunner(p, w, Idle)
    case PollFails(w) => SetRunner(p, w, Exited)
    case Dequeue(w, job, host) => Take(p, w, job, Process(host, job))
    case CountActive(w) =>
      SetRunner(p, w, Counted(p.runners[w].job, p.runners[w].log)).(active := p.active + 1)
    case CountTotal(w) =>
      SetRunner(p, w, Busy(p.runners[w].job, p.runners[w].log, 0)).(total := p.total + 1)
    case Act(w, id, e) => Carry(p, w)
    case Finish(w) => Return(p, w)
    case RequestStop => p.(stopping := true)
    case StopReturns => p.(stopped := true)
    case CancelContext => p.(cancelled := true)
    case CloseQueue => p.(queue := p.queue.(closed := true))
  }

  /** Taking actions one after the other, as long as each is enabled. */
  ghost function Exec(cfg: Config, acts: seq<Action>): Option<Pipe> {
    if acts == [] then Some(Init(cfg))
    else match Exec(cfg, acts[..|acts| - 1])
      case None => None
      case Some(p) => if Enabled(p, acts[|acts| - 1]) then Some(Step(p, acts[|acts| - 1])) else None
  }

  ghost predicate IsRun(cfg: Config, acts: seq<Action>) { Exec(cfg, acts).Some? }

  /** The state a run reaches. */
  ghost function After(cfg: Config, acts: seq<Action>): Pipe
    requires IsRun(cfg, acts)
  {
    Exec(cfg, acts).value
  }

  lemma RunExtends(cfg: Config, acts: seq<Action>, a: Action)
    requires IsRun(cfg, acts) && Enabled(After(cfg, acts), a)
    ensures IsRun(cfg, acts + [a]) && After(cfg, acts + [a]) == Step(After(cfg, acts), a)
  {
    assert (acts + [a])[..|acts|] == acts;
  }

  lemma {:induction false} RunPrefix(cfg: Config, acts: seq<Action>, k: nat)
    requires IsRun(cfg, acts) && k <= |acts|
    ensures IsRun(cfg, acts[..k])
  {
    if k == |acts| {
      assert acts[..k] == acts;
    } else {
      RunPrefix(cfg, acts[..|acts| - 1], k);
      assert acts[..|acts| - 1][..k] == acts[..k];
    }
  }

  /** The select of Enqueue can end this way, for some state of the request's
      context and some pick among the ready cases. */
  ghost predicate SelectMay(q: Queue, job: Job, r: Sent) {
    exists cancelled, pick :: TrySend(q, job, cancelled, pick).1 == r
  }

  /** The four ways out of Sending are exactly the outcomes of Enqueue's select,
      and each leaves the queue as that outcome does. */
  lemma SendingFollowsSelect(p: Pipe, h: nat, job: Job)
    requires HandlerIs(p, h, Sending(job))
    ensures Enabled(p, Send(h, job)) <==> SelectMay(p.queue, job, InLine)
    ensures Enabled(p, SendOnClosed(h)) <==> SelectMay(p.queue, job, SendPanic)
    ensures Enabled(p, Overflow(h)) <==> SelectMay(p.queue, job, Backpressure)
    ensures Enabled(p, GiveUp(h)) <==> SelectMay(p.queue, job, Cancelled)
    ensures forall cancelled, pick ::
              var (q, r) := TrySend(p.queue, job, cancelled, pick);
              if r == InLine then Enabled(p, Send(h, job)) && Step(p, Send(h, job)).queue == q else q == p.queue
  {
    hide NormalizedJob, Process;
    var none := TrySend(p.queue, job, false, false);
    var cancel := TrySend(p.queue, job, true, true);
    assert cancel.1 == Cancelled;
  }
}
