/** The depth check of handleSubmissions against the queue it guards. */
module Backpressure {
  import opened Models
  import opened Requests
  import Worker
  import opened Queues
  import opened Pipeline
  import opened Lifecycle
  import opened Submissions

  predicate InFlight(h: Handler) { h.Admitted? || h.Saved? || h.Sending? }

  /** The handlers between depth check and enqueue. */
  function Crowd(p: Pipe): set<nat> {
    set h | h in p.handlers && InFlight(p.handlers[h])
  }

  /** At most n handlers are ever between their depth check and their enqueue. */
  ghost predicate CrowdStaysWithin(cfg: Config, acts: seq<Action>, n: nat)
    requires IsRun(cfg, acts)
  {
    && |Crowd(After(cfg, acts))| <= n
    && (acts == [] || CrowdStaysWithin(cfg, acts[..|acts| - 1], n))
  }

  predicate TouchesHandler(a: Action) { a.SaveQueued? || a.Send? || MovesHandler(a) }

  lemma CrowdMoves(p: Pipe, h: nat, s: Handler)
    ensures Crowd(SetHandler(p, h, s)) == if InFlight(s) then Crowd(p) + {h} else Crowd(p) - {h}
  {
  }

  lemma CrowdArrives(p: Pipe, a: Action)
    requires Enabled(p, a) && a.Arrive?
    ensures var q := Step(p, a);
            q.queue == p.queue && |Crowd(q)| <= |Crowd(p)| + if |p.queue.ch| < p.cfg.maxDepth then 1 else 0
  {
    hide Worker.Process, NormalizedJob, Stored, QueuedState;
    CrowdMoves(p, a.h, Step(p, a).handlers[a.h]);
  }

  /** Apart from Announce, only handlers in flight are touched; Send takes one out
      and adds one job, the others add none. */
  lemma HandlerTouched(p: Pipe, a: Action)
    requires Enabled(p, a) && TouchesHandler(a)
    ensures a.h in p.handlers && a.h in Step(p, a).handlers
    ensures var s := Step(p, a).handlers[a.h];
            && Step(p, a).handlers == SetHandler(p, a.h, s).handlers
            && (InFlight(s) ==> InFlight(p.handlers[a.h]))
            && (a.Send? ==> InFlight(p.handlers[a.h]) && !InFlight(s))
    ensures |Step(p, a).queue.ch| == |p.queue.ch| + if a.Send? then 1 else 0
  {
    hide Worker.Process, NormalizedJob, Stored, QueuedState;
  }

  lemma SameHandlers(p: Pipe, q: Pipe)
    requires p.handlers == q.handlers
    ensures Crowd(p) == Crowd(q)
  {
  }

  lemma CrowdWithout(p: Pipe, h: nat)
    requires h in p.handlers
    ensures |Crowd(p) - {h}| == |Crowd(p)| - if InFlight(p.handlers[h]) then 1 else 0
    ensures InFlight(p.handlers[h]) ==> Crowd(p) + {h} == Crowd(p)
  {
    if !InFlight(p.handlers[h]) {
      assert Crowd(p) - {h} == Crowd(p);
    }
  }

  lemma CrowdThins(p: Pipe, a: Action)
    requires Enabled(p, a) && TouchesHandler(a)
    ensures var q := Step(p, a);
            |q.queue.ch| + |Crowd(q)| <= |p.queue.ch| + |Crowd(p)|
  {
    hide Crowd, Enabled, Step;
    HandlerTouched(p, a);
    var s := Step(p, a).handlers[a.h];
    CrowdMoves(p, a.h, s);
    SameHandlers(Step(p, a), SetHandler(p, a.h, s));
    CrowdWithout(p, a.h);
  }

  lemma CrowdRests(p: Pipe, a: Action)
    requires Enabled(p, a) && !TouchesHandler(a) && !a.Arrive?
    ensures var q := Step(p, a);
            |q.queue.ch| <= |p.queue.ch| && Crowd(q) == Crowd(p)
  {
    hide Worker.Process, NormalizedJob, Stored, QueuedState;
  }

  /** The queue never grows past the configured depth by more than the crowd
      allows, nor past the channel's capacity; with one handler at a time the
      configured depth is respected. */
  lemma {:induction false} DepthIsBounded(cfg: Config, acts: seq<Action>, n: nat)
    requires IsRun(cfg, acts) && cfg.maxDepth > 0 && n > 0 && CrowdStaysWithin(cfg, acts, n)
    ensures var p := After(cfg, acts);
            && |p.queue.ch| + |Crowd(p)| <= cfg.maxDepth - 1 + n
            && |p.queue.ch| <= cfg.capacity
  {
    hide Worker.Process, NormalizedJob;
    RunInv(cfg, acts);
    CfgIsConstant(cfg, acts);
    if acts == [] {
      assert Crowd(Init(cfg)) == {};
    } else {
      var before, a := acts[..|acts| - 1], acts[|acts| - 1];
      DepthIsBounded(cfg, before, n);
      CfgIsConstant(cfg, before);
      var p := After(cfg, before);
      if a.Arrive? {
        CrowdArrives(p, a);
      } else if TouchesHandler(a) {
        CrowdThins(p, a);
      } else {
        CrowdRests(p, a);
      }
    }
  }

  // ---- The bound is reached ---------------------------------------------

  function IdNo(i: nat): string { seq(i, _ => 'x') }

  function JobNo(i: nat): Job {
    Job(IdNo(i), "python3", "pass", DEFAULT_LIMITS, "auto", [])
  }

  /** k submissions are in the queue and the next m handlers have passed their check. */
  ghost predicate Lined(p: Pipe, k: nat, m: nat) {
    && |p.queue.ch| == k && !p.queue.closed && p.queue.capacity == p.cfg.capacity
    && (forall h :: h in p.handlers <==> 0 <= h < k + m)
    && (forall h :: 0 <= h < k ==> p.handlers[h] == Enqueued(IdNo(h)))
    && (forall h :: k <= h < k + m ==> p.handlers[h] == Admitted)
    && (forall id :: id in p.store ==> |id| < k)
  }

  function Range(lo: nat, m: nat): (r: set<nat>)
    ensures forall h :: h in r <==> lo <= h < lo + m
    ensures |r| == m
  {
    if m == 0 then {} else Range(lo, m - 1) + {lo + m - 1}
  }

  lemma CrowdIs(p: Pipe, k: nat, m: nat)
    requires forall h :: h in p.handlers <==> 0 <= h < k + m
    requires forall h :: 0 <= h < k ==> !InFlight(p.handlers[h])
    requires forall h :: k <= h < k + m ==> InFlight(p.handlers[h])
    ensures |Crowd(p)| == m
  {
    assert Crowd(p) == Range(k, m);
  }

  /** A run so far, with its crowd within n. */
  ghost predicate WithinCrowd(cfg: Config, acts: seq<Action>, n: nat) {
    IsRun(cfg, acts) && CrowdStaysWithin(cfg, acts, n)
  }

  lemma CrowdedStep(cfg: Config, acts: seq<Action>, a: Action, n: nat)
    requires WithinCrowd(cfg, acts, n) && Enabled(After(cfg, acts), a) && |Crowd(Step(After(cfg, acts), a))| <= n
    ensures WithinCrowd(cfg, acts + [a], n) && After(cfg, acts + [a]) == Step(After(cfg, acts), a)
  {
    hide Worker.Process, NormalizedJob;
    RunExtends(cfg, acts, a);
    assert (acts + [a])[..|acts|] == acts;
  }

  lemma LinedArrive(p: Pipe, k: nat, m: nat)
    requires Lined(p, k, m) && k < p.cfg.maxDepth
    ensures Enabled(p, Arrive(k + m))
    ensures Lined(Step(p, Arrive(k + m)), k, m + 1) && |Crowd(Step(p, Arrive(k + m)))| == m + 1
  {
    hide Worker.Process, NormalizedJob, Stored, QueuedState;
    var h := k + m;
    var q := Step(p, Arrive(h));
    assert q == SetHandler(p, h, Admitted);
    CrowdIs(q, k, m + 1);
  }

  lemma Admit(cfg: Config, acts: seq<Action>, n: nat, k: nat, m: nat) returns (more: seq<Action>)
    requires WithinCrowd(cfg, acts, n) && Lined(After(cfg, acts), k, m) && k < cfg.maxDepth && m < n
    ensures WithinCrowd(cfg, more, n) && Lined(After(cfg, more), k, m + 1)
  {
    CfgIsConstant(cfg, acts);
    LinedArrive(After(cfg, acts), k, m);
    CrowdedStep(cfg, acts, Arrive(k + m), n);
    more := acts + [Arrive(k + m)];
  }

  /** k in the queue, one handler past its save, m more past their check. */
  ghost predicate Parked(p: Pipe, k: nat, m: nat, s: Handler) {
    && |p.queue.ch| == k && !p.queue.closed && p.queue.capacity == p.cfg.capacity
    && (forall h :: h in p.handlers <==> 0 <= h < k + 1 + m)
    && (forall h :: 0 <= h < k ==> p.handlers[h] == Enqueued(IdNo(h)))
    && p.handlers[k] == s
    && (forall h :: k + 1 <= h < k + 1 + m ==> p.handlers[h] == Admitted)
    && (forall id :: id in p.store ==> |id| < k + 1)
  }

  lemma LinedSave(p: Pipe, k: nat, m: nat)
    requires Lined(p, k, m + 1)
    ensures Enabled(p, SaveQueued(k, JobNo(k)))
    ensures var q := Step(p, SaveQueued(k, JobNo(k))); |Crowd(q)| == m + 1 && Parked(q, k, m, Saved(JobNo(k)))
  {
    hide Worker.Process, NormalizedJob, Stored;
    var q := Accept(p, k, JobNo(k));
    CrowdIs(q, k, m + 1);
  }

  lemma ParkedCheck(p: Pipe, k: nat, m: nat)
    requires Parked(p, k, m, Saved(JobNo(k)))
    ensures Enabled(p, CheckOpen(k))
    ensures var q := Step(p, CheckOpen(k)); |Crowd(q)| == m + 1 && Parked(q, k, m, Sending(JobNo(k)))
  {
    hide Worker.Process, NormalizedJob, Stored, QueuedState;
    var q := Step(p, CheckOpen(k));
    CrowdIs(q, k, m + 1);
  }

  lemma ParkedSend(p: Pipe, k: nat, m: nat)
    requires Parked(p, k, m, Sending(JobNo(k))) && k < p.cfg.capacity
    ensures Enabled(p, Send(k, JobNo(k)))
    ensures var q := Step(p, Send(k, JobNo(k))); |Crowd(q)| == m && Lined(q, k + 1, m)
  {
    hide Worker.Process, NormalizedJob, Stored, QueuedState;
    var q := Append(p, k, JobNo(k));
    CrowdIs(q, k + 1, m);
  }

  lemma Submit(cfg: Config, acts: seq<Action>, n: nat, k: nat, m: nat) returns (more: seq<Action>)
    requires WithinCrowd(cfg, acts, n) && Lined(After(cfg, acts), k, m) && 0 < m <= n && k < cfg.capacity
    ensures WithinCrowd(cfg, more, n) && Lined(After(cfg, more), k + 1, m - 1)
  {
    hide Enabled, Step, Lined, Parked, Crowd, JobNo, CrowdStaysWithin;
    CfgIsConstant(cfg, acts);
    LinedSave(After(cfg, acts), k, m - 1);
    CrowdedStep(cfg, acts, SaveQueued(k, JobNo(k)), n);
    var one := acts + [SaveQueued(k, JobNo(k))];
    ParkedCheck(After(cfg, one), k, m - 1);
    CrowdedStep(cfg, one, CheckOpen(k), n);
    var two := one + [CheckOpen(k)];
    CfgIsConstant(cfg, two);
    ParkedSend(After(cfg, two), k, m - 1);
    CrowdedStep(cfg, two, Send(k, JobNo(k)), n);
    more := two + [Send(k, JobNo(k))];
  }

  /** Fill the queue one submission at a time. */
  lemma {:induction false} Fill(cfg: Config, n: nat, k: nat) returns (acts: seq<Action>)
    requires n > 0 && k < cfg.maxDepth && k <= cfg.capacity
    ensures WithinCrowd(cfg, acts, n) && Lined(After(cfg, acts), k, 0)
  {
    hide Enabled, Step;
    if k == 0 {
      acts := [];
      assert Crowd(Init(cfg)) == {};
    } else {
      acts := Fill(cfg, n, k - 1);
      acts := Admit(cfg, acts, n, k - 1, 0);
      acts := Submit(cfg, acts, n, k - 1, 1);
    }
  }

  /** Let m handlers pass the check together. */
  lemma {:induction false} Gather(cfg: Config, start: seq<Action>, n: nat, k: nat, m: nat) returns (acts: seq<Action>)
    requires WithinCrowd(cfg, start, n) && Lined(After(cfg, start), k, 0) && k < cfg.maxDepth && m <= n
    ensures WithinCrowd(cfg, acts, n) && Lined(After(cfg, acts), k, m)
  {
    if m == 0 {
      acts := start;
    } else {
      acts := Gather(cfg, start, n, k, m - 1);
      acts := Admit(cfg, acts, n, k, m - 1);
    }
  }

  /** Then let them all enqueue. */
  lemma {:induction false} Flush(cfg: Config, start: seq<Action>, n: nat, k: nat, m: nat) returns (acts: seq<Action>)
    requires WithinCrowd(cfg, start, n) && Lined(After(cfg, start), k, m) && m <= n && k + m <= cfg.capacity
    ensures WithinCrowd(cfg, acts, n) && Lined(After(cfg, acts), k + m, 0)
    decreases m
  {
    if m == 0 {
      acts := start;
    } else {
      acts := Submit(cfg, start, n, k, m);
      acts := Flush(cfg, acts, n, k + 1, m - 1);
    }
  }

  /** The bound of DepthIsBounded is exact: for every depth limit, every capacity
      and every crowd size some run reaches the smaller of the two bounds.  With
      n = 1 that is the configured depth itself, unless the channel is smaller. */
  lemma DepthIsReached(cfg: Config, n: nat) returns (acts: seq<Action>)
    requires cfg.maxDepth > 0 && n > 0
    ensures IsRun(cfg, acts) && CrowdStaysWithin(cfg, acts, n)
    ensures |After(cfg, acts).queue.ch| == if cfg.maxDepth - 1 + n <= cfg.capacity
      then cfg.maxDepth - 1 + n else cfg.capacity
  {
    hide IsRun, CrowdStaysWithin;
    if cfg.capacity < cfg.maxDepth {
      acts := Fill(cfg, n, cfg.capacity);
    } else {
      var more := if cfg.maxDepth - 1 + n <= cfg.capacity then n else cfg.capacity - (cfg.maxDepth - 1);
      acts := Fill(cfg, n, cfg.maxDepth - 1);
      acts := Gather(cfg, acts, n, cfg.maxDepth - 1, more);
      acts := Flush(cfg, acts, n, cfg.maxDepth - 1, more);
    }
  }
}
