/** The whole system: WebSocket readers (pkg/api/websocket.go) beside the
    submission pipeline and the event bus. */
module Gateway {
  import opened Models
  import opened Worker
  import opened Outcomes
  import Pipeline
  import Submissions
  import Topics
  import Buses

  /** What the server writes on a connection. */
  datatype Frame = Data(event: Event) | Ping | CloseFrame

  datatype Reason = Delivered | HungUp | WriteFailed | ChannelClosed

  /** Where HandleWebSocket is. */
  datatype Phase =
    | Connected                        // upgraded, the store not yet read
    | Checked                          // read the store: not finished; not yet subscribed
    | Streaming(ch: nat)               // in its select loop
    | Closing(ch: nat)                 // sent a terminal event, close frame not yet written
    | Leaving(ch: nat, why: Reason)    // returned, cleanup not yet run
    | Gone(why: Reason)

  datatype Reader = Reader(id: string, phase: Phase, frames: seq<Frame>)

  datatype Sys = Sys(pipe: Pipeline.Pipe, bus: Buses.Bus, readers: map<nat, Reader>)

  /** One step; `ok` says whether the write to the connection succeeds. */
  datatype Move =
    | Backend(action: Pipeline.Action)
    | Connect(r: nat, id: string)
    | Check(r: nat, ok: bool)
    | Attach(r: nat, id: string)
    | Forward(r: nat, ch: nat, ok: bool)
    | Beat(r: nat, ok: bool)
    | SayClose(r: nat, ok: bool)
    | HangUp(r: nat)
    | SeeClosed(r: nat)
    | Detach(r: nat, ch: nat)
    | Shutdown

  predicate Settled(store: map<string, State>, id: string) {
    id in store && Terminal(store[id].status)
  }

  // ---- Steps -------------------------------------------------------------

  function Publication(a: Pipeline.Action): Option<Buses.Op> {
    match a
    case Announce(_, id) => Some(Buses.Publish(id, Bare(Queued)))
    case Act(_, id, e) => if e.Publish? then Some(Buses.Publish(id, e.event)) else None
    case _ => None
  }

  /** The bus operation of a move, if it has one. */
  function BusOp(m: Move): Option<Buses.Op> {
    match m
    case Backend(a) => Publication(a)
    case Attach(_, id) => Some(Buses.Subscribe(id))
    case Forward(_, ch, _) => Some(Buses.Receive(ch))
    case Detach(_, ch) => Some(Buses.Cleanup(ch))
    case Shutdown => Some(Buses.Close)
    case _ => None
  }

  predicate Ready(b: Buses.Bus, rd: Reader, m: Move) {
    match m
    case Check(_, _) => rd.phase.Connected?
    case Attach(_, id) => rd.phase.Checked? && rd.id == id
    case Forward(_, ch, _) => rd.phase == Streaming(ch) && ch < |b.chans| && b.chans[ch].buf != []
    case Beat(_, _) => rd.phase.Streaming?
    case SayClose(_, _) => rd.phase.Closing?
    case HangUp(_) => rd.phase.Streaming?
    case SeeClosed(_) =>
      rd.phase.Streaming? && rd.phase.ch < |b.chans| && b.chans[rd.phase.ch].buf == []
        && b.chans[rd.phase.ch].closes > 0
    case Detach(_, ch) => rd.phase.Leaving? && rd.phase.ch == ch
    case _ => false
  }

  function Written(frames: seq<Frame>, ok: bool, f: Frame): seq<Frame> {
    if ok then frames + [f] else frames
  }

  function Advance(store: map<string, State>, b: Buses.Bus, rd: Reader, m: Move): Reader
    requires Ready(b, rd, m)
  {
    match m
    case Check(_, ok) =>
      if Settled(store, rd.id) then
        rd.(phase := Gone(if ok then Delivered else WriteFailed),
            frames := Written(rd.frames, ok, Data(FinalEvent(store[rd.id]))))
      else rd.(phase := Checked)
    case Attach(_, _) => rd.(phase := Streaming(|b.chans|))
    case Forward(_, ch, ok) =>
      var e := b.chans[ch].buf[0];
      rd.(phase := if !ok then Leaving(ch, WriteFailed) else if Terminal(e.status) then Closing(ch) else Streaming(ch),
          frames := Written(rd.frames, ok, Data(e)))
    case Beat(_, ok) =>
      rd.(phase := if ok then rd.phase else Leaving(rd.phase.ch, WriteFailed), frames := Written(rd.frames, ok, Ping))
    case SayClose(_, ok) => rd.(phase := Leaving(rd.phase.ch, Delivered), frames := Written(rd.frames, ok, CloseFrame))
    case HangUp(_) => rd.(phase := Leaving(rd.phase.ch, HungUp))
    case SeeClosed(_) => rd.(phase := Leaving(rd.phase.ch, ChannelClosed))
    case Detach(_, _) => rd.(phase := Gone(rd.phase.why))
  }

  /** What a move asks of the bus and the readers. */
  predicate Allowed(b: Buses.Bus, rs: map<nat, Reader>, m: Move) {
    match m
    case Backend(_) => true
    case Shutdown => true
    case Connect(r, _) => r !in rs
    case _ => m.r in rs && Ready(b, rs[m.r], m)
  }

  function NextReaders(store: map<string, State>, b: Buses.Bus, rs: map<nat, Reader>, m: Move): map<nat, Reader>
    requires Allowed(b, rs, m)
  {
    match m
    case Backend(_) => rs
    case Shutdown => rs
    case Connect(r, id) => rs[r := Reader(id, Connected, [])]
    case _ => rs[m.r := Advance(store, b, rs[m.r], m)]
  }

  function NextBus(b: Buses.Bus, m: Move): Buses.Bus {
    match BusOp(m)
    case None => b
    case Some(op) => Buses.Apply(b, op)
  }

  ghost predicate Can(s: Sys, m: Move) {
    Allowed(s.bus, s.readers, m) && (m.Backend? ==> Pipeline.Enabled(s.pipe, m.action))
  }

  ghost function NextPipe(p: Pipeline.Pipe, m: Move): Pipeline.Pipe
    requires m.Backend? ==> Pipeline.Enabled(p, m.action)
  {
    if m.Backend? then Pipeline.Step(p, m.action) else p
  }

  ghost function Next(s: Sys, m: Move): Sys
    requires Can(s, m)
  {
    Sys(NextPipe(s.pipe, m), NextBus(s.bus, m), NextReaders(s.pipe.store, s.bus, s.readers, m))
  }

  ghost function Play(cfg: Pipeline.Config, ms: seq<Move>): Option<Sys> {
    if ms == [] then Some(Sys(Pipeline.Init(cfg), Buses.EMPTY, map[]))
    else match Play(cfg, ms[..|ms| - 1])
      case None => None
      case Some(s) => if Can(s, ms[|ms| - 1]) then Some(Next(s, ms[|ms| - 1])) else None
  }

  ghost predicate Feasible(cfg: Pipeline.Config, ms: seq<Move>) { Play(cfg, ms).Some? }

  /** The state a run of the whole system reaches. */
  ghost function Reached(cfg: Pipeline.Config, ms: seq<Move>): Sys
    requires Feasible(cfg, ms)
  {
    Play(cfg, ms).value
  }

  lemma {:induction false} FeasiblePrefix(cfg: Pipeline.Config, ms: seq<Move>, k: nat)
    requires Feasible(cfg, ms) && k <= |ms|
    ensures Feasible(cfg, ms[..k])
  {
    if k == |ms| {
      assert ms[..k] == ms;
    } else {
      FeasiblePrefix(cfg, ms[..|ms| - 1], k);
      assert ms[..|ms| - 1][..k] == ms[..k];
    }
  }

  // ---- Runs of the parts -------------------------------------------------

  function PipeOps(ms: seq<Move>): seq<Pipeline.Action> {
    if ms == [] then []
    else PipeOps(ms[..|ms| - 1]) + if ms[|ms| - 1].Backend? then [ms[|ms| - 1].action] else []
  }

  function BusOps(ms: seq<Move>): seq<Buses.Op> {
    if ms == [] then []
    else BusOps(ms[..|ms| - 1]) + if BusOp(ms[|ms| - 1]).Some? then [BusOp(ms[|ms| - 1]).value] else []
  }

  lemma {:induction false} OpsConcat(a: seq<Move>, b: seq<Move>)
    ensures PipeOps(a + b) == PipeOps(a) + PipeOps(b)
    ensures BusOps(a + b) == BusOps(a) + BusOps(b)
  {
    if b == [] {
      assert a + b == a;
    } else {
      var n := |b| - 1;
      assert (a + b)[..|a + b| - 1] == a + b[..n];
      OpsConcat(a, b[..n]);
    }
  }

  lemma BusProjects(ops: seq<Buses.Op>, m: Move)
    ensures Buses.Run(ops + if BusOp(m).Some? then [BusOp(m).value] else []) == NextBus(Buses.Run(ops), m)
  {
    if BusOp(m).Some? {
      Buses.RunStep(ops, BusOp(m).value);
    } else {
      assert ops + [] == ops;
    }
  }

  /** Every run of the system is a run of the pipeline and a run of the bus. */
  lemma {:induction false} RunsProject(cfg: Pipeline.Config, ms: seq<Move>)
    requires Feasible(cfg, ms)
    ensures Pipeline.IsRun(cfg, PipeOps(ms))
    ensures Reached(cfg, ms).pipe == Pipeline.After(cfg, PipeOps(ms))
    ensures Reached(cfg, ms).bus == Buses.Run(BusOps(ms))
  {
    if ms != [] {
      var before, m := ms[..|ms| - 1], ms[|ms| - 1];
      RunsProject(cfg, before);
      BusProjects(BusOps(before), m);
      if m.Backend? {
        Pipeline.RunExtends(cfg, PipeOps(before), m.action);
      } else {
        assert PipeOps(before) + [] == PipeOps(before);
      }
    }
  }

  function PublishedBy(m: Move, id: string): seq<Event> {
    if m.Backend? then Topics.Emitted(m.action, id) else []
  }

  lemma PublicationIsEmitted(a: Pipeline.Action, id: string)
    ensures Topics.Emitted(a, id)
         == if Publication(a).Some? && Publication(a).value.topic == id then [Publication(a).value.event] else []
  {
  }

  lemma PublishedStep(ops: seq<Buses.Op>, m: Move, id: string)
    ensures Buses.Published(ops + if BusOp(m).Some? then [BusOp(m).value] else [], id)
         == Buses.Published(ops, id) + PublishedBy(m, id)
  {
    if m.Backend? {
      PublicationIsEmitted(m.action, id);
    }
    if BusOp(m).Some? {
      assert (ops + [BusOp(m).value])[..|ops|] == ops;
    } else {
      assert ops + [] == ops;
    }
  }

  lemma TopicStep(acts: seq<Pipeline.Action>, m: Move, id: string)
    ensures Topics.TopicEvents(acts + if m.Backend? then [m.action] else [], id)
         == Topics.TopicEvents(acts, id) + PublishedBy(m, id)
  {
    if m.Backend? {
      assert (acts + [m.action])[..|acts|] == acts;
    } else {
      assert acts + [] == acts;
    }
  }

  /** The bus carries on a topic exactly what the pipeline publishes there. */
  lemma {:induction false} PublishedIsTopic(ms: seq<Move>, id: string)
    ensures Buses.Published(BusOps(ms), id) == Topics.TopicEvents(PipeOps(ms), id)
  {
    if ms != [] {
      var before, m := ms[..|ms| - 1], ms[|ms| - 1];
      PublishedIsTopic(before, id);
      PublishedStep(BusOps(before), m, id);
      TopicStep(PipeOps(before), m, id);
    }
  }

  /** A finished record stays as it is. */
  lemma SettledStays(cfg: Pipeline.Config, ms: seq<Move>, id: string)
    requires Feasible(cfg, ms) && ms != []
    requires Settled(Reached(cfg, ms[..|ms| - 1]).pipe.store, id)
    ensures Settled(Reached(cfg, ms).pipe.store, id)
    ensures Reached(cfg, ms).pipe.store[id] == Reached(cfg, ms[..|ms| - 1]).pipe.store[id]
  {
    var before, m := ms[..|ms| - 1], ms[|ms| - 1];
    RunsProject(cfg, before);
    if m.Backend? {
      Submissions.RunInv(cfg, PipeOps(before));
      Submissions.StepAdvances(Reached(cfg, before).pipe, Submissions.TracksOf(cfg, PipeOps(before)), m.action, id);
    }
  }

  // ---- Channels ----------------------------------------------------------

  function Channel(ph: Phase): Option<nat> {
    match ph
    case Streaming(c) => Some(c)
    case Closing(c) => Some(c)
    case Leaving(c, _) => Some(c)
    case _ => None
  }

  predicate Subscribed(b: Buses.Bus, c: nat, id: string) {
    c < |b.chans| && b.chans[c].topic == id && !b.chans[c].cleaned
  }

  /** Every reader in its loop has a channel of its own, not yet cleaned up. */
  ghost predicate ChannelsOk(b: Buses.Bus, rs: map<nat, Reader>) {
    && (forall r :: r in rs && Channel(rs[r].phase).Some? ==> Subscribed(b, Channel(rs[r].phase).value, rs[r].id))
    && (forall r, q :: r in rs && q in rs && r != q && Channel(rs[r].phase).Some? ==>
          Channel(rs[r].phase) != Channel(rs[q].phase))
  }

  lemma SubscribedStays(b: Buses.Bus, op: Buses.Op, c: nat, id: string)
    requires Subscribed(b, c, id) && op != Buses.Cleanup(c)
    ensures Subscribed(Buses.Apply(b, op), c, id)
  {
  }

  /** The channel a move gives its reader. */
  lemma ChannelAdvances(store: map<string, State>, b: Buses.Bus, rd: Reader, m: Move)
    requires Ready(b, rd, m)
    ensures var next := Advance(store, b, rd, m);
            && next.id == rd.id
            && Channel(next.phase)
               == (if m.Attach? then Some(|b.chans|) else if m.Detach? then None else Channel(rd.phase))
            && (m.Attach? ==> Channel(rd.phase) == None)
  {
  }

  lemma ChannelAlive(store: map<string, State>, b: Buses.Bus, rs: map<nat, Reader>, m: Move, r: nat)
    requires ChannelsOk(b, rs) && Allowed(b, rs, m)
    requires r in NextReaders(store, b, rs, m) && Channel(NextReaders(store, b, rs, m)[r].phase).Some?
    ensures var rd := NextReaders(store, b, rs, m)[r]; Subscribed(NextBus(b, m), Channel(rd.phase).value, rd.id)
  {
    var rd := NextReaders(store, b, rs, m)[r];
    var c := Channel(rd.phase).value;
    if m.Attach? && m.r == r {
      assert c == |b.chans|;
    } else {
      assert Subscribed(b, c, rd.id) by {
        if !(m.Backend? || m.Shutdown? || m.Connect?) && m.r == r {
          ChannelAdvances(store, b, rs[r], m);
        }
      }
      if BusOp(m).Some? {
        SubscribedStays(b, BusOp(m).value, c, rd.id);
      }
    }
  }

  lemma ChannelsStep(store: map<string, State>, b: Buses.Bus, rs: map<nat, Reader>, m: Move)
    requires ChannelsOk(b, rs) && Allowed(b, rs, m)
    ensures ChannelsOk(NextBus(b, m), NextReaders(store, b, rs, m))
  {
    var next := NextReaders(store, b, rs, m);
    forall r | r in next && Channel(next[r].phase).Some?
      ensures Subscribed(NextBus(b, m), Channel(next[r].phase).value, next[r].id)
    {
      ChannelAlive(store, b, rs, m, r);
    }
    if !(m.Backend? || m.Shutdown? || m.Connect?) {
      ChannelAdvances(store, b, rs[m.r], m);
    }
  }

  lemma {:induction false} ChannelsInv(cfg: Pipeline.Config, ms: seq<Move>)
    requires Feasible(cfg, ms)
    ensures ChannelsOk(Reached(cfg, ms).bus, Reached(cfg, ms).readers)
  {
    if ms != [] {
      var s := Reached(cfg, ms[..|ms| - 1]);
      ChannelsInv(cfg, ms[..|ms| - 1]);
      ChannelsStep(s.pipe.store, s.bus, s.readers, ms[|ms| - 1]);
    }
  }
}
