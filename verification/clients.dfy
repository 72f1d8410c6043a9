/** What WebSocket clients are sent, over every run of the whole system. */
module Clients {
  import opened Models
  import opened Worker
  import opened Outcomes
  import opened Gateway
  import Requests
  import Pipeline
  import Lifecycle
  import Submissions
  import Buses

  // ---- The shape of a connection ----------------------------------------

  predicate TerminalFrame(f: Frame) { f.Data? && Terminal(f.event.status) }

  predicate Plain(f: Frame) { f.Ping? || (f.Data? && !Terminal(f.event.status)) }

  ghost predicate AllPlain(frames: seq<Frame>) {
    forall i :: 0 <= i < |frames| ==> Plain(frames[i])
  }

  /** Plain frames, one terminal event at k, at most a close frame after it. */
  ghost predicate OverAt(frames: seq<Frame>, k: nat) {
    && k < |frames| <= k + 2
    && AllPlain(frames[..k]) && TerminalFrame(frames[k])
    && (|frames| == k + 2 ==> frames[k + 1].CloseFrame?)
  }

  /** The reader has been sent a terminal event. */
  predicate Told(ph: Phase) {
    ph.Closing? || (ph.Leaving? && ph.why.Delivered?) || (ph.Gone? && ph.why.Delivered?)
  }

  ghost predicate FramesOk(rd: Reader) {
    && (if Told(rd.phase) then exists k: nat :: OverAt(rd.frames, k) else AllPlain(rd.frames))
    && (rd.phase.Connected? || rd.phase.Checked? ==> rd.frames == [])
    && (rd.phase.Closing? ==> OverAt(rd.frames, |rd.frames| - 1))
  }

  lemma FramesAdvance(store: map<string, State>, b: Buses.Bus, rd: Reader, m: Move)
    requires FramesOk(rd) && Ready(b, rd, m)
    ensures FramesOk(Advance(store, b, rd, m))
  {
    var next := Advance(store, b, rd, m);
    var n := |rd.frames|;
    if m.Check? || m.Forward? {
      if Told(next.phase) {
        assert next.frames[..n] == rd.frames;
        assert OverAt(next.frames, n);
      }
    } else if m.SayClose? {
      assert next.frames[..n - 1] == rd.frames[..n - 1];
      assert OverAt(next.frames, n - 1);
    }
  }

  /** The move is a step of reader r, after it connected. */
  predicate IsStepOf(m: Move, r: nat) { !m.Backend? && !m.Shutdown? && !m.Connect? && m.r == r }

  lemma FreshFrames(rs: map<nat, Reader>, m: Move)
    ensures m.Connect? ==> FramesOk(Reader(m.id, Connected, []))
  {
  }

  lemma {:induction false} FramesInv(cfg: Pipeline.Config, ms: seq<Move>, r: nat)
    requires Feasible(cfg, ms) && r in Reached(cfg, ms).readers
    ensures FramesOk(Reached(cfg, ms).readers[r])
  {
    hide Pipeline.Enabled, Pipeline.Step, Advance, FramesOk;
    var before, m := ms[..|ms| - 1], ms[|ms| - 1];
    var s := Reached(cfg, before);
    if r in s.readers {
      FramesInv(cfg, before, r);
      if IsStepOf(m, r) {
        FramesAdvance(s.pipe.store, s.bus, s.readers[r], m);
      }
    } else {
      FreshFrames(s.readers, m);
    }
  }

  lemma PlainShape(frames: seq<Frame>)
    requires AllPlain(frames)
    ensures forall i :: 0 <= i < |frames| ==> !TerminalFrame(frames[i]) && !frames[i].CloseFrame?
  {
    forall i | 0 <= i < |frames| ensures !TerminalFrame(frames[i]) && !frames[i].CloseFrame? {
      assert Plain(frames[i]);
    }
  }

  lemma ShapeAt(frames: seq<Frame>, k: nat)
    requires OverAt(frames, k)
    ensures forall i :: 0 <= i < |frames| ==> (TerminalFrame(frames[i]) <==> i == k)
    ensures forall i :: 0 <= i < |frames| ==> (frames[i].CloseFrame? <==> i == k + 1)
  {
    forall i | 0 <= i < |frames|
      ensures TerminalFrame(frames[i]) <==> i == k
      ensures frames[i].CloseFrame? <==> i == k + 1
    {
      if i < k {
        assert Plain(frames[..k][i]);
      }
    }
  }

  lemma ShapeOfFrames(rd: Reader)
    requires FramesOk(rd)
    ensures forall i, j :: 0 <= i < j < |rd.frames| && TerminalFrame(rd.frames[i]) ==>
                  rd.frames[j].CloseFrame? && j == i + 1 == |rd.frames| - 1
    ensures forall j :: 0 <= j < |rd.frames| && rd.frames[j].CloseFrame? ==>
                  j == |rd.frames| - 1 && j > 0 && TerminalFrame(rd.frames[j - 1])
    ensures Told(rd.phase) <==> exists i :: 0 <= i < |rd.frames| && TerminalFrame(rd.frames[i])
  {
    if Told(rd.phase) {
      var k: nat :| OverAt(rd.frames, k);
      ShapeAt(rd.frames, k);
    } else {
      PlainShape(rd.frames);
    }
  }

  /** Section 5.5.1 of RFC 6455: in every run a client is sent at most one terminal
      event, no data and no ping after it, and a close frame only right after it,
      as the last frame.  A terminal event has been sent exactly to the readers
      that are done. */
  lemma FrameDiscipline(cfg: Pipeline.Config, ms: seq<Move>, r: nat)
    requires Feasible(cfg, ms) && r in Reached(cfg, ms).readers
    ensures var rd := Reached(cfg, ms).readers[r];
            && (forall i, j :: 0 <= i < j < |rd.frames| && TerminalFrame(rd.frames[i]) ==>
                  rd.frames[j].CloseFrame? && j == i + 1 == |rd.frames| - 1)
            && (forall j :: 0 <= j < |rd.frames| && rd.frames[j].CloseFrame? ==>
                  j == |rd.frames| - 1 && j > 0 && TerminalFrame(rd.frames[j - 1]))
            && (Told(rd.phase) <==> exists i :: 0 <= i < |rd.frames| && TerminalFrame(rd.frames[i]))
  {
    hide Feasible, Reached;
    FramesInv(cfg, ms, r);
    ShapeOfFrames(Reached(cfg, ms).readers[r]);
  }

  // ---- Terminal frames tell the truth -----------------------------------

  /** A published terminal event announces the stored record. */
  ghost predicate Live(store: map<string, State>, id: string, e: Event) {
    Terminal(e.status) ==> Settled(store, id) && e == LiveEvent(store[id])
  }

  /** In a trace with a finale, only the effect after the final save publishes a
      terminal event. */
  lemma FinaleIsLive(log: seq<Effect>, i: nat, id: string)
    requires Ends(log, id) && i < |log| && log[i].Publish? && Terminal(log[i].event.status)
    ensures i == End(log, id) + 1 && log[i].event == LiveEvent(EndState(log, id))
  {
    var k := End(log, id);
    assert IsFinale(log, k, id);
  }

  lemma PublicationIsLive(p: Pipeline.Pipe, g: Lifecycle.Tracks, a: Pipeline.Action)
    requires Lifecycle.Inv(p, g) && Pipeline.Enabled(p, a) && Publication(a).Some?
    ensures Publication(a).value.Publish? && Live(p.store, Publication(a).value.topic, Publication(a).value.event)
  {
    hide Lifecycle.HandlersOk, Lifecycle.QueueOk, Lifecycle.RestOk, Lifecycle.PoolOk, LiveEvent,
      Requests.NormalizedJob;
    if a.Act? {
      var r := p.runners[a.w];
      assert Lifecycle.HeldBy(r, a.w, g) && Lifecycle.RecordOk(p.store, r);
      if Terminal(a.effect.event.status) {
        FinaleIsLive(r.log, r.pc, a.id);
      }
    }
  }

  ghost predicate ChanLive(store: map<string, State>, c: Buses.Chan) {
    forall i :: 0 <= i < |c.buf| ==> Live(store, c.topic, c.buf[i])
  }

  ghost predicate BuffersLive(store: map<string, State>, b: Buses.Bus) {
    forall c :: 0 <= c < |b.chans| ==> ChanLive(store, b.chans[c])
  }

  /** Finished records stay. */
  ghost predicate Persists(store: map<string, State>, later: map<string, State>) {
    forall id :: Settled(store, id) ==> id in later && later[id] == store[id]
  }

  lemma ChanStaysLive(store: map<string, State>, b: Buses.Bus, op: Buses.Op, c: nat)
    requires Buses.Inv(b) && c < |b.chans| && ChanLive(store, b.chans[c])
    requires op.Publish? ==> Live(store, op.topic, op.event)
    ensures ChanLive(store, Buses.Apply(b, op).chans[c])
  {
    hide LiveEvent, Buses.Apply, Buses.GoodChan;
    Buses.ChanStep(b, op, c);
    if Buses.Enters(b, op, c) {
      assert Buses.GoodTopic(b, op.topic);
    }
  }

  lemma BuffersStep(store: map<string, State>, later: map<string, State>, b: Buses.Bus, m: Move)
    requires Buses.Inv(b) && BuffersLive(store, b) && Persists(store, later)
    requires BusOp(m).Some? && BusOp(m).value.Publish? ==> Live(store, BusOp(m).value.topic, BusOp(m).value.event)
    ensures BuffersLive(later, NextBus(b, m))
  {
    hide LiveEvent, Buses.Apply, Buses.GoodChan;
    var next := NextBus(b, m);
    forall c | 0 <= c < |next.chans| ensures ChanLive(later, next.chans[c]) {
      if c < |b.chans| {
        assert ChanLive(store, b.chans[c]);
        if BusOp(m).Some? {
          ChanStaysLive(store, b, BusOp(m).value, c);
        }
      } else {
        Buses.BornEmpty(b, BusOp(m).value, c);
      }
    }
  }

  /** What a step of the system does to the store. */
  lemma StorePersists(cfg: Pipeline.Config, ms: seq<Move>)
    requires Feasible(cfg, ms) && ms != []
    ensures Feasible(cfg, ms[..|ms| - 1])
    ensures Persists(Reached(cfg, ms[..|ms| - 1]).pipe.store, Reached(cfg, ms).pipe.store)
  {
    hide Reached;
    FeasiblePrefix(cfg, ms, |ms| - 1);
    forall id | Settled(Reached(cfg, ms[..|ms| - 1]).pipe.store, id)
      ensures id in Reached(cfg, ms).pipe.store
      ensures Reached(cfg, ms).pipe.store[id] == Reached(cfg, ms[..|ms| - 1]).pipe.store[id]
    {
      SettledStays(cfg, ms, id);
    }
  }

  lemma MoveIsLive(cfg: Pipeline.Config, ms: seq<Move>, m: Move)
    requires Feasible(cfg, ms) && Can(Reached(cfg, ms), m) && BusOp(m).Some? && BusOp(m).value.Publish?
    ensures Live(Reached(cfg, ms).pipe.store, BusOp(m).value.topic, BusOp(m).value.event)
  {
    hide Feasible, Reached, Live, Pipeline.Enabled;
    RunsProject(cfg, ms);
    Submissions.RunInv(cfg, PipeOps(ms));
    PublicationIsLive(Reached(cfg, ms).pipe, Submissions.TracksOf(cfg, PipeOps(ms)), m.action);
  }

  lemma BusInv(cfg: Pipeline.Config, ms: seq<Move>)
    requires Feasible(cfg, ms)
    ensures Buses.Inv(Reached(cfg, ms).bus)
  {
    hide Feasible, Reached, Buses.Inv;
    RunsProject(cfg, ms);
    Buses.RunKeepsInv(BusOps(ms));
  }

  lemma {:induction false} BuffersInv(cfg: Pipeline.Config, ms: seq<Move>)
    requires Feasible(cfg, ms)
    ensures BuffersLive(Reached(cfg, ms).pipe.store, Reached(cfg, ms).bus)
  {
    hide Buses.Inv, Persists, Live, Pipeline.Enabled, Pipeline.Step, NextBus, NextReaders, Allowed;
    if ms != [] {
      var before, m := ms[..|ms| - 1], ms[|ms| - 1];
      BuffersInv(cfg, before);
      BusInv(cfg, before);
      StorePersists(cfg, ms);
      if BusOp(m).Some? && BusOp(m).value.Publish? {
        MoveIsLive(cfg, before, m);
      }
      BuffersStep(Reached(cfg, before).pipe.store, Reached(cfg, ms).pipe.store, Reached(cfg, before).bus, m);
    }
  }

  predicate IsAttach(m: Move, r: nat) { m.Attach? && m.r == r }

  /** The reader has subscribed. */
  ghost predicate Attached(ms: seq<Move>, r: nat) {
    exists i :: 0 <= i < |ms| && IsAttach(ms[i], r)
  }

  lemma AttachedExtends(ms: seq<Move>, r: nat)
    requires ms != []
    ensures Attached(ms, r) <==> Attached(ms[..|ms| - 1], r) || IsAttach(ms[|ms| - 1], r)
  {
    var before := ms[..|ms| - 1];
    assert forall i :: 0 <= i < |before| ==> before[i] == ms[i];
  }

  lemma StillUnattached(store: map<string, State>, b: Buses.Bus, rd: Reader, m: Move)
    requires Ready(b, rd, m)
    ensures var next := Advance(store, b, rd, m);
            && (next.phase.Connected? || next.phase.Checked? ==>
              (rd.phase.Connected? || rd.phase.Checked?) && !m.Attach?)
            && (Channel(next.phase).Some? ==> m.Attach? || Channel(rd.phase).Some?)
  {
    hide FinalEvent;
  }

  lemma NoneAttached(r: nat)
    ensures !Attached([], r)
  {
  }

  /** A reader subscribes on its way from Checked to Streaming, once. */
  lemma {:induction false} AttachedByPhase(cfg: Pipeline.Config, ms: seq<Move>, r: nat)
    requires Feasible(cfg, ms)
    ensures var rs := Reached(cfg, ms).readers;
            && (r !in rs || rs[r].phase.Connected? || rs[r].phase.Checked? ==> !Attached(ms, r))
            && (r in rs && Channel(rs[r].phase).Some? ==> Attached(ms, r))
  {
    hide Pipeline.Enabled, Pipeline.Step, Pipeline.Init, Advance, NextBus, Attached;
    if ms == [] {
      NoneAttached(r);
    } else {
      var before, m := ms[..|ms| - 1], ms[|ms| - 1];
      var s := Reached(cfg, before);
      AttachedByPhase(cfg, before, r);
      AttachedExtends(ms, r);
      if IsStepOf(m, r) {
        StillUnattached(s.pipe.store, s.bus, s.readers[r], m);
      }
    }
  }

  /** A terminal frame repeats the stored record: as announced on the bus to a
      subscriber, as read from the store to anyone else. */
  ghost predicate Honest(store: map<string, State>, id: string, attached: bool, f: Frame) {
    TerminalFrame(f) ==>
      Settled(store, id) && f.event == if attached then LiveEvent(store[id]) else FinalEvent(store[id])
  }

  ghost predicate AllHonest(store: map<string, State>, rd: Reader, attached: bool) {
    forall i :: 0 <= i < |rd.frames| ==> Honest(store, rd.id, attached, rd.frames[i])
  }

  lemma TerminalFinal(s: State)
    ensures FinalEvent(s).status == s.status
  {
  }

  lemma HonestAdvance(store: map<string, State>, later: map<string, State>, b: Buses.Bus, rd: Reader, m: Move,
      attached: bool)
    requires AllHonest(store, rd, attached) && Ready(b, rd, m) && BuffersLive(store, b) && Persists(store, later)
    requires m.Forward? ==> b.chans[m.ch].topic == rd.id && attached
    requires m.Check? ==> !attached
    ensures AllHonest(later, Advance(store, b, rd, m), attached)
  {
    hide LiveEvent, FinalEvent;
    if m.Forward? {
      assert ChanLive(store, b.chans[m.ch]);
      assert Live(store, rd.id, b.chans[m.ch].buf[0]);
    } else if m.Check? && Settled(store, rd.id) {
      TerminalFinal(store[rd.id]);
    }
  }

  lemma HonestStays(store: map<string, State>, later: map<string, State>, rd: Reader, attached: bool)
    requires AllHonest(store, rd, attached) && Persists(store, later)
    ensures AllHonest(later, rd, attached)
  {
    hide LiveEvent, FinalEvent;
  }

  lemma ForwardsOwnTopic(cfg: Pipeline.Config, ms: seq<Move>, m: Move)
    requires Feasible(cfg, ms) && Can(Reached(cfg, ms), m) && m.Forward?
    ensures Reached(cfg, ms).bus.chans[m.ch].topic == Reached(cfg, ms).readers[m.r].id
  {
    hide Feasible, Reached, Pipeline.Enabled;
    ChannelsInv(cfg, ms);
    assert Channel(Reached(cfg, ms).readers[m.r].phase) == Some(m.ch);
  }

  lemma EmptyIsHonest(store: map<string, State>, rd: Reader, attached: bool)
    requires rd.frames == []
    ensures AllHonest(store, rd, attached)
  {
  }

  lemma OwnFrameIsTrue(cfg: Pipeline.Config, ms: seq<Move>, r: nat)
    requires Feasible(cfg, ms) && ms != [] && IsStepOf(ms[|ms| - 1], r)
    requires r in Reached(cfg, ms[..|ms| - 1]).readers
    requires AllHonest(Reached(cfg, ms[..|ms| - 1]).pipe.store, Reached(cfg, ms[..|ms| - 1]).readers[r],
                       Attached(ms[..|ms| - 1], r))
    ensures AllHonest(Reached(cfg, ms).pipe.store, Reached(cfg, ms).readers[r], Attached(ms, r))
  {
    hide Persists, AllHonest, BuffersLive, Pipeline.Enabled, Pipeline.Step, NextBus, Attached;
    var before, m := ms[..|ms| - 1], ms[|ms| - 1];
    var s := Reached(cfg, before);
    StorePersists(cfg, ms);
    AttachedExtends(ms, r);
    AttachedByPhase(cfg, before, r);
    if m.Attach? {
      FramesInv(cfg, before, r);
      EmptyIsHonest(Reached(cfg, ms).pipe.store, Reached(cfg, ms).readers[r], Attached(ms, r));
    } else {
      BuffersInv(cfg, before);
      if m.Forward? {
        ForwardsOwnTopic(cfg, before, m);
      }
      HonestAdvance(s.pipe.store, Reached(cfg, ms).pipe.store, s.bus, s.readers[r], m, Attached(before, r));
    }
  }

  lemma FreshIsHonest(store: map<string, State>, m: Move, attached: bool)
    ensures m.Connect? ==> AllHonest(store, Reader(m.id, Connected, []), attached)
  {
  }

  /** In every run, each terminal frame a client gets agrees with the stored
      record: a client that came late gets the same COMPLETED frame as one that
      listened, and the same FAILED frame up to the test counts. */
  lemma {:induction false} TerminalFramesAreTrue(cfg: Pipeline.Config, ms: seq<Move>, r: nat)
    requires Feasible(cfg, ms) && r in Reached(cfg, ms).readers
    ensures AllHonest(Reached(cfg, ms).pipe.store, Reached(cfg, ms).readers[r], Attached(ms, r))
  {
    hide Persists, AllHonest, BuffersLive, Pipeline.Enabled, Pipeline.Step, Advance, NextBus, Attached;
    var before, m := ms[..|ms| - 1], ms[|ms| - 1];
    StorePersists(cfg, ms);
    AttachedExtends(ms, r);
    var s := Reached(cfg, before);
    if r in s.readers {
      TerminalFramesAreTrue(cfg, before, r);
      if IsStepOf(m, r) {
        OwnFrameIsTrue(cfg, ms, r);
      } else {
        HonestStays(s.pipe.store, Reached(cfg, ms).pipe.store, s.readers[r], Attached(ms, r));
      }
    } else {
      FreshIsHonest(Reached(cfg, ms).pipe.store, m, Attached(ms, r));
    }
  }
}
