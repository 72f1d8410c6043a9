/** What becomes of a WebSocket handler that leaves its loop, and of its channel,
    over every run of the whole system (pkg/api/websocket.go). */
module Departures {
  import opened Models
  import opened Outcomes
  import opened Gateway
  import opened Clients
  import Pipeline
  import Finales
  import Buses

  // ---- Leaving the loop --------------------------------------------------

  /** The reader's own step that ends its loop before the terminal event, and why. */
  predicate EndsLoop(m: Move, r: nat, why: Reason) {
    match why
    case HungUp => m == HangUp(r)
    case ChannelClosed => m == SeeClosed(r)
    case WriteFailed => (m.Forward? || m.Beat?) && m.r == r && !m.ok
    case Delivered => false
  }

  /** Out of the loop for this reason, having been sent these frames. */
  predicate Departed(rd: Reader, why: Reason, frames: seq<Frame>) {
    rd.frames == frames && (rd.phase.Leaving? || rd.phase.Gone?) && rd.phase.why == why
  }

  lemma EndsLoopStep(store: map<string, State>, b: Buses.Bus, rd: Reader, m: Move, why: Reason)
    requires Ready(b, rd, m) && EndsLoop(m, m.r, why)
    ensures rd.phase.Streaming? && Departed(Advance(store, b, rd, m), why, rd.frames)
  {
    hide FinalEvent;
  }

  lemma DepartedStep(store: map<string, State>, b: Buses.Bus, rd: Reader, m: Move, why: Reason, frames: seq<Frame>)
    requires Ready(b, rd, m) && Departed(rd, why, frames)
    ensures m.Detach? && Departed(Advance(store, b, rd, m), why, frames)
  {
    hide FinalEvent;
  }

  lemma DepartedFrames(rd: Reader, why: Reason, frames: seq<Frame>)
    requires Departed(rd, why, frames)
    ensures rd.frames == frames
  {
  }

  /** Once a client has hung up, a write to it has failed, or its channel was seen
      closed, the handler is out of its loop for good: in every continuation its
      frames stay as they were, and no terminal event is among them. */
  lemma {:induction false} DepartedForGood(cfg: Pipeline.Config, ms: seq<Move>, j: nat, r: nat, why: Reason)
    requires Feasible(cfg, ms) && j < |ms| && EndsLoop(ms[j], r, why)
    ensures Feasible(cfg, ms[..j]) && r in Reached(cfg, ms[..j]).readers && r in Reached(cfg, ms).readers
    ensures Departed(Reached(cfg, ms).readers[r], why, Reached(cfg, ms[..j]).readers[r].frames)
    ensures AllPlain(Reached(cfg, ms).readers[r].frames)
  {
    hide Pipeline.Enabled, Pipeline.Step, Pipeline.Init, Advance, NextBus, Departed, AllPlain;
    var before, m := ms[..|ms| - 1], ms[|ms| - 1];
    var s := Reached(cfg, before);
    if j == |before| {
      assert ms[..j] == before;
      EndsLoopStep(s.pipe.store, s.bus, s.readers[r], m, why);
      FramesInv(cfg, before, r);
      DepartedFrames(Reached(cfg, ms).readers[r], why, s.readers[r].frames);
    } else {
      assert before[..j] == ms[..j];
      DepartedForGood(cfg, before, j, r, why);
      var frames := Reached(cfg, ms[..j]).readers[r].frames;
      DepartedFrames(s.readers[r], why, frames);
      if IsStepOf(m, r) {
        DepartedStep(s.pipe.store, s.bus, s.readers[r], m, why, frames);
        DepartedFrames(Reached(cfg, ms).readers[r], why, frames);
      }
    }
  }

  /** Nothing is sent to such a client any more: the only step its handler has left
      is to unsubscribe. */
  lemma OnlyDetachFollows(cfg: Pipeline.Config, ms: seq<Move>, j: nat, i: nat, r: nat, why: Reason)
    requires Feasible(cfg, ms) && j < i < |ms| && EndsLoop(ms[j], r, why)
    ensures IsStepOf(ms[i], r) ==> ms[i].Detach?
  {
    hide Feasible, Reached, Pipeline.Enabled, Advance, AllPlain;
    Finales.StepAt(cfg, ms, i);
    assert ms[..i][j] == ms[j];
    DepartedForGood(cfg, ms[..i], j, r, why);
    if IsStepOf(ms[i], r) {
      var s := Reached(cfg, ms[..i]);
      DepartedStep(s.pipe.store, s.bus, s.readers[r], ms[i], why, s.readers[r].frames);
    }
  }

  lemma NewReason(store: map<string, State>, b: Buses.Bus, rd: Reader, m: Move)
    requires Ready(b, rd, m)
    ensures var next := Advance(store, b, rd, m);
            next.phase.Leaving? || next.phase.Gone? ==>
              || ((rd.phase.Leaving? || rd.phase.Gone?) && rd.phase.why == next.phase.why)
              || (next.phase.why.HungUp? && m == HangUp(m.r))
              || (next.phase.why.ChannelClosed? && m == SeeClosed(m.r))
              || (next.phase.why.WriteFailed? && (m.Forward? || m.Beat? || m.Check?) && !m.ok)
              || next.phase.why.Delivered?
  {
    hide FinalEvent;
  }

  predicate FailsToWrite(m: Move, r: nat) { (m.Forward? || m.Beat? || m.Check?) && m.r == r && !m.ok }

  /** The reason a handler is out of its loop is what happened to it. */
  ghost predicate Happened(ms: seq<Move>, r: nat, why: Reason) {
    match why
    case HungUp => HangUp(r) in ms
    case ChannelClosed => SeeClosed(r) in ms
    case WriteFailed => exists i :: 0 <= i < |ms| && FailsToWrite(ms[i], r)
    case Delivered => true
  }

  lemma HappenedExtends(ms: seq<Move>, r: nat, why: Reason)
    requires ms != [] && Happened(ms[..|ms| - 1], r, why)
    ensures Happened(ms, r, why)
  {
    var before := ms[..|ms| - 1];
    assert ms == before + [ms[|ms| - 1]];
    if why.WriteFailed? {
      var i :| 0 <= i < |before| && FailsToWrite(before[i], r);
      assert FailsToWrite(ms[i], r);
    }
  }

  lemma LastHappened(ms: seq<Move>, r: nat, why: Reason)
    requires ms != []
    ensures var m := ms[|ms| - 1];
            match why
            case HungUp => m == HangUp(r) ==> Happened(ms, r, why)
            case ChannelClosed => m == SeeClosed(r) ==> Happened(ms, r, why)
            case WriteFailed => FailsToWrite(m, r) ==> Happened(ms, r, why)
            case Delivered => Happened(ms, r, why)
  {
    assert ms[|ms| - 1] in ms;
  }

  lemma {:induction false} ReasonsAreTrue(cfg: Pipeline.Config, ms: seq<Move>, r: nat)
    requires Feasible(cfg, ms) && r in Reached(cfg, ms).readers
    ensures var ph := Reached(cfg, ms).readers[r].phase;
            ph.Leaving? || ph.Gone? ==> Happened(ms, r, ph.why)
  {
    hide Pipeline.Enabled, Pipeline.Step, Pipeline.Init, Advance, NextBus, Happened;
    var before, m := ms[..|ms| - 1], ms[|ms| - 1];
    var s := Reached(cfg, before);
    if r in s.readers {
      ReasonsAreTrue(cfg, before, r);
      var ph, now := s.readers[r].phase, Reached(cfg, ms).readers[r].phase;
      if (ph.Leaving? || ph.Gone?) {
        HappenedExtends(ms, r, ph.why);
      }
      if IsStepOf(m, r) {
        NewReason(s.pipe.store, s.bus, s.readers[r], m);
        if now.Leaving? || now.Gone? {
          LastHappened(ms, r, now.why);
        }
      }
    }
  }

  /** A client counts as hung up exactly if it hung up, and its channel as closed
      exactly if it was seen closed. */
  lemma HungUpExactly(cfg: Pipeline.Config, ms: seq<Move>, r: nat)
    requires Feasible(cfg, ms) && r in Reached(cfg, ms).readers
    ensures var ph := Reached(cfg, ms).readers[r].phase;
            && ((ph.Leaving? || ph.Gone?) && ph.why.HungUp? <==> HangUp(r) in ms)
            && ((ph.Leaving? || ph.Gone?) && ph.why.ChannelClosed? <==> SeeClosed(r) in ms)
  {
    hide Feasible, Reached, AllPlain;
    ReasonsAreTrue(cfg, ms, r);
    if HangUp(r) in ms {
      var j :| 0 <= j < |ms| && ms[j] == HangUp(r);
      DepartedForGood(cfg, ms, j, r, HungUp);
    }
    if SeeClosed(r) in ms {
      var j :| 0 <= j < |ms| && ms[j] == SeeClosed(r);
      DepartedForGood(cfg, ms, j, r, ChannelClosed);
    }
  }

  lemma ClosedByShutdown(b: Buses.Bus, m: Move)
    ensures NextBus(b, m).closed <==> b.closed || m.Shutdown?
  {
  }

  /** The bus is closed exactly once it was shut down. */
  lemma {:induction false} ClosedExactly(cfg: Pipeline.Config, ms: seq<Move>)
    requires Feasible(cfg, ms)
    ensures Reached(cfg, ms).bus.closed <==> Shutdown in ms
  {
    hide Pipeline.Enabled, Pipeline.Step, Pipeline.Init, NextBus, NextReaders, Allowed;
    if ms != [] {
      var before, m := ms[..|ms| - 1], ms[|ms| - 1];
      ClosedExactly(cfg, before);
      ClosedByShutdown(Reached(cfg, before).bus, m);
      assert ms == before + [m];
    }
  }

  /** A handler sees its channel closed only after the bus was shut down, and when
      nothing is left in it. */
  lemma SeenClosedMeansShutdown(cfg: Pipeline.Config, ms: seq<Move>, j: nat, r: nat)
    requires Feasible(cfg, ms) && j < |ms| && ms[j] == SeeClosed(r)
    ensures Shutdown in ms[..j] && Feasible(cfg, ms[..j])
    ensures var s := Reached(cfg, ms[..j]);
            && r in s.readers && s.readers[r].phase.Streaming? && s.readers[r].phase.ch < |s.bus.chans|
            && s.bus.chans[s.readers[r].phase.ch].buf == []
  {
    hide Feasible, Reached, Pipeline.Enabled;
    Finales.StepAt(cfg, ms, j);
    ChannelsInv(cfg, ms[..j]);
    BusInv(cfg, ms[..j]);
    ClosedExactly(cfg, ms[..j]);
    var s := Reached(cfg, ms[..j]);
    assert Channel(s.readers[r].phase) == Some(s.readers[r].phase.ch);
    assert Buses.GoodChan(s.bus, s.readers[r].phase.ch);
  }

  // ---- Channels are given back -------------------------------------------

  /** Some reader holds the channel. */
  ghost predicate Owned(rs: map<nat, Reader>, c: nat) {
    exists r :: r in rs && Channel(rs[r].phase) == Some(c)
  }

  /** Every channel that is still open belongs to a reader that has not unsubscribed. */
  ghost predicate NoLeaks(b: Buses.Bus, rs: map<nat, Reader>) {
    forall c :: 0 <= c < |b.chans| && b.chans[c].closes == 0 ==> Owned(rs, c)
  }

  lemma ClosesGrow(b: Buses.Bus, m: Move, c: nat)
    requires c < |b.chans|
    ensures c < |NextBus(b, m).chans| && b.chans[c].closes <= NextBus(b, m).chans[c].closes
    ensures m.Detach? && m.ch == c && !b.chans[c].cleaned ==> NextBus(b, m).chans[c].closes > 0
  {
  }

  lemma OnlyAttachOpens(b: Buses.Bus, m: Move)
    ensures |NextBus(b, m).chans| == |b.chans| + if m.Attach? then 1 else 0
  {
  }

  lemma NoLeaksStep(store: map<string, State>, b: Buses.Bus, rs: map<nat, Reader>, m: Move)
    requires ChannelsOk(b, rs) && NoLeaks(b, rs) && Allowed(b, rs, m)
    ensures NoLeaks(NextBus(b, m), NextReaders(store, b, rs, m))
  {
    hide NextBus, Advance;
    var next, readers := NextBus(b, m), NextReaders(store, b, rs, m);
    OnlyAttachOpens(b, m);
    if !(m.Backend? || m.Shutdown? || m.Connect?) {
      ChannelAdvances(store, b, rs[m.r], m);
    }
    forall c | 0 <= c < |next.chans| && next.chans[c].closes == 0 ensures Owned(readers, c) {
      if c < |b.chans| {
        ClosesGrow(b, m, c);
        var r :| r in rs && Channel(rs[r].phase) == Some(c);
        assert Channel(readers[r].phase) == Some(c);
      } else {
        assert Channel(readers[m.r].phase) == Some(c);
      }
    }
  }

  lemma StepIsAllowed(s: Sys, m: Move)
    requires Can(s, m)
    ensures Allowed(s.bus, s.readers, m)
  {
    hide Allowed, Pipeline.Enabled;
  }

  lemma {:induction false} NothingLeaks(cfg: Pipeline.Config, ms: seq<Move>)
    requires Feasible(cfg, ms)
    ensures NoLeaks(Reached(cfg, ms).bus, Reached(cfg, ms).readers)
  {
    hide Pipeline.Enabled, Pipeline.Step, Pipeline.Init, NextBus, NextReaders, Allowed, ChannelsOk;
    if ms != [] {
      var before := ms[..|ms| - 1];
      var s := Reached(cfg, before);
      NothingLeaks(cfg, before);
      ChannelsInv(cfg, before);
      StepIsAllowed(s, ms[|ms| - 1]);
      NoLeaksStep(s.pipe.store, s.bus, s.readers, ms[|ms| - 1]);
    }
  }

  /** In every run the channels registered on the bus are those of readers between
      their subscription and their clean-up: a handler that is gone leaves none. */
  lemma RegisteredHaveReaders(cfg: Pipeline.Config, ms: seq<Move>, c: nat)
    requires Feasible(cfg, ms) && Buses.Registered(Reached(cfg, ms).bus, c)
    ensures Owned(Reached(cfg, ms).readers, c)
  {
    hide Feasible, Reached;
    NothingLeaks(cfg, ms);
    BusInv(cfg, ms);
    assert Buses.GoodChan(Reached(cfg, ms).bus, c);
  }

  lemma CleanedStays(b: Buses.Bus, m: Move, c: nat)
    requires c < |b.chans| && b.chans[c].cleaned
    ensures c < |NextBus(b, m).chans| && NextBus(b, m).chans[c].cleaned
  {
  }

  /** The channel a reader was given is its own until it is gone, and then cleaned up. */
  ghost predicate HeldOrReturned(s: Sys, r: nat, c: nat) {
    && r in s.readers && c < |s.bus.chans|
    && (Channel(s.readers[r].phase) == Some(c) || (s.readers[r].phase.Gone? && s.bus.chans[c].cleaned))
  }

  lemma OwnChannelStep(store: map<string, State>, b: Buses.Bus, rd: Reader, m: Move, c: nat)
    requires Ready(b, rd, m) && c < |b.chans|
    requires Channel(rd.phase) == Some(c) || (rd.phase.Gone? && b.chans[c].cleaned)
    ensures var next := Advance(store, b, rd, m);
            Channel(next.phase) == Some(c)
            || (next.phase.Gone? && c < |NextBus(b, m).chans| && NextBus(b, m).chans[c].cleaned)
  {
    hide FinalEvent;
  }

  lemma {:induction false} ChannelsComeBack(cfg: Pipeline.Config, ms: seq<Move>, q: nat, r: nat, id: string)
    requires Feasible(cfg, ms) && q < |ms| && ms[q] == Attach(r, id)
    ensures Feasible(cfg, ms[..q]) && HeldOrReturned(Reached(cfg, ms), r, |Reached(cfg, ms[..q]).bus.chans|)
  {
    hide Pipeline.Enabled, Pipeline.Step, Pipeline.Init, NextBus, Advance;
    var before, m := ms[..|ms| - 1], ms[|ms| - 1];
    var s, c := Reached(cfg, before), 0;
    if q == |before| {
      assert ms[..q] == before;
      ChannelAdvances(s.pipe.store, s.bus, s.readers[r], m);
      OnlyAttachOpens(s.bus, m);
    } else {
      assert before[..q] == ms[..q];
      ChannelsComeBack(cfg, before, q, r, id);
      c := |Reached(cfg, ms[..q]).bus.chans|;
      ClosesGrow(s.bus, m, c);
      if s.bus.chans[c].cleaned {
        CleanedStays(s.bus, m, c);
      }
      if IsStepOf(m, r) {
        OwnChannelStep(s.pipe.store, s.bus, s.readers[r], m, c);
      }
    }
  }

  // ---- Pings and close frames --------------------------------------------

  function Pings(frames: seq<Frame>): nat {
    if frames == [] then 0 else Pings(frames[..|frames| - 1]) + if frames[|frames| - 1].Ping? then 1 else 0
  }

  function Beats(ms: seq<Move>, r: nat): nat {
    if ms == [] then 0 else Beats(ms[..|ms| - 1], r) + if ms[|ms| - 1] == Beat(r, true) then 1 else 0
  }

  lemma PingsExtend(frames: seq<Frame>, f: Frame)
    ensures Pings(frames + [f]) == Pings(frames) + if f.Ping? then 1 else 0
  {
    assert (frames + [f])[..|frames|] == frames;
  }

  lemma ControlFrames(store: map<string, State>, b: Buses.Bus, rd: Reader, m: Move)
    requires Ready(b, rd, m)
    ensures var next := Advance(store, b, rd, m);
            && Pings(next.frames) == Pings(rd.frames) + (if m == Beat(m.r, true) then 1 else 0)
            && (CloseFrame in next.frames <==> CloseFrame in rd.frames || m == SayClose(m.r, true))
  {
    hide FinalEvent, Pings;
    var next := Advance(store, b, rd, m);
    if next.frames != rd.frames {
      PingsExtend(rd.frames, next.frames[|rd.frames|]);
    }
  }

  /** A client is sent one ping for each heartbeat that was written, and a close frame
      exactly if writing it succeeded after the terminal event. */
  lemma {:induction false} ControlFramesExactly(cfg: Pipeline.Config, ms: seq<Move>, r: nat)
    requires Feasible(cfg, ms)
    ensures var rs := Reached(cfg, ms).readers;
            if r in rs then
              Pings(rs[r].frames) == Beats(ms, r) && (CloseFrame in rs[r].frames <==> SayClose(r, true) in ms)
            else Beats(ms, r) == 0 && SayClose(r, true) !in ms
  {
    hide Pipeline.Enabled, Pipeline.Step, Pipeline.Init, NextBus, Advance;
    if ms != [] {
      var before, m := ms[..|ms| - 1], ms[|ms| - 1];
      var s := Reached(cfg, before);
      assert ms == before + [m];
      ControlFramesExactly(cfg, before, r);
      if IsStepOf(m, r) {
        ControlFrames(s.pipe.store, s.bus, s.readers[r], m);
      }
    }
  }
}
