/** Which clients miss the end of their submission: the exact condition, over
    every run of the whole system. */
module Finales {
  import opened Models
  import opened Outcomes
  import opened Gateway
  import opened Clients
  import opened Delivery
  import Pipeline
  import Topics
  import Buses

  /** The move publishes a terminal event on the submission's topic. */
  predicate Ending(m: Move, id: string) {
    && m.Backend? && Topics.PublishesOn(m.action, id) && Terminal(m.action.effect.event.status)
  }

  // ---- It happens once ---------------------------------------------------

  lemma ActionAt(ms: seq<Move>, i: nat)
    requires i < |ms| && ms[i].Backend?
    ensures PipeOps(ms[..i + 1]) == PipeOps(ms[..i]) + [ms[i].action]
    ensures PipeOps(ms[..i + 1]) <= PipeOps(ms)
  {
    hide PipeOps;
    assert ms[..i] + [ms[i]] == ms[..i + 1];
    assert ms[..i + 1] + ms[i + 1..] == ms;
    OpsConcat(ms[..i], [ms[i]]);
    OneOp(ms[i]);
    OpsConcat(ms[..i + 1], ms[i + 1..]);
  }

  lemma EndsFirst(cfg: Pipeline.Config, ms: seq<Move>, i: nat, j: nat, id: string)
    requires Feasible(cfg, ms) && i < j < |ms| && Ending(ms[i], id)
    ensures !Ending(ms[j], id)
  {
    hide Feasible, PipeOps;
    if Ending(ms[j], id) {
      RunsProject(cfg, ms);
      ActionAt(ms, i);
      ActionAt(ms, j);
      assert ms[..j] == ms[..i + 1] + ms[i + 1..j];
      OpsConcat(ms[..i + 1], ms[i + 1..j]);
      Topics.NothingAfterTerminal(cfg, PipeOps(ms), |PipeOps(ms[..i])|, |PipeOps(ms[..j])|, id);
      assert false;
    }
  }

  lemma EndsOnce(cfg: Pipeline.Config, ms: seq<Move>, i: nat, j: nat, id: string)
    requires Feasible(cfg, ms) && i < |ms| && j < |ms| && Ending(ms[i], id) && Ending(ms[j], id)
    ensures i == j
  {
    hide Feasible, PipeOps;
    if i < j {
      EndsFirst(cfg, ms, i, j, id);
    } else if j < i {
      EndsFirst(cfg, ms, j, i, id);
    }
  }

  // ---- Buffers -----------------------------------------------------------

  predicate HasTerminal(evs: seq<Event>) {
    exists i :: 0 <= i < |evs| && Terminal(evs[i].status)
  }

  /** A move that is not the ending puts no terminal event into a channel of the
      submission. */
  lemma EntersIsEnding(b: Buses.Bus, m: Move, c: nat)
    requires Buses.Inv(b) && c < |b.chans| && BusOp(m).Some? && Buses.Enters(b, BusOp(m).value, c)
    ensures BusOp(m).value.topic == b.chans[c].topic
    ensures Terminal(BusOp(m).value.event.status) ==> Ending(m, b.chans[c].topic)
  {
    assert Buses.GoodTopic(b, BusOp(m).value.topic);
  }

  lemma Appended(evs: seq<Event>, e: Event)
    ensures HasTerminal(evs + [e]) <==> HasTerminal(evs) || Terminal(e.status)
  {
    if HasTerminal(evs) {
      var i :| 0 <= i < |evs| && Terminal(evs[i].status);
      assert (evs + [e])[i] == evs[i];
    }
    assert (evs + [e])[|evs|] == e;
  }

  lemma BufferStep(b: Buses.Bus, m: Move, c: nat)
    requires Buses.Inv(b) && c < |b.chans| && !Ending(m, b.chans[c].topic)
    ensures c < |NextBus(b, m).chans| && NextBus(b, m).chans[c].topic == b.chans[c].topic
    ensures !HasTerminal(b.chans[c].buf) ==> !HasTerminal(NextBus(b, m).chans[c].buf)
    ensures HasTerminal(b.chans[c].buf) && !(m.Forward? && m.ch == c) ==> HasTerminal(NextBus(b, m).chans[c].buf)
  {
    hide Buses.Apply, Buses.Inv;
    if BusOp(m).Some? {
      var op := BusOp(m).value;
      Buses.ChanStep(b, op, c);
      if Buses.Enters(b, op, c) {
        EntersIsEnding(b, m, c);
        Appended(b.chans[c].buf, op.event);
      }
    }
  }

  lemma NothingIsQuiet()
    ensures !HasTerminal([])
  {
  }

  lemma TopicStays(b: Buses.Bus, m: Move, c: nat)
    requires c < |b.chans|
    ensures c < |NextBus(b, m).chans| && NextBus(b, m).chans[c].topic == b.chans[c].topic
  {
    hide Buses.Apply;
    if BusOp(m).Some? {
      Buses.ChanStep(b, BusOp(m).value, c);
    }
  }

  /** Before the ending no channel of the submission holds a terminal event. */
  lemma {:induction false} QuietBefore(cfg: Pipeline.Config, ms: seq<Move>, c: nat, id: string)
    requires Feasible(cfg, ms) && (forall i :: 0 <= i < |ms| ==> !Ending(ms[i], id))
    requires c < |Reached(cfg, ms).bus.chans| && Reached(cfg, ms).bus.chans[c].topic == id
    ensures !HasTerminal(Reached(cfg, ms).bus.chans[c].buf)
  {
    hide Pipeline.Enabled, Pipeline.Step, Pipeline.Init, Buses.Apply, Buses.Inv, Ending, HasTerminal, NextReaders,
      Allowed;
    var before, m := ms[..|ms| - 1], ms[|ms| - 1];
    var b := Reached(cfg, before).bus;
    BusInv(cfg, before);
    if c < |b.chans| {
      TopicStays(b, m, c);
      QuietBefore(cfg, before, c, id);
      BufferStep(b, m, c);
    } else {
      Buses.BornEmpty(b, BusOp(m).value, c);
      NothingIsQuiet();
    }
  }

  /** The ending enters the channel of every subscribed reader with room. */
  lemma EndingEnters(b: Buses.Bus, m: Move, c: nat, id: string)
    requires Buses.Inv(b) && Subscribed(b, c, id) && Ending(m, id)
    ensures c < |NextBus(b, m).chans|
    ensures !HasTerminal(b.chans[c].buf) ==>
              (HasTerminal(NextBus(b, m).chans[c].buf) <==> !b.closed && |b.chans[c].buf| < Buses.CHANNEL_CAP)
  {
    hide Buses.Apply, HasTerminal;
    var op := BusOp(m).value;
    Buses.ChanStep(b, op, c);
    assert Buses.GoodChan(b, c);
    Appended(b.chans[c].buf, op.event);
  }

  // ---- Readers that will, and readers that never will --------------------

  /** Past its store check, sent no terminal event, and none in its channel. */
  predicate Hopeless(s: Sys, r: nat) {
    r in s.readers &&
    match s.readers[r].phase
    case Checked => true
    case Streaming(c) => c < |s.bus.chans| && !HasTerminal(s.bus.chans[c].buf)
    case Leaving(_, why) => why != Delivered
    case Gone(why) => why != Delivered
    case _ => false
  }

  /** Sent the terminal event, or finding it in its channel or in the store, or
      no longer connected. */
  predicate Provided(s: Sys, r: nat, id: string) {
    Settled(s.pipe.store, id) &&
    (r in s.readers && s.readers[r].id == id ==>
       match s.readers[r].phase
       case Connected => true
       case Checked => false
       case Streaming(c) => c < |s.bus.chans| && HasTerminal(s.bus.chans[c].buf)
       case _ => true)
  }

  lemma OwnHopelessStep(store: map<string, State>, b: Buses.Bus, rd: Reader, m: Move)
    requires Ready(b, rd, m) && (rd.phase.Streaming? ==>
      rd.phase.ch < |b.chans| && !HasTerminal(b.chans[rd.phase.ch].buf))
    requires rd.phase.Checked? || rd.phase.Streaming? || (rd.phase.Leaving? && rd.phase.why != Delivered)
    ensures var next := Advance(store, b, rd, m);
            && (rd.phase.Checked? ==> next.phase == Streaming(|b.chans|))
            && (rd.phase.Streaming? ==> next.phase == rd.phase || (next.phase.Leaving? && next.phase.why != Delivered))
            && (rd.phase.Leaving? ==> next.phase == Gone(rd.phase.why))
  {
    hide FinalEvent;
    if m.Forward? {
      assert b.chans[m.ch].buf[0] == b.chans[m.ch].buf[0];
    }
  }

  lemma AttachIsQuiet(b: Buses.Bus, m: Move)
    requires m.Attach?
    ensures |b.chans| < |NextBus(b, m).chans| && !HasTerminal(NextBus(b, m).chans[|b.chans|].buf)
  {
  }

  lemma HopelessStep(cfg: Pipeline.Config, ms: seq<Move>, m: Move, r: nat)
    requires Feasible(cfg, ms) && Can(Reached(cfg, ms), m) && Hopeless(Reached(cfg, ms), r)
    requires !Ending(m, Reached(cfg, ms).readers[r].id)
    ensures Hopeless(Next(Reached(cfg, ms), m), r)
  {
    hide Feasible, Reached, Pipeline.Enabled, Pipeline.Step, Buses.Apply, Buses.Inv, HasTerminal, Advance, Ending,
      NextBus;
    var s := Reached(cfg, ms);
    var rd := s.readers[r];
    BusInv(cfg, ms);
    ChannelsInv(cfg, ms);
    if rd.phase.Streaming? {
      BufferStep(s.bus, m, rd.phase.ch);
    }
    if IsStepOf(m, r) {
      OwnHopelessStep(s.pipe.store, s.bus, rd, m);
      if m.Attach? {
        AttachIsQuiet(s.bus, m);
      }
    }
  }

  lemma OwnProvidedStep(store: map<string, State>, b: Buses.Bus, rd: Reader, m: Move)
    requires Ready(b, rd, m) && Settled(store, rd.id) && !rd.phase.Checked?
    requires rd.phase.Streaming? ==> rd.phase.ch < |b.chans| && HasTerminal(b.chans[rd.phase.ch].buf)
    ensures var next := Advance(store, b, rd, m);
            && !next.phase.Connected? && !next.phase.Checked? && next.id == rd.id
            && (next.phase.Streaming? ==> next.phase == rd.phase)
            && (next.phase.Streaming? && m.Forward? ==> !Terminal(b.chans[m.ch].buf[0].status))
  {
    hide FinalEvent;
  }

  lemma TailHasTerminal(evs: seq<Event>)
    requires HasTerminal(evs) && !Terminal(evs[0].status)
    ensures HasTerminal(evs[1..])
  {
    var i :| 0 <= i < |evs| && Terminal(evs[i].status);
    assert evs[1..][i - 1] == evs[i];
  }

  lemma ForwardLeaves(b: Buses.Bus, m: Move)
    requires m.Forward? && m.ch < |b.chans| && HasTerminal(b.chans[m.ch].buf) && !Terminal(b.chans[m.ch].buf[0].status)
    ensures m.ch < |NextBus(b, m).chans| && HasTerminal(NextBus(b, m).chans[m.ch].buf)
  {
    TailHasTerminal(b.chans[m.ch].buf);
  }

  lemma OthersForward(rs: map<nat, Reader>, b: Buses.Bus, m: Move, r: nat)
    requires ChannelsOk(b, rs) && Allowed(b, rs, m) && r in rs && !IsStepOf(m, r) && rs[r].phase.Streaming?
    ensures !(m.Forward? && m.ch == rs[r].phase.ch)
  {
    if m.Forward? {
      assert Channel(rs[r].phase) != Channel(rs[m.r].phase);
    }
  }

  lemma ProvidedStep(cfg: Pipeline.Config, ms: seq<Move>, m: Move, r: nat, id: string)
    requires Feasible(cfg, ms) && Can(Reached(cfg, ms), m) && Provided(Reached(cfg, ms), r, id)
    requires !Ending(m, id) && Settled(NextPipe(Reached(cfg, ms).pipe, m).store, id)
    ensures Provided(Next(Reached(cfg, ms), m), r, id)
  {
    hide Feasible, Reached, Pipeline.Enabled, Pipeline.Step, Buses.Apply, Buses.Inv, HasTerminal, Advance, Ending,
      NextBus, NextPipe;
    var s := Reached(cfg, ms);
    BusInv(cfg, ms);
    ChannelsInv(cfg, ms);
    if r in s.readers && s.readers[r].id == id {
      var rd := s.readers[r];
      if rd.phase.Streaming? {
        BufferStep(s.bus, m, rd.phase.ch);
      }
      if IsStepOf(m, r) {
        OwnProvidedStep(s.pipe.store, s.bus, rd, m);
        if m.Forward? && Advance(s.pipe.store, s.bus, rd, m).phase.Streaming? {
          ForwardLeaves(s.bus, m);
        }
      } else if rd.phase.Streaming? {
        OthersForward(s.readers, s.bus, m, r);
      }
    } else if r in s.readers && IsStepOf(m, r) {
      AdvanceIsLater(s.pipe.store, s.bus, s.readers[r], m);
    }
  }

  // ---- The exact condition ----------------------------------------------

  /** The system after the first i moves. */
  ghost function Moment(cfg: Pipeline.Config, ms: seq<Move>, i: nat): Sys
    requires Feasible(cfg, ms) && i <= |ms|
  {
    FeasiblePrefix(cfg, ms, i);
    Reached(cfg, ms[..i])
  }

  predicate Between(s: Sys, r: nat) { r in s.readers && s.readers[r].phase.Checked? }

  /** Whenever the record was terminal, up to the terminal event, the reader was
      between its store check and its subscription: it checked before the terminal
      save and subscribes after the terminal event. */
  ghost predicate SatOut(cfg: Pipeline.Config, ms: seq<Move>, p: nat, r: nat, id: string)
    requires Feasible(cfg, ms) && p <= |ms|
  {
    forall i :: 0 <= i <= p && Settled(Moment(cfg, ms, i).pipe.store, id) ==> Between(Moment(cfg, ms, i), r)
  }

  /** The reader was subscribed, and its channel could take nothing. */
  predicate Swamped(s: Sys, r: nat) {
    && r in s.readers && s.readers[r].phase.Streaming? && s.readers[r].phase.ch < |s.bus.chans|
    && (s.bus.closed || |s.bus.chans[s.readers[r].phase.ch].buf| >= Buses.CHANNEL_CAP)
  }

  lemma StepAt(cfg: Pipeline.Config, ms: seq<Move>, i: nat)
    requires Feasible(cfg, ms) && i < |ms|
    ensures Feasible(cfg, ms[..i]) && Feasible(cfg, ms[..i + 1])
    ensures Can(Reached(cfg, ms[..i]), ms[i])
    ensures Reached(cfg, ms[..i + 1]) == Next(Reached(cfg, ms[..i]), ms[i])
  {
    hide Can, Next;
    FeasiblePrefix(cfg, ms, i);
    FeasiblePrefix(cfg, ms, i + 1);
    assert ms[..i + 1][..i] == ms[..i];
  }

  /** Still waiting for its store check, or answered from the store: sent the
      record and gone, or gone because that write failed. */
  predicate FromStore(store: map<string, State>, rd: Reader) {
    Settled(store, rd.id) &&
    match rd.phase
    case Connected => rd.frames == []
    case Gone(Delivered) => rd.frames == [Data(FinalEvent(store[rd.id]))]
    case Gone(WriteFailed) => rd.frames == []
    case _ => false
  }

  lemma FromStoreStep(store: map<string, State>, b: Buses.Bus, rd: Reader, m: Move)
    requires FromStore(store, rd) && Ready(b, rd, m)
    ensures FromStore(store, Advance(store, b, rd, m))
  {
    hide FinalEvent;
  }

  lemma {:induction false} SettledLater(cfg: Pipeline.Config, ms: seq<Move>, i: nat, id: string)
    requires Feasible(cfg, ms) && i <= |ms| && Settled(Moment(cfg, ms, i).pipe.store, id)
    ensures Settled(Reached(cfg, ms).pipe.store, id)
  {
    hide Pipeline.Enabled, Pipeline.Step, Pipeline.Init, Next, Can, Settled;
    if i == |ms| {
      assert ms[..i] == ms;
    } else {
      var before := ms[..|ms| - 1];
      assert before[..i] == ms[..i];
      SettledLater(cfg, before, i, id);
      SettledStays(cfg, ms, id);
    }
  }

  /** Who connects or checks after the terminal save is answered from the store. */
  lemma {:induction false} LateComersAreTold(cfg: Pipeline.Config, ms: seq<Move>, i: nat, r: nat)
    requires Feasible(cfg, ms) && i <= |ms| && r in Reached(cfg, ms).readers
    requires var id := Reached(cfg, ms).readers[r].id;
             Settled(Moment(cfg, ms, i).pipe.store, id)
             && (r in Moment(cfg, ms, i).readers ==> Moment(cfg, ms, i).readers[r].phase.Connected?)
    ensures FromStore(Reached(cfg, ms).pipe.store, Reached(cfg, ms).readers[r])
  {
    hide Pipeline.Enabled, Pipeline.Step, Pipeline.Init, NextBus, Advance;
    if i == |ms| {
      assert ms[..i] == ms;
      FramesInv(cfg, ms, r);
    } else {
      var before, m := ms[..|ms| - 1], ms[|ms| - 1];
      assert before[..i] == ms[..i];
      var s, id := Reached(cfg, before), Reached(cfg, ms).readers[r].id;
      SettledLater(cfg, before, i, id);
      SettledStays(cfg, ms, id);
      if r in s.readers {
        ReadersMoveOn(cfg, ms, |before|, r);
        LateComersAreTold(cfg, before, i, r);
        if IsStepOf(m, r) {
          FromStoreStep(s.pipe.store, s.bus, s.readers[r], m);
        }
      }
    }
  }

  /** A reader that sits between check and subscription at the end of a run has
      sat there since before the terminal save. */
  lemma SatOutAll(cfg: Pipeline.Config, ms: seq<Move>, p: nat, r: nat, id: string)
    requires Feasible(cfg, ms) && p <= |ms|
    requires Between(Moment(cfg, ms, p), r) && Moment(cfg, ms, p).readers[r].id == id
    ensures SatOut(cfg, ms, p, r, id)
  {
    hide Feasible, Reached, Settled;
    forall i | 0 <= i <= p && Settled(Moment(cfg, ms, i).pipe.store, id)
      ensures Between(Moment(cfg, ms, i), r)
    {
      FeasiblePrefix(cfg, ms, p);
      FeasiblePrefix(cfg, ms, i);
      assert ms[..p][..i] == ms[..i];
      var s := Reached(cfg, ms[..i]);
      if r in s.readers && !s.readers[r].phase.Connected? {
        ReadersMoveOn(cfg, ms[..p], i, r);
      } else {
        LateComersAreTold(cfg, ms[..p], i, r);
        assert false;
      }
    }
  }

  lemma SavedBeforeEnding(cfg: Pipeline.Config, ms: seq<Move>, p: nat, id: string)
    requires Feasible(cfg, ms) && p < |ms| && Ending(ms[p], id)
    ensures Settled(Moment(cfg, ms, p).pipe.store, id)
    ensures ms[p].action.effect.event == LiveEvent(Moment(cfg, ms, p).pipe.store[id])
  {
    hide Feasible, Reached, Can, Next, Settled, LiveEvent;
    StepAt(cfg, ms, p);
    MoveIsLive(cfg, ms[..p], ms[p]);
  }

  lemma StillThere(cfg: Pipeline.Config, ms: seq<Move>, r: nat)
    requires Feasible(cfg, ms) && Hopeless(Reached(cfg, ms), r)
    ensures r in Reached(cfg, ms).readers
  {
    hide Feasible, Reached;
  }

  lemma {:induction false} HopelessFrom(cfg: Pipeline.Config, ms: seq<Move>, j: nat, r: nat, id: string)
    requires Feasible(cfg, ms) && j <= |ms| && (forall i :: j <= i < |ms| ==> !Ending(ms[i], id))
    requires Hopeless(Moment(cfg, ms, j), r) && Moment(cfg, ms, j).readers[r].id == id
    ensures Hopeless(Reached(cfg, ms), r) && Reached(cfg, ms).readers[r].id == id
  {
    hide Can, Next, Hopeless, Ending;
    if j == |ms| {
      assert ms[..j] == ms;
    } else {
      var before, m := ms[..|ms| - 1], ms[|ms| - 1];
      assert before[..j] == ms[..j];
      HopelessFrom(cfg, before, j, r, id);
      HopelessStep(cfg, before, m, r);
      StillThere(cfg, before, r);
      ReadersMoveOn(cfg, ms, |before|, r);
    }
  }

  lemma ProvidedIsSettled(s: Sys, r: nat, id: string)
    requires Provided(s, r, id)
    ensures Settled(s.pipe.store, id)
  {
  }

  lemma {:induction false} ProvidedFrom(cfg: Pipeline.Config, ms: seq<Move>, j: nat, r: nat, id: string)
    requires Feasible(cfg, ms) && j <= |ms| && (forall i :: j <= i < |ms| ==> !Ending(ms[i], id))
    requires Provided(Moment(cfg, ms, j), r, id)
    ensures Provided(Reached(cfg, ms), r, id)
  {
    hide Can, NextReaders, NextBus, NextPipe, Provided, Ending, Settled;
    if j == |ms| {
      assert ms[..j] == ms;
    } else {
      var before, m := ms[..|ms| - 1], ms[|ms| - 1];
      assert before[..j] == ms[..j];
      ProvidedFrom(cfg, before, j, r, id);
      ProvidedIsSettled(Reached(cfg, before), r, id);
      SettledStays(cfg, ms, id);
      ProvidedStep(cfg, before, m, r, id);
    }
  }

  lemma QuietAtEnding(cfg: Pipeline.Config, ms: seq<Move>, p: nat, c: nat, id: string)
    requires Feasible(cfg, ms) && p < |ms| && Ending(ms[p], id)
    requires c < |Moment(cfg, ms, p).bus.chans| && Moment(cfg, ms, p).bus.chans[c].topic == id
    ensures !HasTerminal(Moment(cfg, ms, p).bus.chans[c].buf)
  {
    hide Feasible, Reached, Ending, HasTerminal;
    FeasiblePrefix(cfg, ms, p);
    forall i | 0 <= i < p ensures !Ending(ms[i], id) {
      if Ending(ms[i], id) {
        EndsOnce(cfg, ms, i, p, id);
      }
    }
    QuietBefore(cfg, ms[..p], c, id);
  }

  lemma EndingIsBackend(m: Move, id: string)
    requires Ending(m, id)
    ensures m.Backend?
  {
  }

  /** What the ending does to a reader of its submission. */
  lemma EndingDivides(cfg: Pipeline.Config, ms: seq<Move>, p: nat, r: nat, id: string)
    requires Feasible(cfg, ms) && p < |ms| && Ending(ms[p], id)
    requires r in Moment(cfg, ms, p).readers && Moment(cfg, ms, p).readers[r].id == id
    ensures var s, t := Moment(cfg, ms, p), Moment(cfg, ms, p + 1);
            && t.readers == s.readers
            && (Between(s, r) || Swamped(s, r) ==> Hopeless(t, r))
            && (!Between(s, r) && !Swamped(s, r) && Settled(t.pipe.store, id) ==> Provided(t, r, id))
  {
    hide Feasible, Reached, Pipeline.Enabled, Pipeline.Step, NextBus, HasTerminal, Ending, Buses.Inv, Settled;
    StepAt(cfg, ms, p);
    EndingIsBackend(ms[p], id);
    BusInv(cfg, ms[..p]);
    ChannelsInv(cfg, ms[..p]);
    var s := Reached(cfg, ms[..p]);
    var ph := s.readers[r].phase;
    if ph.Streaming? {
      assert Channel(ph) == Some(ph.ch);
      QuietAtEnding(cfg, ms, p, ph.ch, id);
      EndingEnters(s.bus, ms[p], ph.ch, id);
    }
  }

  lemma StoreAfterEnding(cfg: Pipeline.Config, ms: seq<Move>, p: nat, id: string)
    requires Feasible(cfg, ms) && p < |ms| && Settled(Moment(cfg, ms, p).pipe.store, id)
    ensures Settled(Moment(cfg, ms, p + 1).pipe.store, id)
  {
    hide Feasible, Reached, Settled;
    FeasiblePrefix(cfg, ms, p + 1);
    assert ms[..p + 1][..p] == ms[..p];
    SettledStays(cfg, ms[..p + 1], id);
  }

  lemma AbsentIsProvided(cfg: Pipeline.Config, ms: seq<Move>, p: nat, r: nat, id: string)
    requires Feasible(cfg, ms) && p < |ms| && Ending(ms[p], id) && r !in Moment(cfg, ms, p).readers
    requires Settled(Moment(cfg, ms, p + 1).pipe.store, id)
    ensures Provided(Moment(cfg, ms, p + 1), r, id)
  {
    hide Feasible, Reached, Pipeline.Enabled, Pipeline.Step, NextBus, Ending, Settled;
    StepAt(cfg, ms, p);
    EndingIsBackend(ms[p], id);
  }

  /** The end of a submission and a client that asked for it, in any run: if the
      client sat out the window from terminal save to terminal event, or its
      channel was full or closed at that event, it is never sent a terminal frame;
      otherwise it has been sent one, or will find it in its channel or in the
      store, or its connection has ended. */
  lemma MissedExactly(cfg: Pipeline.Config, ms: seq<Move>, p: nat, r: nat, id: string)
    requires Feasible(cfg, ms) && p < |ms| && Ending(ms[p], id)
    requires r in Reached(cfg, ms).readers && Reached(cfg, ms).readers[r].id == id
    ensures SatOut(cfg, ms, p, r, id) || Swamped(Moment(cfg, ms, p), r) ==> Hopeless(Reached(cfg, ms), r)
    ensures !SatOut(cfg, ms, p, r, id) && !Swamped(Moment(cfg, ms, p), r) ==> Provided(Reached(cfg, ms), r, id)
  {
    hide Feasible, Reached, Ending, Settled, Hopeless, Provided;
    StepAt(cfg, ms, p);
    SavedBeforeEnding(cfg, ms, p, id);
    StoreAfterEnding(cfg, ms, p, id);
    forall i | p + 1 <= i < |ms| ensures !Ending(ms[i], id) {
      if Ending(ms[i], id) {
        EndsOnce(cfg, ms, i, p, id);
      }
    }
    var s := Moment(cfg, ms, p);
    if r in s.readers {
      ReadersMoveOn(cfg, ms, p, r);
      EndingDivides(cfg, ms, p, r, id);
      if Between(s, r) {
        SatOutAll(cfg, ms, p, r, id);
      }
      if Between(s, r) || Swamped(s, r) {
        HopelessFrom(cfg, ms, p + 1, r, id);
      } else {
        ProvidedFrom(cfg, ms, p + 1, r, id);
      }
    } else {
      AbsentIsProvided(cfg, ms, p, r, id);
      ProvidedFrom(cfg, ms, p + 1, r, id);
    }
  }

  lemma EndingEmits(m: Move, id: string)
    requires Ending(m, id)
    ensures m.Backend? && |PublishedBy(m, id)| == 1
  {
  }

  lemma EndingCounts(ms: seq<Move>, p: nat, id: string)
    requires p < |ms| && Ending(ms[p], id)
    ensures |Topics.TopicEvents(PipeOps(ms[p..]), id)| >= 1
  {
    hide Topics.TopicEvents, PipeOps, Topics.Emitted;
    var m, rest := ms[p], ms[p + 1..];
    assert ms[p..] == [m] + rest;
    OpsConcat([m], rest);
    OneOp(m);
    Topics.TopicConcat([m.action], PipeOps(rest), id);
    TopicStep([], m, id);
    assert [] + [m.action] == [m.action];
    EndingEmits(m, id);
  }

  /** With up to 30 tests no channel is full when the terminal event comes: only
      the window, or a closed bus, keeps it from a subscribed client. */
  lemma SmallJobsFindRoom(cfg: Pipeline.Config, ms: seq<Move>, p: nat, r: nat, id: string)
    requires Feasible(cfg, ms) && p < |ms| && Ending(ms[p], id) && Small(ms, id)
    requires r in Moment(cfg, ms, p).readers && Moment(cfg, ms, p).readers[r].id == id
    ensures Swamped(Moment(cfg, ms, p), r) <==>
              Moment(cfg, ms, p).readers[r].phase.Streaming? && Moment(cfg, ms, p).bus.closed
  {
    hide Feasible, Reached, Ending, Small, Topics.TopicEvents, PipeOps, BusOps;
    FeasiblePrefix(cfg, ms, p);
    ChannelsInv(cfg, ms[..p]);
    var s := Reached(cfg, ms[..p]);
    var ph := s.readers[r].phase;
    if ph.Streaming? {
      assert Channel(ph) == Some(ph.ch);
      RunsProject(cfg, ms[..p]);
      Buses.InboxWithin(BusOps(ms[..p]), ph.ch);
      PublishedIsTopic(ms[..p], id);
      SmallTopic(cfg, ms, p, id);
      EndingCounts(ms, p, id);
    }
  }

  // ---- The frame from the store, in full ---------------------------------

  /** Every field of the record that a frame has room for. */
  function StoredEvent(s: State): Event {
    Event(s.status, s.total, s.total, Some(s.verdict), None, s.compilation, s.wallMs, s.cpuMs, s.peakMB, s.error)
  }

  /** A reader that never subscribed: nothing was sent, or the stored record. */
  predicate Unsubscribed(store: map<string, State>, rd: Reader) {
    match rd.phase
    case Connected => rd.frames == []
    case Checked => rd.frames == []
    case Gone(WriteFailed) => rd.frames == []
    case Gone(Delivered) => Settled(store, rd.id) && rd.frames == [Data(StoredEvent(store[rd.id]))]
    case _ => false
  }

  lemma UnsubscribedStep(store: map<string, State>, b: Buses.Bus, rd: Reader, m: Move)
    requires Unsubscribed(store, rd) && Ready(b, rd, m) && !m.Attach?
    ensures Unsubscribed(store, Advance(store, b, rd, m))
  {
  }

  lemma UnsubscribedStays(store: map<string, State>, later: map<string, State>, rd: Reader)
    requires Unsubscribed(store, rd) && Persists(store, later)
    ensures Unsubscribed(later, rd)
  {
    hide StoredEvent;
  }

  lemma FreshIsUnsubscribed(store: map<string, State>, id: string)
    ensures Unsubscribed(store, Reader(id, Connected, []))
  {
  }

  /** In every run a client that was answered without a subscription was sent exactly
      one frame, and it shows the stored record field by field. */
  lemma {:induction false} StoreAnswersInFull(cfg: Pipeline.Config, ms: seq<Move>, r: nat)
    requires Feasible(cfg, ms) && r in Reached(cfg, ms).readers && !Attached(ms, r)
    ensures Unsubscribed(Reached(cfg, ms).pipe.store, Reached(cfg, ms).readers[r])
  {
    hide Pipeline.Enabled, Pipeline.Step, Pipeline.Init, NextBus, Advance, Unsubscribed, Persists, Attached;
    var before, m := ms[..|ms| - 1], ms[|ms| - 1];
    var s := Reached(cfg, before);
    StorePersists(cfg, ms);
    AttachedExtends(ms, r);
    if r in s.readers {
      StoreAnswersInFull(cfg, before, r);
      if IsStepOf(m, r) {
        UnsubscribedStep(s.pipe.store, s.bus, s.readers[r], m);
      }
      UnsubscribedStays(s.pipe.store, Reached(cfg, ms).pipe.store, Reached(cfg, ms).readers[r]);
    } else {
      FreshIsUnsubscribed(Reached(cfg, ms).pipe.store, m.id);
    }
  }
}
