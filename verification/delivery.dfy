/** Which events reach which WebSocket client, over every run of the whole
    system. */
module Delivery {
  import opened Models
  import opened Worker
  import opened Outcomes
  import opened Gateway
  import opened Clients
  import Pipeline
  import Topics
  import Buses

  // ---- What a client is sent is what its channel delivers ---------------

  function DataOf(frames: seq<Frame>): seq<Event> {
    if frames == [] then []
    else DataOf(frames[..|frames| - 1])
         + if frames[|frames| - 1].Data? then [frames[|frames| - 1].event] else []
  }

  lemma DataExtends(frames: seq<Frame>, f: Frame)
    ensures DataOf(frames + [f]) == DataOf(frames) + if f.Data? then [f.event] else []
  {
    assert (frames + [f])[..|frames|] == frames;
  }

  /** The event a move takes out of channel c. */
  function Takes(b: Buses.Bus, m: Move, c: nat): seq<Event> {
    if m.Forward? && m.ch == c && c < |b.chans| && b.chans[c].buf != [] then [b.chans[c].buf[0]] else []
  }

  lemma LastOp(ms: seq<Move>)
    requires ms != []
    ensures var before, m := ms[..|ms| - 1], ms[|ms| - 1];
            BusOps(ms) == BusOps(before) + if BusOp(m).Some? then [BusOp(m).value] else []
  {
  }

  lemma TakenMove(ms: seq<Move>, c: nat)
    requires ms != []
    ensures var before, m := ms[..|ms| - 1], ms[|ms| - 1];
            Buses.Taken(BusOps(ms), c) == Buses.Taken(BusOps(before), c) + Takes(Buses.Run(BusOps(before)), m, c)
  {
    hide Buses.Run, Buses.Apply, Buses.Taken, BusOps;
    var before, m := ms[..|ms| - 1], ms[|ms| - 1];
    LastOp(ms);
    if BusOp(m).Some? {
      Buses.TakenStep(BusOps(before), BusOp(m).value, c);
    } else {
      assert BusOps(before) + [] == BusOps(before);
    }
  }

  /** What a reader's own move writes is what it takes from its channel. */
  lemma OwnReads(store: map<string, State>, b: Buses.Bus, rd: Reader, m: Move)
    requires Ready(b, rd, m) && (rd.phase.Streaming? || rd.phase.Closing?)
    ensures var next := Advance(store, b, rd, m);
            next.phase.Streaming? || next.phase.Closing? ==>
              Channel(next.phase) == Channel(rd.phase)
              && DataOf(next.frames) == DataOf(rd.frames) + Takes(b, m, rd.phase.ch)
  {
    hide FinalEvent;
    if m.Forward? {
      DataExtends(rd.frames, Data(b.chans[m.ch].buf[0]));
    } else if m.Beat? {
      DataExtends(rd.frames, Ping);
    }
  }

  predicate Active(s: Sys, r: nat) {
    r in s.readers && (s.readers[r].phase.Streaming? || s.readers[r].phase.Closing?)
  }

  lemma AttachReads(cfg: Pipeline.Config, ms: seq<Move>, r: nat)
    requires Feasible(cfg, ms) && r in Reached(cfg, ms).readers && Reached(cfg, ms).readers[r].phase.Checked?
    ensures DataOf(Reached(cfg, ms).readers[r].frames) == []
    ensures Buses.Taken(BusOps(ms), |Reached(cfg, ms).bus.chans|) == []
  {
    hide Feasible, Reached;
    FramesInv(cfg, ms, r);
    RunsProject(cfg, ms);
    Buses.TakenBeforeBirth(BusOps(ms), |Reached(cfg, ms).bus.chans|);
  }

  lemma OthersTakeNothing(cfg: Pipeline.Config, ms: seq<Move>, m: Move, r: nat)
    requires Feasible(cfg, ms) && Can(Reached(cfg, ms), m) && Active(Reached(cfg, ms), r) && !IsStepOf(m, r)
    ensures Takes(Reached(cfg, ms).bus, m, Reached(cfg, ms).readers[r].phase.ch) == []
  {
    hide Feasible, Reached, Pipeline.Enabled;
    ChannelsInv(cfg, ms);
    var s := Reached(cfg, ms);
    if m.Forward? {
      assert Channel(s.readers[r].phase) != Channel(s.readers[m.r].phase);
    }
  }

  lemma {:induction false} ReadsAreTaken(cfg: Pipeline.Config, ms: seq<Move>, r: nat)
    requires Feasible(cfg, ms) && Active(Reached(cfg, ms), r)
    ensures var rd := Reached(cfg, ms).readers[r];
            DataOf(rd.frames) == Buses.Taken(BusOps(ms), rd.phase.ch)
  {
    hide Pipeline.Enabled, Pipeline.Step, Pipeline.Init, Buses.Apply, Buses.Run, Buses.Taken, DataOf, BusOps;
    var before, m := ms[..|ms| - 1], ms[|ms| - 1];
    var s := Reached(cfg, before);
    var c := Reached(cfg, ms).readers[r].phase.ch;
    RunsProject(cfg, before);
    TakenMove(ms, c);
    if m.Attach? && m.r == r {
      AttachReads(cfg, before, r);
    } else {
      ReadsAreTaken(cfg, before, r);
      if IsStepOf(m, r) {
        OwnReads(s.pipe.store, s.bus, s.readers[r], m);
      } else {
        OthersTakeNothing(cfg, before, m, r);
        assert DataOf(s.readers[r].frames) + [] == DataOf(s.readers[r].frames);
      }
    }
  }

  // ---- How a reader moves on --------------------------------------------

  function Rank(ph: Phase): nat {
    match ph
    case Connected => 1
    case Checked => 2
    case Streaming(_) => 3
    case Closing(_) => 4
    case Leaving(_, _) => 5
    case Gone(_) => 6
  }

  /** The reader, some time later. */
  predicate Later(a: Reader, b: Reader) {
    && a.id == b.id && Rank(a.phase) <= Rank(b.phase)
    && (Channel(a.phase).Some? ==> b.phase.Gone? || Channel(b.phase) == Channel(a.phase))
    && a.frames <= b.frames
  }

  lemma AdvanceIsLater(store: map<string, State>, b: Buses.Bus, rd: Reader, m: Move)
    requires Ready(b, rd, m)
    ensures Later(rd, Advance(store, b, rd, m))
  {
    hide FinalEvent;
  }

  /** A reader only moves on: it keeps its submission and its channel, and what
      was sent stays sent. */
  lemma {:induction false} ReadersMoveOn(cfg: Pipeline.Config, ms: seq<Move>, j: nat, r: nat)
    requires Feasible(cfg, ms) && j <= |ms| && Feasible(cfg, ms[..j]) && r in Reached(cfg, ms[..j]).readers
    ensures r in Reached(cfg, ms).readers
    ensures Later(Reached(cfg, ms[..j]).readers[r], Reached(cfg, ms).readers[r])
  {
    hide Pipeline.Enabled, Pipeline.Step, Pipeline.Init, Advance, NextBus;
    if j == |ms| {
      assert ms[..j] == ms;
    } else {
      var before, m := ms[..|ms| - 1], ms[|ms| - 1];
      assert before[..j] == ms[..j];
      ReadersMoveOn(cfg, before, j, r);
      var s := Reached(cfg, before);
      if IsStepOf(m, r) {
        AdvanceIsLater(s.pipe.store, s.bus, s.readers[r], m);
      }
    }
  }

  // ---- Streams -----------------------------------------------------------

  lemma AttachGivesChannel(cfg: Pipeline.Config, ms: seq<Move>, q: nat, r: nat, id: string)
    requires Feasible(cfg, ms) && q < |ms| && ms[q] == Attach(r, id) && Active(Reached(cfg, ms), r)
    ensures Feasible(cfg, ms[..q])
    ensures Reached(cfg, ms).readers[r].phase.ch == |Reached(cfg, ms[..q]).bus.chans|
  {
    hide Pipeline.Enabled, Pipeline.Step, Pipeline.Init, NextBus;
    FeasiblePrefix(cfg, ms, q + 1);
    assert ms[..q + 1][..q] == ms[..q];
    FeasiblePrefix(cfg, ms, q);
    ReadersMoveOn(cfg, ms, q + 1, r);
  }

  /** What a client in its loop has been sent, or will find in its channel. */
  function Feed(s: Sys, r: nat): seq<Event>
    requires Active(s, r) && s.readers[r].phase.ch < |s.bus.chans|
  {
    DataOf(s.readers[r].frames) + s.bus.chans[s.readers[r].phase.ch].buf
  }

  /** What is published on a submission after the q-th move. */
  function SentSince(ms: seq<Move>, q: nat, id: string): seq<Event>
    requires q < |ms|
  {
    Topics.TopicEvents(PipeOps(ms[q + 1..]), id)
  }

  lemma OneOp(m: Move)
    ensures BusOps([m]) == if BusOp(m).Some? then [BusOp(m).value] else []
    ensures PipeOps([m]) == if m.Backend? then [m.action] else []
  {
    assert [m][..0] == [];
  }

  lemma SplitOps(ms: seq<Move>, q: nat, r: nat, id: string)
    requires q < |ms| && ms[q] == Attach(r, id)
    ensures BusOps(ms) == BusOps(ms[..q]) + [Buses.Subscribe(id)] + BusOps(ms[q + 1..])
  {
    hide BusOps, PipeOps;
    assert ms == ms[..q] + [ms[q]] + ms[q + 1..];
    OpsConcat(ms[..q] + [ms[q]], ms[q + 1..]);
    OpsConcat(ms[..q], [ms[q]]);
    OneOp(ms[q]);
  }

  lemma StreamInLoop(cfg: Pipeline.Config, ms: seq<Move>, q: nat, r: nat, id: string)
    requires Feasible(cfg, ms) && q < |ms| && ms[q] == Attach(r, id) && Active(Reached(cfg, ms), r)
    ensures var s, sent := Reached(cfg, ms), SentSince(ms, q, id);
            && s.readers[r].phase.ch < |s.bus.chans|
            && Buses.Subsequence(Feed(s, r), sent)
            && (|sent| <= Buses.CHANNEL_CAP && !s.bus.closed ==> Feed(s, r) == sent)
  {
    hide Feasible, Reached, Buses.Run, Buses.Subsequence;
    RunsProject(cfg, ms);
    AttachGivesChannel(cfg, ms, q, r, id);
    RunsProject(cfg, ms[..q]);
    SplitOps(ms, q, r, id);
    Buses.Delivery(BusOps(ms[..q]), id, BusOps(ms[q + 1..]));
    PublishedIsTopic(ms[q + 1..], id);
    ReadsAreTaken(cfg, ms, r);
    ChannelsInv(cfg, ms);
  }

  /** Out of the loop nothing but the close frame is sent. */
  lemma OutOfLoop(store: map<string, State>, b: Buses.Bus, rd: Reader, m: Move)
    requires Ready(b, rd, m) && Rank(rd.phase) >= 3
    ensures var next := Advance(store, b, rd, m);
            Rank(next.phase) >= 3 && (Rank(next.phase) >= 5 ==> DataOf(next.frames) == DataOf(rd.frames))
  {
    hide FinalEvent, DataOf;
    if m.SayClose? {
      DataExtends(rd.frames, CloseFrame);
    }
  }

  lemma SentGrows(ms: seq<Move>, q: nat, id: string)
    requires q < |ms| - 1
    ensures SentSince(ms[..|ms| - 1], q, id) <= SentSince(ms, q, id)
  {
    var n := |ms| - 1;
    assert ms[q + 1..] == ms[..n][q + 1..] + [ms[n]];
    OpsConcat(ms[..n][q + 1..], [ms[n]]);
    Topics.TopicConcat(PipeOps(ms[..n][q + 1..]), PipeOps([ms[n]]), id);
  }

  /** A client that has subscribed, whether it is still in its loop or has left. */
  ghost predicate Served(s: Sys, r: nat, sent: seq<Event>) {
    && r in s.readers && Rank(s.readers[r].phase) >= 3
    && Buses.Subsequence(DataOf(s.readers[r].frames), sent)
    && (|sent| <= Buses.CHANNEL_CAP && !s.bus.closed ==> DataOf(s.readers[r].frames) <= sent)
  }

  lemma ServedInLoop(cfg: Pipeline.Config, ms: seq<Move>, q: nat, r: nat, id: string)
    requires Feasible(cfg, ms) && q < |ms| && ms[q] == Attach(r, id) && Active(Reached(cfg, ms), r)
    ensures Served(Reached(cfg, ms), r, SentSince(ms, q, id))
  {
    hide Feasible, Reached, Buses.Subsequence, SentSince, DataOf;
    StreamInLoop(cfg, ms, q, r, id);
    Buses.PrefixOfSubsequence(DataOf(Reached(cfg, ms).readers[r].frames), Feed(Reached(cfg, ms), r),
      SentSince(ms, q, id));
  }

  lemma {:induction false} SubsequenceOfMore(a: seq<Event>, b: seq<Event>, more: seq<Event>)
    requires Buses.Subsequence(a, b) && b <= more
    ensures Buses.Subsequence(a, more)
  {
    if b != more {
      SubsequenceOfMore(a, b, more[..|more| - 1]);
    }
  }

  lemma ServedLater(s: Sys, t: Sys, r: nat, sent: seq<Event>, more: seq<Event>)
    requires Served(s, r, sent) && sent <= more && (s.bus.closed ==> t.bus.closed)
    requires r in t.readers && Rank(t.readers[r].phase) >= 3
      && DataOf(t.readers[r].frames) == DataOf(s.readers[r].frames)
    ensures Served(t, r, more)
  {
    hide DataOf;
    SubsequenceOfMore(DataOf(s.readers[r].frames), sent, more);
  }

  lemma ClosedStays(b: Buses.Bus, m: Move)
    ensures b.closed ==> NextBus(b, m).closed
  {
  }

  lemma AttachIsActive(cfg: Pipeline.Config, ms: seq<Move>, r: nat, id: string)
    requires Feasible(cfg, ms) && ms != [] && ms[|ms| - 1] == Attach(r, id)
    ensures Active(Reached(cfg, ms), r)
  {
    hide Pipeline.Enabled, Pipeline.Step, Pipeline.Init, NextBus;
  }

  lemma LeftLoop(cfg: Pipeline.Config, ms: seq<Move>, q: nat, r: nat, id: string)
    requires Feasible(cfg, ms) && q < |ms| - 1 && !Active(Reached(cfg, ms), r)
    requires Served(Reached(cfg, ms[..|ms| - 1]), r, SentSince(ms[..|ms| - 1], q, id))
    ensures Served(Reached(cfg, ms), r, SentSince(ms, q, id))
  {
    hide Pipeline.Enabled, Pipeline.Step, Pipeline.Init, Advance, NextBus, SentSince, DataOf, Buses.Subsequence;
    var before, m := ms[..|ms| - 1], ms[|ms| - 1];
    var s, t := Reached(cfg, before), Reached(cfg, ms);
    SentGrows(ms, q, id);
    ClosedStays(s.bus, m);
    if IsStepOf(m, r) {
      OutOfLoop(s.pipe.store, s.bus, s.readers[r], m);
    }
    ServedLater(s, t, r, SentSince(before, q, id), SentSince(ms, q, id));
  }

  /** In every run the events sent to a client are an in-order subsequence of what
      is published on its submission after it subscribed, whatever became of the
      client; on an open bus, up to 64 events, they are a prefix of it, and all of
      it together with what waits in its channel while it is in its loop. */
  lemma {:induction false} StreamIsFaithful(cfg: Pipeline.Config, ms: seq<Move>, q: nat, r: nat, id: string)
    requires Feasible(cfg, ms) && q < |ms| && ms[q] == Attach(r, id)
    ensures Served(Reached(cfg, ms), r, SentSince(ms, q, id))
    ensures var s, sent := Reached(cfg, ms), SentSince(ms, q, id);
            Active(s, r) && |sent| <= Buses.CHANNEL_CAP && !s.bus.closed ==>
              s.readers[r].phase.ch < |s.bus.chans| && Feed(s, r) == sent
  {
    hide Pipeline.Enabled, Pipeline.Step, Pipeline.Init, Advance, NextBus, Served, SentSince, Feed;
    var before, m := ms[..|ms| - 1], ms[|ms| - 1];
    var s, t := Reached(cfg, before), Reached(cfg, ms);
    if Active(t, r) {
      StreamInLoop(cfg, ms, q, r, id);
      ServedInLoop(cfg, ms, q, r, id);
    } else if q == |before| {
      AttachIsActive(cfg, ms, r, id);
    } else {
      StreamIsFaithful(cfg, before, q, r, id);
      LeftLoop(cfg, ms, q, r, id);
    }
  }

  /** A job whose whole topic fits a channel: up to 30 tests. */
  ghost predicate Small(ms: seq<Move>, id: string) {
    exists h, job :: Pipeline.SaveQueued(h, job) in PipeOps(ms) && job.id == id
                     && 2 * |Tests(job)| + 4 <= 64
  }

  lemma SmallTopic(cfg: Pipeline.Config, ms: seq<Move>, k: nat, id: string)
    requires Feasible(cfg, ms) && Small(ms, id) && k <= |ms|
    ensures |Topics.TopicEvents(PipeOps(ms), id)| <= Buses.CHANNEL_CAP
    ensures |Topics.TopicEvents(PipeOps(ms[..k]), id)| + |Topics.TopicEvents(PipeOps(ms[k..]), id)| <= Buses.CHANNEL_CAP
  {
    hide Feasible, Topics.TopicEvents, PipeOps, Tests;
    RunsProject(cfg, ms);
    var h, job :| Pipeline.SaveQueued(h, job) in PipeOps(ms) && job.id == id
      && 2 * |Tests(job)| + 4 <= 64;
    Topics.TopicIsShort(cfg, PipeOps(ms), h, job);
    OpsConcat(ms[..k], ms[k..]);
    assert ms[..k] + ms[k..] == ms;
    Topics.TopicConcat(PipeOps(ms[..k]), PipeOps(ms[k..]), id);
  }

  /** With up to 30 tests a subscriber on an open bus loses nothing, however slowly
      it reads: what it was sent is all that was published since it subscribed, up
      to what waits in its channel, or up to where it left. */
  lemma SmallStreamsAreComplete(cfg: Pipeline.Config, ms: seq<Move>, q: nat, r: nat, id: string)
    requires Feasible(cfg, ms) && q < |ms| && ms[q] == Attach(r, id)
    requires Small(ms, id) && !Reached(cfg, ms).bus.closed
    ensures var s, sent := Reached(cfg, ms), SentSince(ms, q, id);
            && r in s.readers && DataOf(s.readers[r].frames) <= sent
            && (Active(s, r) ==> s.readers[r].phase.ch < |s.bus.chans| && Feed(s, r) == sent)
  {
    hide Feasible, Reached, Small, Topics.TopicEvents, PipeOps, Feed, DataOf, Buses.Subsequence;
    StreamIsFaithful(cfg, ms, q, r, id);
    SmallTopic(cfg, ms, q + 1, id);
  }
}
