/** Publish below the level of one step: it holds the read lock of
    pkg/events/memory_bus.go while it sends to one channel after the other, so
    the fan-outs of several publishers interleave; Subscribe, cleanup and Close
    take the write lock. */
module Fanouts {
  import opened Models
  import Buses

  /** A Publish under way: the channels it has not reached yet. */
  datatype Flight = Flight(topic: string, event: Event, rest: seq<nat>)

  datatype Fan = Fan(bus: Buses.Bus, flights: map<nat, Flight>)

  datatype Step =
    | Begin(p: nat, topic: string, event: Event)            // RLock, look up the list
    | Send(p: nat, c: nat, topic: string, event: Event)     // one select of the loop
    | End(p: nat)                                           // RUnlock
    | Locked(op: Buses.Op)                                  // Subscribe, cleanup or Close
    | Take(c: nat)                                          // a subscriber receives

  predicate Can(f: Fan, s: Step) {
    match s
    case Begin(p, _, _) => p !in f.flights
    case Send(p, c, t, e) => p in f.flights && f.flights[p].rest != []
      && f.flights[p] == Flight(t, e, [c] + f.flights[p].rest[1..])
    case End(p) => p in f.flights && f.flights[p].rest == []
    case Locked(op) => f.flights == map[] && (op.Subscribe? || op.Cleanup? || op.Close?)
    case Take(_) => true
  }

  /** One send; a channel that does not exist receives nothing. */
  function SendTo(b: Buses.Bus, c: nat, e: Event): Buses.Bus {
    if c < |b.chans| then b.(chans := b.chans[c := Buses.Offer(b.chans[c], e)]) else b
  }

  function Next(f: Fan, s: Step): Fan
    requires Can(f, s)
  {
    match s
    case Begin(p, t, e) =>
      f.(flights := f.flights[p := Flight(t, e, if f.bus.closed then [] else Buses.Subscribers(f.bus, t))])
    case Send(p, c, t, e) => Fan(SendTo(f.bus, c, e), f.flights[p := Flight(t, e, f.flights[p].rest[1..])])
    case End(p) => f.(flights := f.flights - {p})
    case Locked(op) => f.(bus := Buses.Apply(f.bus, op))
    case Take(c) => f.(bus := Buses.Apply(f.bus, Buses.Receive(c)))
  }

  function Play(steps: seq<Step>): Option<Fan> {
    if steps == [] then Some(Fan(Buses.EMPTY, map[]))
    else match Play(steps[..|steps| - 1])
      case None => None
      case Some(f) => if Can(f, steps[|steps| - 1]) then Some(Next(f, steps[|steps| - 1])) else None
  }

  predicate Feasible(steps: seq<Step>) { Play(steps).Some? }

  function Reached(steps: seq<Step>): Fan
    requires Feasible(steps)
  {
    Play(steps).value
  }

  // ---- Sends are safe ----------------------------------------------------

  /** What a flight has still to reach is the end of its topic's list, on an open bus. */
  ghost predicate FlightOk(b: Buses.Bus, fl: Flight) {
    fl.rest == [] ||
    (!b.closed && |fl.rest| <= |Buses.Subscribers(b, fl.topic)|
     && fl.rest == Buses.Subscribers(b, fl.topic)[|Buses.Subscribers(b, fl.topic)| - |fl.rest|..])
  }

  ghost predicate Inv(f: Fan) {
    Buses.Inv(f.bus) && forall p :: p in f.flights ==> FlightOk(f.bus, f.flights[p])
  }

  lemma SendKeepsInv(b: Buses.Bus, c: nat, e: Event)
    requires Buses.Inv(b)
    ensures Buses.Inv(SendTo(b, c, e))
  {
    var r := SendTo(b, c, e);
    forall d | 0 <= d < |r.chans| ensures Buses.GoodChan(r, d) {
      assert Buses.GoodChan(b, d);
    }
    forall t ensures Buses.GoodTopic(r, t) {
      assert Buses.GoodTopic(b, t);
    }
  }

  /** Sends and receives leave the lists alone. */
  lemma ListsStay(f: Fan, s: Step)
    requires Can(f, s) && !s.Locked?
    ensures Next(f, s).bus.subs == f.bus.subs && Next(f, s).bus.closed == f.bus.closed
  {
  }

  lemma StepKeepsInv(f: Fan, s: Step)
    requires Inv(f) && Can(f, s)
    ensures Inv(Next(f, s))
  {
    hide Buses.Inv, Buses.Apply;
    match s {
      case Send(_, c, _, e) => SendKeepsInv(f.bus, c, e);
      case Locked(op) => Buses.ApplyKeepsInv(f.bus, op);
      case Take(c) => Buses.ApplyKeepsInv(f.bus, Buses.Receive(c));
      case _ =>
    }
    if !s.Locked? {
      ListsStay(f, s);
    }
  }

  lemma {:induction false} RunKeepsInv(steps: seq<Step>)
    requires Feasible(steps)
    ensures Inv(Reached(steps))
  {
    if steps == [] {
      Buses.RunKeepsInv([]);
    } else {
      RunKeepsInv(steps[..|steps| - 1]);
      StepKeepsInv(Reached(steps[..|steps| - 1]), steps[|steps| - 1]);
    }
  }

  /** However fan-outs interleave, every send goes to an open channel of its topic,
      which its flight has not reached before and will not reach again. */
  lemma SendsAreSafe(steps: seq<Step>, p: nat, c: nat, topic: string, event: Event)
    requires Feasible(steps) && Can(Reached(steps), Send(p, c, topic, event))
    ensures var f := Reached(steps);
            && c < |f.bus.chans| && f.bus.chans[c].topic == topic && f.bus.chans[c].closes == 0
            && c in Buses.Subscribers(f.bus, topic) && !f.bus.closed
            && c !in Next(f, Send(p, c, topic, event)).flights[p].rest
  {
    hide Feasible, Reached;
    RunKeepsInv(steps);
    var f := Reached(steps);
    assert FlightOk(f.bus, f.flights[p]) && Buses.GoodTopic(f.bus, topic);
    var all, rest := Buses.Subscribers(f.bus, topic), f.flights[p].rest;
    assert rest[0] == ([c] + rest[1..])[0] == c;
    assert c == all[|all| - |rest|] && c in Buses.Subscribers(f.bus, topic);
    var tail := rest[1..];
    forall i | 0 <= i < |tail| ensures tail[i] != c {
      assert tail[i] == all[|all| - |rest| + 1 + i];
    }
  }

  // ---- Each channel sees one order ---------------------------------------

  /** The operations as channel c sees them: a publication happens when it
      reaches c. */
  function Seen(s: Step, c: nat): seq<Buses.Op> {
    match s
    case Send(_, d, t, e) => if d == c then [Buses.Publish(t, e)] else []
    case Locked(op) => [op]
    case Take(d) => [Buses.Receive(d)]
    case _ => []
  }

  function View(steps: seq<Step>, c: nat): seq<Buses.Op> {
    if steps == [] then [] else View(steps[..|steps| - 1], c) + Seen(steps[|steps| - 1], c)
  }

  /** Two buses that differ in what channels other than c hold. */
  ghost predicate AlikeFor(b: Buses.Bus, v: Buses.Bus, c: nat) {
    && b.subs == v.subs && b.closed == v.closed && |b.chans| == |v.chans|
    && (forall d :: 0 <= d < |b.chans| ==> b.chans[d] == v.chans[d].(buf := b.chans[d].buf))
    && (c < |b.chans| ==> b.chans[c] == v.chans[c])
  }

  lemma AlikeApply(b: Buses.Bus, v: Buses.Bus, c: nat, op: Buses.Op)
    requires AlikeFor(b, v, c) && !op.Publish?
    ensures AlikeFor(Buses.Apply(b, op), Buses.Apply(v, op), c)
  {
    forall d | 0 <= d < |b.chans| ensures Buses.Registered(b, d) == Buses.Registered(v, d) {
      assert b.chans[d].topic == v.chans[d].topic;
    }
  }

  lemma AlikeSend(b: Buses.Bus, v: Buses.Bus, c: nat, topic: string, e: Event)
    requires AlikeFor(b, v, c) && c < |b.chans| && !b.closed && c in Buses.Subscribers(b, topic)
    ensures AlikeFor(SendTo(b, c, e), Buses.Apply(v, Buses.Publish(topic, e)), c)
  {
  }

  lemma AlikeAtStart(c: nat)
    ensures AlikeFor(Buses.EMPTY, Buses.Run([]), c)
  {
  }

  lemma AlikeOther(b: Buses.Bus, v: Buses.Bus, c: nat, d: nat, e: Event)
    requires AlikeFor(b, v, c) && d != c
    ensures AlikeFor(SendTo(b, d, e), v, c)
  {
  }

  lemma AlikeStep(steps: seq<Step>, s: Step, c: nat)
    requires Feasible(steps) && Can(Reached(steps), s) && AlikeFor(Reached(steps).bus, Buses.Run(View(steps, c)), c)
    ensures AlikeFor(Next(Reached(steps), s).bus, Buses.Run(View(steps, c) + Seen(s, c)), c)
  {
    hide Buses.Apply, AlikeFor, Buses.Run, Feasible, Reached;
    var f, ops := Reached(steps), View(steps, c);
    match s {
      case Send(p, d, t, e) =>
        SendsAreSafe(steps, p, d, t, e);
        if d == c {
          Buses.RunStep(ops, Buses.Publish(t, e));
          AlikeSend(f.bus, Buses.Run(ops), c, t, e);
        } else {
          assert ops + [] == ops;
          AlikeOther(f.bus, Buses.Run(ops), c, d, e);
        }
      case Locked(op) =>
        Buses.RunStep(ops, op);
        AlikeApply(f.bus, Buses.Run(ops), c, op);
      case Take(d) =>
        Buses.RunStep(ops, Buses.Receive(d));
        AlikeApply(f.bus, Buses.Run(ops), c, Buses.Receive(d));
      case _ => assert ops + [] == ops;
    }
  }

  /** One order for all: whatever happens to channel c under interleaved fan-outs
      is what happens to it when each Publish is one step, taken when it reaches c. */
  lemma {:induction false} ChannelsSeeOneOrder(steps: seq<Step>, c: nat)
    requires Feasible(steps)
    ensures AlikeFor(Reached(steps).bus, Buses.Run(View(steps, c)), c)
  {
    hide Buses.Apply, AlikeFor, Buses.Run;
    if steps == [] {
      AlikeAtStart(c);
    } else {
      var before, s := steps[..|steps| - 1], steps[|steps| - 1];
      var b, v := Reached(before).bus, Buses.Run(View(before, c));
      ChannelsSeeOneOrder(before, c);
      AlikeStep(before, s, c);
    }
  }

  // ---- Each publisher keeps its order ------------------------------------

  /** What publisher p publishes on a topic, and what of it reaches channel c. */
  function BegunBy(s: Step, p: nat, topic: string): seq<Event> {
    if s.Begin? && s.p == p && s.topic == topic then [s.event] else []
  }

  function SentBy(s: Step, p: nat, c: nat): seq<Event> {
    if s.Send? && s.p == p && s.c == c then [s.event] else []
  }

  function Begun(steps: seq<Step>, p: nat, topic: string): seq<Event> {
    if steps == [] then [] else Begun(steps[..|steps| - 1], p, topic) + BegunBy(steps[|steps| - 1], p, topic)
  }

  function Sent(steps: seq<Step>, p: nat, c: nat): seq<Event> {
    if steps == [] then [] else Sent(steps[..|steps| - 1], p, c) + SentBy(steps[|steps| - 1], p, c)
  }

  /** The event p's flight has still to bring to c. */
  function Due(f: Fan, p: nat, c: nat): seq<Event> {
    if p in f.flights && c in f.flights[p].rest then [f.flights[p].event] else []
  }

  /** What has reached c, and is about to, against what was published. */
  ghost predicate InOrder(f: Fan, p: nat, c: nat, topic: string, sent: seq<Event>, begun: seq<Event>) {
    && c < |f.bus.chans| && f.bus.chans[c].topic == topic
    && Buses.Subsequence(sent + Due(f, p, c), begun)
    && (!f.bus.closed && !f.bus.chans[c].cleaned ==> sent + Due(f, p, c) == begun)
  }

  /** One step brings in what it begins and takes out what it sends. */
  lemma DueStep(steps: seq<Step>, s: Step, p: nat, c: nat, topic: string)
    requires Feasible(steps) && Can(Reached(steps), s)
    requires c < |Reached(steps).bus.chans| && Reached(steps).bus.chans[c].topic == topic
    ensures var f := Reached(steps);
            var due := SentBy(s, p, c) + Due(Next(f, s), p, c);
            && (due == Due(f, p, c) || (due == Due(f, p, c) + BegunBy(s, p, topic)))
            && (!f.bus.closed && !f.bus.chans[c].cleaned ==> due == Due(f, p, c) + BegunBy(s, p, topic))
  {
    hide Feasible, Reached;
    RunKeepsInv(steps);
    var f := Reached(steps);
    match s {
      case Send(q, d, t, e) => SendsAreSafe(steps, q, d, t, e);
      case Begin(q, t, e) =>
        assert Buses.GoodTopic(f.bus, t) && Buses.GoodChan(f.bus, c);
      case _ =>
    }
  }

  lemma ChanStays(f: Fan, s: Step, c: nat)
    requires Inv(f) && Can(f, s) && c < |f.bus.chans|
    ensures c < |Next(f, s).bus.chans| && Next(f, s).bus.chans[c].topic == f.bus.chans[c].topic
    ensures !Next(f, s).bus.closed && !Next(f, s).bus.chans[c].cleaned ==> !f.bus.closed && !f.bus.chans[c].cleaned
  {
    hide Buses.Inv, Buses.Apply;
    match s {
      case Locked(op) =>
        Buses.ChanStep(f.bus, op, c);
        Buses.StaysOpen(f.bus, op, c);
      case Take(d) =>
        Buses.ChanStep(f.bus, Buses.Receive(d), c);
        Buses.StaysOpen(f.bus, Buses.Receive(d), c);
      case _ =>
    }
  }

  lemma OrderExtends(a: seq<Event>, b: seq<Event>, s: Step, p: nat, topic: string)
    requires Buses.Subsequence(a, b)
    ensures var extra := BegunBy(s, p, topic);
            Buses.Subsequence(a, b + extra) && Buses.Subsequence(a + extra, b + extra)
  {
    var extra := BegunBy(s, p, topic);
    if extra == [] {
      assert b + extra == b && a + extra == a;
    } else {
      Buses.SubsequenceExtends(a, b, extra[0]);
    }
  }

  lemma OrderStep(steps: seq<Step>, s: Step, p: nat, c: nat, topic: string, sent: seq<Event>, begun: seq<Event>)
    requires Feasible(steps) && Can(Reached(steps), s) && InOrder(Reached(steps), p, c, topic, sent, begun)
    ensures InOrder(Next(Reached(steps), s), p, c, topic, sent + SentBy(s, p, c), begun + BegunBy(s, p, topic))
  {
    hide Feasible, Reached, Can, Next, Due, SentBy, BegunBy, Inv, Buses.Subsequence;
    var f := Reached(steps);
    RunKeepsInv(steps);
    ChanStays(f, s, c);
    DueStep(steps, s, p, c, topic);
    var extra, now := BegunBy(s, p, topic), SentBy(s, p, c) + Due(Next(f, s), p, c);
    assert sent + SentBy(s, p, c) + Due(Next(f, s), p, c) == sent + now;
    OrderExtends(sent + Due(f, p, c), begun, s, p, topic);
    assert sent + (Due(f, p, c) + extra) == sent + Due(f, p, c) + extra;
  }

  lemma PlayStep(steps: seq<Step>, s: Step)
    requires Feasible(steps + [s])
    ensures Feasible(steps) && Can(Reached(steps), s) && Reached(steps + [s]) == Next(Reached(steps), s)
  {
    hide Can, Next;
    assert (steps + [s])[..|steps|] == steps;
  }

  lemma FreshOrder(before: seq<Step>, topic: string, p: nat)
    requires Feasible(before + [Locked(Buses.Subscribe(topic))])
    ensures Feasible(before)
    ensures InOrder(Reached(before + [Locked(Buses.Subscribe(topic))]), p, |Reached(before).bus.chans|, topic, [], [])
  {
    hide Feasible, Reached;
    PlayStep(before, Locked(Buses.Subscribe(topic)));
  }

  /** Whatever interleaves after a subscription: of each publisher the subscriber
      is sent an in-order subsequence, and while it is subscribed to an open bus
      everything, up to the one event that is on its way. */
  lemma {:induction false} PublishersKeepTheirOrder(before: seq<Step>, topic: string, after: seq<Step>, p: nat)
    requires Feasible(before + [Locked(Buses.Subscribe(topic))] + after)
    ensures Feasible(before)
    ensures var c := |Reached(before).bus.chans|;
            InOrder(Reached(before + [Locked(Buses.Subscribe(topic))] + after), p, c, topic,
                    Sent(after, p, c), Begun(after, p, topic))
  {
    hide Feasible, Reached, Can, Next, InOrder;
    var start := before + [Locked(Buses.Subscribe(topic))];
    if after == [] {
      assert start + after == start;
      FreshOrder(before, topic, p);
    } else {
      var n := |after| - 1;
      assert start + after == start + after[..n] + [after[n]];
      PlayStep(start + after[..n], after[n]);
      PublishersKeepTheirOrder(before, topic, after[..n], p);
      var c := |Reached(before).bus.chans|;
      OrderStep(start + after[..n], after[n], p, c, topic, Sent(after[..n], p, c), Begun(after[..n], p, topic));
    }
  }

  // ---- Delivery ----------------------------------------------------------

  /** The order in which publications reach c. */
  function Arrivals(steps: seq<Step>, c: nat): seq<Event> {
    if steps == [] then []
    else Arrivals(steps[..|steps| - 1], c)
         + if steps[|steps| - 1].Send? && steps[|steps| - 1].c == c then [steps[|steps| - 1].event] else []
  }

  lemma {:induction false} ViewConcat(a: seq<Step>, b: seq<Step>, c: nat)
    ensures View(a + b, c) == View(a, c) + View(b, c)
  {
    hide Seen;
    if b == [] {
      assert a + b == a;
    } else {
      var n := |b| - 1;
      assert (a + b)[..|a + b| - 1] == a + b[..n];
      ViewConcat(a, b[..n], c);
    }
  }

  lemma PublishedSeen(ops: seq<Buses.Op>, s: Step, c: nat, topic: string)
    requires s.Send? && s.c == c ==> s.topic == topic
    requires s.Locked? ==> !s.op.Publish?
    ensures Buses.Published(ops + Seen(s, c), topic)
         == Buses.Published(ops, topic) + if s.Send? && s.c == c then [s.event] else []
  {
    if Seen(s, c) == [] {
      assert ops + [] == ops;
    } else {
      assert (ops + Seen(s, c))[..|ops|] == ops;
    }
  }

  lemma ArrivalStep(steps: seq<Step>, s: Step, c: nat, topic: string, ops: seq<Buses.Op>)
    requires Feasible(steps) && Can(Reached(steps), s)
    requires c < |Reached(steps).bus.chans| && Reached(steps).bus.chans[c].topic == topic
    ensures c < |Next(Reached(steps), s).bus.chans| && Next(Reached(steps), s).bus.chans[c].topic == topic
    ensures Buses.Published(ops + Seen(s, c), topic)
         == Buses.Published(ops, topic) + if s.Send? && s.c == c then [s.event] else []
  {
    hide Feasible, Reached, Next, Inv, Buses.Published, Seen;
    RunKeepsInv(steps);
    ChanStays(Reached(steps), s, c);
    if s.Send? {
      SendsAreSafe(steps, s.p, s.c, s.topic, s.event);
    }
    PublishedSeen(ops, s, c, topic);
  }

  lemma NothingPublished(topic: string)
    ensures Buses.Published([], topic) == []
  {
  }

  /** Every arrival at c is on c's topic. */
  lemma {:induction false} ArrivalsArePublished(start: seq<Step>, after: seq<Step>, c: nat, topic: string)
    requires Feasible(start + after) && Feasible(start)
    requires c < |Reached(start).bus.chans| && Reached(start).bus.chans[c].topic == topic
    ensures c < |Reached(start + after).bus.chans| && Reached(start + after).bus.chans[c].topic == topic
    ensures Buses.Published(View(after, c), topic) == Arrivals(after, c)
  {
    hide Feasible, Reached, Can, Next, Seen, Buses.Published;
    if after == [] {
      assert start + after == start;
      NothingPublished(topic);
    } else {
      var n := |after| - 1;
      var mid, s := start + after[..n], after[n];
      assert start + after == mid + [s];
      PlayStep(mid, s);
      ArrivalsArePublished(start, after[..n], c, topic);
      ArrivalStep(mid, s, c, topic, View(after[..n], c));
    }
  }

  lemma ViewOfSubscribe(before: seq<Step>, topic: string, c: nat)
    ensures View(before + [Locked(Buses.Subscribe(topic))], c) == View(before, c) + [Buses.Subscribe(topic)]
  {
    assert (before + [Locked(Buses.Subscribe(topic))])[..|before|] == before;
  }

  lemma {:induction false} FeasibleStart(start: seq<Step>, after: seq<Step>)
    requires Feasible(start + after)
    ensures Feasible(start)
  {
    hide Can, Next, Feasible;
    if after == [] {
      assert start + after == start;
    } else {
      var n := |after| - 1;
      assert start + after == start + after[..n] + [after[n]];
      PlayStep(start + after[..n], after[n]);
      FeasibleStart(start, after[..n]);
    }
  }

  /** Delivery under interleaved fan-outs: what a subscriber receives, and what
      waits for it, is an in-order subsequence of what reaches its channel, and all
      of it up to 64 events while it is subscribed to an open bus. */
  lemma InterleavedDelivery(before: seq<Step>, topic: string, after: seq<Step>)
    requires Feasible(before + [Locked(Buses.Subscribe(topic))] + after)
    ensures Feasible(before)
    ensures var f := Reached(before + [Locked(Buses.Subscribe(topic))] + after);
            var c := |Reached(before).bus.chans|;
            var taken := Buses.Taken(View(before + [Locked(Buses.Subscribe(topic))] + after, c), c);
            && c < |f.bus.chans|
            && Buses.Subsequence(taken + f.bus.chans[c].buf, Arrivals(after, c))
            && (|Arrivals(after, c)| <= Buses.CHANNEL_CAP && !f.bus.closed && !f.bus.chans[c].cleaned ==>
                  taken + f.bus.chans[c].buf == Arrivals(after, c))
  {
    hide Feasible, Reached, Can, Next, Inv, Buses.Subsequence, Buses.Run, Buses.Apply, View;
    var sub := Locked(Buses.Subscribe(topic));
    var start := before + [sub];
    FeasibleStart(start, after);
    PlayStep(before, sub);
    FreshOrder(before, topic, 0);
    var c := |Reached(before).bus.chans|;
    ArrivalsArePublished(start, after, c, topic);
    ViewConcat(start, after, c);
    ViewOfSubscribe(before, topic, c);
    ChannelsSeeOneOrder(before, c);
    ChannelsSeeOneOrder(start + after, c);
    Buses.Delivery(View(before, c), topic, View(after, c));
  }

  // ---- What is received of each publisher --------------------------------

  /** An event in a channel, and who sent it. */
  datatype Copy = Copy(p: nat, event: Event)

  /** What a step puts into channel c: nothing if the channel is full. */
  function Puts(f: Fan, s: Step, c: nat): seq<Copy> {
    if s.Send? && s.c == c && c < |f.bus.chans| && |f.bus.chans[c].buf| < Buses.CHANNEL_CAP
    then [Copy(s.p, s.event)] else []
  }

  /** Everything that was put into channel c. */
  function Kept(steps: seq<Step>, c: nat): seq<Copy>
    requires Feasible(steps)
  {
    if steps == [] then []
    else Kept(steps[..|steps| - 1], c) + Puts(Reached(steps[..|steps| - 1]), steps[|steps| - 1], c)
  }

  function Contents(copies: seq<Copy>): seq<Event> {
    if copies == [] then [] else Contents(copies[..|copies| - 1]) + [copies[|copies| - 1].event]
  }

  /** The events of one publisher among them. */
  function Of(copies: seq<Copy>, p: nat): seq<Event> {
    if copies == [] then []
    else Of(copies[..|copies| - 1], p) + if copies[|copies| - 1].p == p then [copies[|copies| - 1].event] else []
  }

  lemma OneMoreCopy(copies: seq<Copy>, more: seq<Copy>, p: nat)
    requires |more| <= 1
    ensures Contents(copies + more) == Contents(copies) + if more == [] then [] else [more[0].event]
    ensures Of(copies + more, p) == Of(copies, p) + if more != [] && more[0].p == p then [more[0].event] else []
  {
    if more == [] {
      assert copies + more == copies;
    } else {
      assert (copies + more)[..|copies|] == copies;
    }
  }

  lemma StartsEmpty()
    ensures Feasible([]) && Reached([]).bus.chans == []
  {
  }

  lemma SameChannels(steps: seq<Step>, c: nat)
    requires Feasible(steps)
    ensures |Buses.Run(View(steps, c)).chans| == |Reached(steps).bus.chans|
    ensures c < |Reached(steps).bus.chans| ==> Buses.Run(View(steps, c)).chans[c] == Reached(steps).bus.chans[c]
  {
    hide Feasible, Reached, Buses.Run;
    ChannelsSeeOneOrder(steps, c);
  }

  lemma InboxMoves(steps: seq<Step>, s: Step, c: nat)
    requires Feasible(steps) && Can(Reached(steps), s) && c < |Reached(steps).bus.chans|
    requires c < |Buses.Run(View(steps, c)).chans|
    ensures c < |Buses.Run(View(steps, c) + Seen(s, c)).chans|
    ensures var put := Puts(Reached(steps), s, c);
            Buses.Inbox(View(steps, c) + Seen(s, c), c)
            == Buses.Inbox(View(steps, c), c) + if put == [] then [] else [put[0].event]
  {
    hide Feasible, Reached, Buses.Run, Buses.Inbox, Next;
    var ops, seen := View(steps, c), Seen(s, c);
    ChannelsSeeOneOrder(steps, c);
    if s.Send? {
      SendsAreSafe(steps, s.p, s.c, s.topic, s.event);
    }
    if seen == [] {
      assert ops + seen == ops;
    } else {
      Buses.InboxStep(ops, seen[0], c);
    }
  }

  lemma MoreChannels(steps: seq<Step>, s: Step)
    requires Feasible(steps) && Can(Reached(steps), s)
    ensures |Reached(steps).bus.chans| <= |Next(Reached(steps), s).bus.chans|
  {
    hide Feasible, Reached;
  }

  lemma {:induction false} KeptBeforeBirth(steps: seq<Step>, c: nat)
    requires Feasible(steps) && c >= |Reached(steps).bus.chans|
    ensures Kept(steps, c) == [] && forall p :: Sent(steps, p, c) == []
  {
    hide Can, Next, Feasible, Reached;
    if steps != [] {
      var before, s := steps[..|steps| - 1], steps[|steps| - 1];
      assert steps == before + [s];
      PlayStep(before, s);
      MoreChannels(before, s);
      KeptBeforeBirth(before, c);
      if s.Send? {
        SendsAreSafe(before, s.p, s.c, s.topic, s.event);
      }
    }
  }

  lemma BornWithout(steps: seq<Step>, s: Step, c: nat)
    requires Feasible(steps) && Can(Reached(steps), s)
    requires |Reached(steps).bus.chans| <= c < |Next(Reached(steps), s).bus.chans|
    requires c < |Buses.Run(View(steps, c) + Seen(s, c)).chans|
    ensures Buses.Inbox(View(steps, c) + Seen(s, c), c) == [] && Puts(Reached(steps), s, c) == []
    ensures Contents([]) == []
  {
    hide Feasible, Reached, Buses.Run;
    var ops := View(steps, c);
    SameChannels(steps, c);
    assert s.Locked?;
    Buses.RunStep(ops, s.op);
    Buses.BornEmpty(Buses.Run(ops), s.op, c);
    Buses.TakenStep(ops, s.op, c);
    Buses.TakenBeforeBirth(ops, c);
  }

  /** What was put into a channel is what its subscriber has received, followed by
      what waits. */
  lemma {:induction false} KeptIsInbox(steps: seq<Step>, c: nat)
    requires Feasible(steps) && c < |Reached(steps).bus.chans|
    ensures c < |Buses.Run(View(steps, c)).chans| && Buses.Inbox(View(steps, c), c) == Contents(Kept(steps, c))
  {
    hide Can, Next, Feasible, Reached, Contents, Buses.Inbox, Buses.Run, AlikeFor;
    SameChannels(steps, c);
    if steps == [] {
      StartsEmpty();
    } else {
      var before, s := steps[..|steps| - 1], steps[|steps| - 1];
      assert steps == before + [s];
      PlayStep(before, s);
      OneMoreCopy(Kept(before, c), Puts(Reached(before), s, c), 0);
      if c < |Reached(before).bus.chans| {
        KeptIsInbox(before, c);
        InboxMoves(before, s, c);
      } else {
        KeptBeforeBirth(before, c);
        BornWithout(before, s, c);
      }
    }
  }

  lemma NothingKept(p: nat)
    ensures Of([], p) == [] && Buses.Subsequence([], [])
  {
  }

  /** A step puts what it sends, or drops it. */
  lemma PutOrDropped(f: Fan, s: Step, c: nat, p: nat)
    ensures var put, sent := Puts(f, s, c), SentBy(s, p, c);
            && |put| <= (if s.Send? && s.c == c then 1 else 0)
            && (put != [] ==> sent == if put[0].p == p then [put[0].event] else [])
            && (!(s.Send? && s.c == c) ==> sent == []) && |sent| <= 1
  {
  }

  lemma StaysSubsequence(a: seq<Event>, b: seq<Event>, put: seq<Copy>, sent: seq<Event>, p: nat)
    requires Buses.Subsequence(a, b) && |put| <= 1 && |sent| <= 1
    requires put != [] ==> sent == if put[0].p == p then [put[0].event] else []
    ensures Buses.Subsequence(a + if put != [] && put[0].p == p then [put[0].event] else [], b + sent)
  {
    hide Buses.Subsequence;
    if sent == [] {
      assert a + [] == a && b + sent == b;
    } else {
      Buses.SubsequenceExtends(a, b, sent[0]);
      assert a + [] == a && b + sent == b + [sent[0]];
    }
  }

  /** Of what is sent, a full channel drops some and keeps the order. */
  lemma {:induction false} KeptOfSent(steps: seq<Step>, c: nat, p: nat)
    requires Feasible(steps)
    ensures Buses.Subsequence(Of(Kept(steps, c), p), Sent(steps, p, c))
    ensures |Kept(steps, c)| <= |Arrivals(steps, c)|
    ensures |Kept(steps, c)| == |Arrivals(steps, c)| ==> Of(Kept(steps, c), p) == Sent(steps, p, c)
  {
    hide Can, Next, Feasible, Reached, Puts, SentBy, Of, Buses.Subsequence;
    if steps == [] {
      NothingKept(p);
    } else {
      var before, s := steps[..|steps| - 1], steps[|steps| - 1];
      assert steps == before + [s];
      PlayStep(before, s);
      KeptOfSent(before, c, p);
      PutOrDropped(Reached(before), s, c, p);
      var put := Puts(Reached(before), s, c);
      OneMoreCopy(Kept(before, c), put, p);
      StaysSubsequence(Of(Kept(before, c), p), Sent(before, p, c), put, SentBy(s, p, c), p);
    }
  }

  lemma {:induction false} SentConcat(a: seq<Step>, b: seq<Step>, p: nat, c: nat)
    ensures Sent(a + b, p, c) == Sent(a, p, c) + Sent(b, p, c)
  {
    hide SentBy;
    if b == [] {
      assert a + b == a;
    } else {
      var n := |b| - 1;
      assert (a + b)[..|a + b| - 1] == a + b[..n];
      SentConcat(a, b[..n], p, c);
    }
  }

  lemma {:induction false} ArrivalsConcat(a: seq<Step>, b: seq<Step>, c: nat)
    ensures Arrivals(a + b, c) == Arrivals(a, c) + Arrivals(b, c)
  {
    if b == [] {
      assert a + b == a;
    } else {
      var n := |b| - 1;
      assert (a + b)[..|a + b| - 1] == a + b[..n];
      ArrivalsConcat(a, b[..n], c);
    }
  }

  lemma {:induction false} NoArrivalsBeforeBirth(steps: seq<Step>, c: nat)
    requires Feasible(steps) && c >= |Reached(steps).bus.chans|
    ensures Arrivals(steps, c) == []
  {
    hide Can, Next, Feasible, Reached;
    if steps != [] {
      var before, s := steps[..|steps| - 1], steps[|steps| - 1];
      assert steps == before + [s];
      PlayStep(before, s);
      MoreChannels(before, s);
      NoArrivalsBeforeBirth(before, c);
      if s.Send? {
        SendsAreSafe(before, s.p, s.c, s.topic, s.event);
      }
    }
  }

  lemma NoneAtBirth(before: seq<Step>, topic: string, p: nat, c: nat)
    requires Feasible(before) && c == |Reached(before).bus.chans|
    ensures Sent(before + [Locked(Buses.Subscribe(topic))], p, c) == []
    ensures Arrivals(before + [Locked(Buses.Subscribe(topic))], c) == []
  {
    hide Feasible, Reached;
    KeptBeforeBirth(before, c);
    NoArrivalsBeforeBirth(before, c);
    assert (before + [Locked(Buses.Subscribe(topic))])[..|before|] == before;
  }

  /** Whatever interleaves after a subscription, what a subscriber has received or
      has waiting is, publisher by publisher, an in-order subsequence of what that
      publisher published; and it is all of it, up to the one event on its way,
      while the subscriber is subscribed to an open bus and nothing was dropped. */
  lemma ReceivedInOrder(before: seq<Step>, topic: string, after: seq<Step>, p: nat)
    requires Feasible(before + [Locked(Buses.Subscribe(topic))] + after)
    ensures Feasible(before)
    ensures var all, c := before + [Locked(Buses.Subscribe(topic))] + after, |Reached(before).bus.chans|;
            var f, kept := Reached(all), Kept(all, c);
            && c < |f.bus.chans| && c < |Buses.Run(View(all, c)).chans|
            && Buses.Inbox(View(all, c), c) == Contents(kept)
            && Buses.Subsequence(Of(kept, p), Begun(after, p, topic))
            && (!f.bus.closed && !f.bus.chans[c].cleaned && |kept| == |Arrivals(after, c)| ==>
                  Of(kept, p) + Due(f, p, c) == Begun(after, p, topic))
  {
    hide Feasible, Reached, Can, Next, Buses.Run, Buses.Inbox, Buses.Subsequence, Kept, Sent, Begun, Due, View, Of,
      Contents;
    var sub := Locked(Buses.Subscribe(topic));
    PublishersKeepTheirOrder(before, topic, after, p);
    var all, c := before + [sub] + after, |Reached(before).bus.chans|;
    KeptIsInbox(all, c);
    KeptOfSent(all, c, p);
    KeptBeforeBirth(before, c);
    NoneAtBirth(before, topic, p, c);
    SentConcat(before + [sub], after, p, c);
    ArrivalsConcat(before + [sub], after, c);
    assert Sent(all, p, c) == Sent(after, p, c) && Arrivals(all, c) == Arrivals(after, c);
    var f := Reached(all);
    Buses.PrefixOfSubsequence(Sent(after, p, c), Sent(after, p, c) + Due(f, p, c), Begun(after, p, topic));
    Buses.SubsequenceTransitive(Of(Kept(all, c), p), Sent(after, p, c), Begun(after, p, topic));
  }
}
