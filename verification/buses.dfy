/** MemoryEventBus (pkg/events/memory_bus.go) as a value: topics, channels with
    bounded buffers, and how often each channel has been closed. */
module Buses {
  import opened Models

  const CHANNEL_CAP := 64

  /** A subscriber's channel.  `closes` counts the calls of close(ch): the second
      one panics.  `cleaned` says that its cleanup function has run. */
  datatype Chan = Chan(topic: string, buf: seq<Event>, closes: nat, cleaned: bool)

  /** Channels are numbered in the order of their creation. */
  datatype Bus = Bus(subs: map<string, seq<nat>>, chans: seq<Chan>, closed: bool)

  const EMPTY := Bus(map[], [], false)

  datatype Op =
    | Publish(topic: string, event: Event)
    | Subscribe(topic: string)
    | Receive(chan: nat)
    | Cleanup(chan: nat)
    | Close

  function Subscribers(b: Bus, topic: string): seq<nat> {
    if topic in b.subs then b.subs[topic] else []
  }

  /** A non-blocking send: a full channel drops the event. */
  function Offer(c: Chan, e: Event): Chan {
    if |c.buf| < CHANNEL_CAP then c.(buf := c.buf + [e]) else c
  }

  function Without(s: seq<nat>, c: nat): seq<nat> {
    if s == [] then []
    else Without(s[..|s| - 1], c) + if s[|s| - 1] == c then [] else [s[|s| - 1]]
  }

  function Register(subs: map<string, seq<nat>>, topic: string, s: seq<nat>): map<string, seq<nat>> {
    if s == [] then subs - {topic} else subs[topic := s]
  }

  predicate Registered(b: Bus, c: nat) {
    c < |b.chans| && c in Subscribers(b, b.chans[c].topic)
  }

  function Apply(b: Bus, op: Op): (r: Bus)
    ensures |b.chans| <= |r.chans|
  {
    match op
    case Publish(t, e) =>
      if b.closed then b
      else b.(chans := seq(|b.chans|, c requires 0 <= c < |b.chans| =>
                if c in Subscribers(b, t) then Offer(b.chans[c], e) else b.chans[c]))
    case Subscribe(t) =>
      b.(chans := b.chans + [Chan(t, [], 0, false)],
         subs := b.subs[t := Subscribers(b, t) + [|b.chans|]])
    case Receive(c) =>
      if c < |b.chans| && b.chans[c].buf != [] then
        b.(chans := b.chans[c := b.chans[c].(buf := b.chans[c].buf[1..])])
      else b
    case Cleanup(c) =>
      if c < |b.chans| && !b.chans[c].cleaned then
        var t := b.chans[c].topic;
        b.(chans := b.chans[c := b.chans[c].(closes := b.chans[c].closes + 1, cleaned := true)],
           subs := Register(b.subs, t, Without(Subscribers(b, t), c)))
      else b
    case Close =>
      if b.closed then b
      else Bus(map[],
               seq(|b.chans|, c requires 0 <= c < |b.chans| =>
                 if Registered(b, c) then b.chans[c].(closes := b.chans[c].closes + 1) else b.chans[c]),
               true)
  }

  function Run(ops: seq<Op>): Bus {
    if ops == [] then EMPTY else Apply(Run(ops[..|ops| - 1]), ops[|ops| - 1])
  }

  // ---- Registration ------------------------------------------------------

  ghost predicate Distinct(s: seq<nat>) {
    forall i, j :: 0 <= i < j < |s| ==> s[i] != s[j]
  }

  /** A topic lists existing channels of that topic, each once, each open. */
  ghost predicate GoodTopic(b: Bus, t: string) {
    && Distinct(Subscribers(b, t))
    && forall c :: c in Subscribers(b, t) ==>
         c < |b.chans| && b.chans[c].topic == t && b.chans[c].closes == 0 && !b.chans[c].cleaned
  }

  /** The life of a channel: registered while neither cleaned nor closed. */
  ghost predicate GoodChan(b: Bus, c: nat)
    requires c < |b.chans|
  {
    var ch := b.chans[c];
    && |ch.buf| <= CHANNEL_CAP
    && (Registered(b, c) <==> ch.closes == 0)
    && (ch.cleaned ==> ch.closes >= 1)
    && (ch.closes >= 1 && !ch.cleaned ==> b.closed && ch.closes == 1)
    && (ch.closes >= 2 ==> b.closed && ch.closes == 2)
  }

  ghost predicate Inv(b: Bus) {
    && (forall t :: t in b.subs ==> b.subs[t] != [])
    && (forall t :: GoodTopic(b, t))
    && (forall c :: 0 <= c < |b.chans| ==> GoodChan(b, c))
  }

  lemma {:induction false} WithoutMembers(s: seq<nat>, c: nat)
    requires Distinct(s)
    ensures Distinct(Without(s, c))
    ensures forall d :: d in Without(s, c) <==> d in s && d != c
  {
    if s != [] {
      var n := |s| - 1;
      WithoutMembers(s[..n], c);
      assert s == s[..n] + [s[n]];
      assert s[n] !in s[..n];
    }
  }

  lemma {:induction false} WithoutAbsent(s: seq<nat>, c: nat)
    requires c !in s
    ensures Without(s, c) == s
  {
    if s != [] {
      var n := |s| - 1;
      assert s == s[..n] + [s[n]];
      WithoutAbsent(s[..n], c);
    }
  }

  /** Removing a listed channel keeps the others in their order. */
  lemma {:induction false} WithoutKeepsOrder(s: seq<nat>, i: nat)
    requires Distinct(s) && i < |s|
    ensures Without(s, s[i]) == s[..i] + s[i + 1..]
  {
    var n := |s| - 1;
    if i == n {
      WithoutAbsent(s[..n], s[n]);
      assert s[..n] + s[n + 1..] == s[..n];
    } else {
      WithoutKeepsOrder(s[..n], i);
      assert s[..n][..i] == s[..i] && s[..n][i + 1..] + [s[n]] == s[i + 1..];
    }
  }

  lemma PublishKeepsInv(b: Bus, op: Op)
    requires Inv(b) && op.Publish?
    ensures Inv(Apply(b, op))
  {
    var r := Apply(b, op);
    forall c | 0 <= c < |r.chans| ensures GoodChan(r, c) {
      assert GoodChan(b, c);
    }
    forall t ensures GoodTopic(r, t) {
      assert GoodTopic(b, t);
    }
  }

  lemma ReceiveKeepsInv(b: Bus, op: Op)
    requires Inv(b) && op.Receive?
    ensures Inv(Apply(b, op))
  {
    var r := Apply(b, op);
    forall c | 0 <= c < |r.chans| ensures GoodChan(r, c) {
      assert GoodChan(b, c);
    }
    forall t ensures GoodTopic(r, t) {
      assert GoodTopic(b, t);
    }
  }

  lemma SubscribeKeepsInv(b: Bus, op: Op)
    requires Inv(b) && op.Subscribe?
    ensures Inv(Apply(b, op))
  {
    var r := Apply(b, op);
    forall t ensures GoodTopic(r, t) {
      assert GoodTopic(b, t);
      if t == op.topic {
        var s := Subscribers(b, t);
        assert Subscribers(r, t) == s + [|b.chans|];
        assert forall i :: 0 <= i < |s| ==> s[i] in s;
      }
    }
    forall c | 0 <= c < |r.chans| ensures GoodChan(r, c) {
      if c < |b.chans| {
        assert GoodChan(b, c);
        assert Registered(r, c) <==> Registered(b, c);
      } else {
        assert r.subs[op.topic][|Subscribers(b, op.topic)|] == c;
      }
    }
  }

  lemma CleanupKeepsInv(b: Bus, op: Op)
    requires Inv(b) && op.Cleanup?
    ensures Inv(Apply(b, op))
  {
    var r := Apply(b, op);
    if r != b {
      var t := b.chans[op.chan].topic;
      assert GoodTopic(b, t);
      WithoutMembers(Subscribers(b, t), op.chan);
      forall u ensures GoodTopic(r, u) {
        assert GoodTopic(b, u);
      }
      forall c | 0 <= c < |r.chans| ensures GoodChan(r, c) {
        assert GoodChan(b, c);
      }
    }
  }

  lemma CloseKeepsInv(b: Bus)
    requires Inv(b)
    ensures Inv(Apply(b, Close))
  {
    var r := Apply(b, Close);
    forall c | 0 <= c < |r.chans| ensures GoodChan(r, c) {
      assert GoodChan(b, c);
    }
    forall t ensures GoodTopic(r, t) {
      assert GoodTopic(b, t);
    }
  }

  lemma ApplyKeepsInv(b: Bus, op: Op)
    requires Inv(b)
    ensures Inv(Apply(b, op))
  {
    match op {
      case Publish(_, _) => PublishKeepsInv(b, op);
      case Subscribe(_) => SubscribeKeepsInv(b, op);
      case Receive(_) => ReceiveKeepsInv(b, op);
      case Cleanup(_) => CleanupKeepsInv(b, op);
      case Close => CloseKeepsInv(b);
    }
  }

  lemma {:induction false} RunKeepsInv(ops: seq<Op>)
    ensures Inv(Run(ops))
  {
    if ops != [] {
      RunKeepsInv(ops[..|ops| - 1]);
      ApplyKeepsInv(Run(ops[..|ops| - 1]), ops[|ops| - 1]);
    }
  }

  /** In every run, whatever topic is published next, the channels it would send
      to are open and listed once, so no send panics or is repeated. */
  lemma PublishIsSafe(ops: seq<Op>, topic: string)
    ensures var b := Run(ops);
            && Distinct(Subscribers(b, topic))
            && forall c :: c in Subscribers(b, topic) ==>
                 c < |b.chans| && b.chans[c].topic == topic && b.chans[c].closes == 0
  {
    RunKeepsInv(ops);
    assert GoodTopic(Run(ops), topic);
  }

  /** r is s without its one occurrence of c, if it has any. */
  ghost predicate RemovesOnly(s: seq<nat>, c: nat, r: seq<nat>) {
    if c in s then exists i :: 0 <= i < |s| && s[i] == c && r == s[..i] + s[i + 1..] else r == s
  }

  lemma RemoveOne(s: seq<nat>, c: nat)
    requires Distinct(s)
    ensures RemovesOnly(s, c, Without(s, c))
  {
    if c in s {
      var i :| 0 <= i < |s| && s[i] == c;
      WithoutKeepsOrder(s, i);
    } else {
      WithoutAbsent(s, c);
    }
  }

  lemma CleanupRemoves(b: Bus, c: nat)
    requires Inv(b) && c < |b.chans|
    ensures var r := Apply(b, Cleanup(c));
            && Apply(r, Cleanup(c)) == r
            && (forall t :: t != b.chans[c].topic ==> Subscribers(r, t) == Subscribers(b, t))
            && RemovesOnly(Subscribers(b, b.chans[c].topic), c, Subscribers(r, b.chans[c].topic))
  {
    hide RemovesOnly, Without;
    assert GoodTopic(b, b.chans[c].topic) && GoodChan(b, c);
    RemoveOne(Subscribers(b, b.chans[c].topic), c);
    if b.chans[c].cleaned {
      WithoutAbsent(Subscribers(b, b.chans[c].topic), c);
    }
  }

  /** A first cleanup removes exactly its own channel and keeps the order of the
      others; every later cleanup of the same channel does nothing. */
  lemma CleanupRemovesItself(ops: seq<Op>, c: nat)
    requires c < |Run(ops).chans|
    ensures var b := Run(ops);
            var r := Apply(b, Cleanup(c));
            && Apply(r, Cleanup(c)) == r
            && (forall t :: t != b.chans[c].topic ==> Subscribers(r, t) == Subscribers(b, t))
            && RemovesOnly(Subscribers(b, b.chans[c].topic), c, Subscribers(r, b.chans[c].topic))
  {
    hide Run, Inv;
    RunKeepsInv(ops);
    CleanupRemoves(Run(ops), c);
  }

  // ---- Closing -----------------------------------------------------------

  ghost predicate CloseHits(ops: seq<Op>, c: nat, j: nat)
    requires j < |ops|
  {
    var b := Run(ops[..j]);
    ops[j].Close? && !b.closed && c < |b.chans| && !b.chans[c].cleaned
  }

  /** Close ran, for the first time, while the channel was subscribed. */
  ghost predicate ClosedByBus(ops: seq<Op>, c: nat) {
    exists j :: 0 <= j < |ops| && CloseHits(ops, c, j)
  }

  lemma HitsExtend(ops: seq<Op>, op: Op, c: nat)
    ensures ClosedByBus(ops + [op], c) <==> ClosedByBus(ops, c) || CloseHits(ops + [op], c, |ops|)
  {
    var more := ops + [op];
    forall j | 0 <= j < |ops| ensures CloseHits(more, c, j) <==> CloseHits(ops, c, j) {
      assert more[..j] == ops[..j];
    }
  }

  lemma {:induction false} ChannelsGrow(ops: seq<Op>, j: nat)
    requires j <= |ops|
    ensures |Run(ops[..j]).chans| <= |Run(ops).chans|
  {
    if j == |ops| {
      assert ops[..j] == ops;
    } else {
      ChannelsGrow(ops[..|ops| - 1], j);
      assert ops[..|ops| - 1][..j] == ops[..j];
    }
  }

  lemma NotYetClosed(ops: seq<Op>, c: nat)
    requires c >= |Run(ops).chans|
    ensures !ClosedByBus(ops, c)
  {
    forall j | 0 <= j < |ops| ensures !CloseHits(ops, c, j) {
      ChannelsGrow(ops, j);
    }
  }

  lemma {:induction false} ClosesAreCounted(ops: seq<Op>, c: nat)
    requires c < |Run(ops).chans|
    ensures Run(ops).chans[c].closes
         == (if Run(ops).chans[c].cleaned then 1 else 0) + if ClosedByBus(ops, c) then 1 else 0
  {
    hide Inv, Without, Register, Subscribers;
    if ops != [] {
      var before, op := ops[..|ops| - 1], ops[|ops| - 1];
      assert before + [op] == ops;
      HitsExtend(before, op, c);
      assert ops[..|before|] == before;
      RunKeepsInv(before);
      if c < |Run(before).chans| {
        ClosesAreCounted(before, c);
        assert GoodChan(Run(before), c);
      } else {
        NotYetClosed(before, c);
      }
    }
  }

  /** The exact condition for the second close, which panics: the bus was closed
      while the channel was subscribed, and its cleanup has run as well.  In all
      other runs every channel is closed at most once. */
  lemma DoubleCloseExactly(ops: seq<Op>, c: nat)
    requires c < |Run(ops).chans|
    ensures Run(ops).chans[c].closes <= 2
    ensures Run(ops).chans[c].closes == 2 <==> Run(ops).chans[c].cleaned && ClosedByBus(ops, c)
  {
    ClosesAreCounted(ops, c);
  }

  lemma RunStep(ops: seq<Op>, op: Op)
    ensures Run(ops + [op]) == Apply(Run(ops), op)
  {
    assert (ops + [op])[..|ops|] == ops;
  }

  /** The offending order is open to every subscriber of an open bus. */
  lemma CloseThenCleanupPanics(ops: seq<Op>, c: nat)
    requires c < |Run(ops).chans| && !Run(ops).chans[c].cleaned && !Run(ops).closed
    ensures c < |Run(ops + [Close] + [Cleanup(c)]).chans| && Run(ops + [Close] + [Cleanup(c)]).chans[c].closes == 2
  {
    hide Run;
    RunKeepsInv(ops);
    assert GoodChan(Run(ops), c);
    RunStep(ops, Close);
    RunStep(ops + [Close], Cleanup(c));
  }

  // ---- Delivery ----------------------------------------------------------

  /** Everything published on a topic. */
  function Published(ops: seq<Op>, topic: string): seq<Event> {
    if ops == [] then []
    else
      var op := ops[|ops| - 1];
      Published(ops[..|ops| - 1], topic) + if op.Publish? && op.topic == topic then [op.event] else []
  }

  /** Everything taken out of a channel. */
  function Taken(ops: seq<Op>, c: nat): seq<Event> {
    if ops == [] then []
    else
      var b, op := Run(ops[..|ops| - 1]), ops[|ops| - 1];
      Taken(ops[..|ops| - 1], c)
      + if op == Receive(c) && c < |b.chans| && b.chans[c].buf != [] then [b.chans[c].buf[0]] else []
  }

  /** a can be obtained from b by leaving events out. */
  predicate Subsequence(a: seq<Event>, b: seq<Event>) {
    || a == []
    || (b != [] && a[|a| - 1] == b[|b| - 1] && Subsequence(a[..|a| - 1], b[..|b| - 1]))
    || (b != [] && Subsequence(a, b[..|b| - 1]))
  }

  lemma SubsequenceExtends(a: seq<Event>, b: seq<Event>, e: Event)
    requires Subsequence(a, b)
    ensures Subsequence(a, b + [e]) && Subsequence(a + [e], b + [e])
  {
    assert (b + [e])[..|b|] == b && (a + [e])[..|a|] == a;
  }

  lemma {:induction false} PrefixOfSubsequence(p: seq<Event>, a: seq<Event>, b: seq<Event>)
    requires Subsequence(a, b) && p <= a
    ensures Subsequence(p, b)
  {
    if p == a {
      assert p == a;
    } else if p != [] {
      if a[|a| - 1] == b[|b| - 1] && Subsequence(a[..|a| - 1], b[..|b| - 1]) {
        PrefixOfSubsequence(p, a[..|a| - 1], b[..|b| - 1]);
      } else {
        PrefixOfSubsequence(p, a, b[..|b| - 1]);
      }
    }
  }

  lemma {:induction false} SubsequenceTransitive(a: seq<Event>, b: seq<Event>, c: seq<Event>)
    requires Subsequence(a, b) && Subsequence(b, c)
    ensures Subsequence(a, c)
    decreases |b| + |c|
  {
    if a != [] && b != [] {
      var m, n := |b| - 1, |c| - 1;
      if b[m] == c[n] && Subsequence(b[..m], c[..n]) {
        if a[|a| - 1] == b[m] && Subsequence(a[..|a| - 1], b[..m]) {
          SubsequenceTransitive(a[..|a| - 1], b[..m], c[..n]);
        } else {
          SubsequenceTransitive(a, b[..m], c[..n]);
        }
      } else {
        SubsequenceTransitive(a, b, c[..n]);
      }
    }
  }

  /** What a subscriber has received or can still receive. */
  function Inbox(ops: seq<Op>, c: nat): seq<Event>
    requires c < |Run(ops).chans|
  {
    Taken(ops, c) + Run(ops).chans[c].buf
  }

  lemma {:induction false} TakenBeforeBirth(ops: seq<Op>, c: nat)
    requires c >= |Run(ops).chans|
    ensures Taken(ops, c) == []
  {
    if ops != [] {
      TakenBeforeBirth(ops[..|ops| - 1], c);
    }
  }

  /** The event op puts into channel c, if any. */
  predicate Enters(b: Bus, op: Op, c: nat)
    requires c < |b.chans|
  {
    op.Publish? && !b.closed && c in Subscribers(b, op.topic) && |b.chans[c].buf| < CHANNEL_CAP
  }

  lemma ChanStep(b: Bus, op: Op, c: nat)
    requires c < |b.chans|
    ensures Apply(b, op).chans[c].topic == b.chans[c].topic
    ensures Apply(b, op).chans[c].buf
         == if Enters(b, op, c) then b.chans[c].buf + [op.event]
            else if op == Receive(c) && b.chans[c].buf != [] then b.chans[c].buf[1..]
            else b.chans[c].buf
  {
  }

  lemma TakenStep(ops: seq<Op>, op: Op, c: nat)
    ensures var b := Run(ops);
            Taken(ops + [op], c)
            == Taken(ops, c)
               + if op == Receive(c) && c < |b.chans| && b.chans[c].buf != [] then [b.chans[c].buf[0]] else []
  {
    assert (ops + [op])[..|ops|] == ops;
  }

  lemma Shift(taken: seq<Event>, buf: seq<Event>)
    requires buf != []
    ensures taken + [buf[0]] + buf[1..] == taken + buf
  {
  }

  lemma InboxArithmetic(taken: seq<Event>, buf: seq<Event>)
    ensures forall e :: taken + [] + (buf + [e]) == taken + buf + [e]
    ensures taken + [] + buf == taken + buf + []
    ensures buf != [] ==> taken + [buf[0]] + buf[1..] == taken + buf + []
  {
    if buf != [] {
      Shift(taken, buf);
    }
  }

  /** One operation moves the inbox by at most the event it publishes. */
  lemma InboxStep(ops: seq<Op>, op: Op, c: nat)
    requires c < |Run(ops).chans|
    ensures c < |Run(ops + [op]).chans| && Run(ops + [op]).chans[c].topic == Run(ops).chans[c].topic
    ensures Inbox(ops + [op], c) == Inbox(ops, c) + if Enters(Run(ops), op, c) then [op.event] else []
  {
    var b := Run(ops);
    RunStep(ops, op);
    TakenStep(ops, op, c);
    ChanStep(b, op, c);
    InboxArithmetic(Taken(ops, c), b.chans[c].buf);
  }

  /** The subscription of channel c, seen from the end of a run. */
  ghost predicate Delivered(ops: seq<Op>, c: nat, topic: string, published: seq<Event>) {
    && c < |Run(ops).chans| && Run(ops).chans[c].topic == topic
    && Subsequence(Inbox(ops, c), published)
    && (|published| <= 64 && !Run(ops).closed && !Run(ops).chans[c].cleaned ==> Inbox(ops, c) == published)
  }

  lemma StaysOpen(b: Bus, op: Op, c: nat)
    requires Inv(b) && c < |b.chans|
    ensures !Apply(b, op).closed && !Apply(b, op).chans[c].cleaned ==>
              !b.closed && !b.chans[c].cleaned && Registered(b, c)
  {
    assert GoodChan(b, c);
  }

  lemma DeliveryStep(ops: seq<Op>, op: Op, c: nat, topic: string, published: seq<Event>)
    requires Delivered(ops, c, topic, published)
    ensures Delivered(ops + [op], c, topic,
                      published + if op.Publish? && op.topic == topic then [op.event] else [])
  {
    hide Run, Apply, Subsequence, Taken;
    var b := Run(ops);
    InboxStep(ops, op, c);
    RunStep(ops, op);
    RunKeepsInv(ops);
    assert GoodChan(b, c);
    if op.Publish? {
      assert GoodTopic(b, op.topic);
      assert Enters(b, op, c) ==> op.topic == topic;
      SubsequenceExtends(Inbox(ops, c), published, op.event);
    }
    assert published + [] == published;
    assert Inbox(ops, c) + [] == Inbox(ops, c);
    StaysOpen(b, op, c);
  }

  lemma FreshSubscription(before: seq<Op>, topic: string)
    ensures Delivered(before + [Subscribe(topic)], |Run(before).chans|, topic, [])
  {
    var c := |Run(before).chans|;
    RunStep(before, Subscribe(topic));
    TakenStep(before, Subscribe(topic), c);
    TakenBeforeBirth(before, c);
  }

  /** Whatever happens after a subscription, the subscriber gets an in-order
      subsequence of what is published; and it gets everything if it is still
      subscribed, the bus is open and at most 64 events were published, however
      slowly it reads. */
  lemma {:induction false} Delivery(before: seq<Op>, topic: string, after: seq<Op>)
    ensures Delivered(before + [Subscribe(topic)] + after, |Run(before).chans|, topic, Published(after, topic))
  {
    hide Apply, Delivered, Run;
    var c := |Run(before).chans|;
    var start := before + [Subscribe(topic)];
    if after == [] {
      assert start + after == start;
      FreshSubscription(before, topic);
    } else {
      var n := |after| - 1;
      var earlier, op := after[..n], after[n];
      Delivery(before, topic, earlier);
      assert start + after == start + earlier + [op];
      DeliveryStep(start + earlier, op, c, topic, Published(earlier, topic));
    }
  }

  lemma EntersItsTopic(ops: seq<Op>, op: Op, c: nat)
    requires c < |Run(ops).chans| && Enters(Run(ops), op, c)
    ensures op.topic == Run(ops).chans[c].topic
  {
    RunKeepsInv(ops);
    assert GoodTopic(Run(ops), op.topic);
  }

  lemma BornEmpty(b: Bus, op: Op, c: nat)
    requires |b.chans| <= c < |Apply(b, op).chans|
    ensures Apply(b, op).chans[c].buf == []
  {
  }

  /** A channel never holds more than was published on its topic. */
  lemma {:induction false} InboxWithin(ops: seq<Op>, c: nat)
    requires c < |Run(ops).chans|
    ensures |Inbox(ops, c)| <= |Published(ops, Run(ops).chans[c].topic)|
  {
    hide Apply, Inv;
    var before, op := ops[..|ops| - 1], ops[|ops| - 1];
    assert ops == before + [op];
    RunStep(before, op);
    if c < |Run(before).chans| {
      InboxWithin(before, c);
      InboxStep(before, op, c);
      if Enters(Run(before), op, c) {
        EntersItsTopic(before, op, c);
      }
    } else {
      BornEmpty(Run(before), op, c);
      TakenStep(before, op, c);
      TakenBeforeBirth(before, c);
    }
  }

  function PublishAll(topic: string, evs: seq<Event>): seq<Op> {
    seq(|evs|, i requires 0 <= i < |evs| => Publish(topic, evs[i]))
  }

  /** A subscriber that has not read yet. */
  ghost predicate Unread(ops: seq<Op>, c: nat, topic: string, evs: seq<Event>) {
    var b := Run(ops);
    && c < |b.chans| && b.chans[c].topic == topic && !b.closed && !b.chans[c].cleaned
    && Taken(ops, c) == []
    && b.chans[c].buf == if |evs| <= 64 then evs else evs[..64]
  }

  lemma UnreadStart(ops: seq<Op>, topic: string)
    requires !Run(ops).closed
    ensures Unread(ops + [Subscribe(topic)], |Run(ops).chans|, topic, [])
  {
    hide Run;
    var c := |Run(ops).chans|;
    RunStep(ops, Subscribe(topic));
    TakenStep(ops, Subscribe(topic), c);
    TakenBeforeBirth(ops, c);
  }

  lemma UnreadStep(ops: seq<Op>, c: nat, topic: string, evs: seq<Event>, e: Event)
    requires Unread(ops, c, topic, evs)
    ensures Unread(ops + [Publish(topic, e)], c, topic, evs + [e])
  {
    hide Run;
    RunKeepsInv(ops);
    assert GoodChan(Run(ops), c);
    RunStep(ops, Publish(topic, e));
    TakenStep(ops, Publish(topic, e), c);
    ChanStep(Run(ops), Publish(topic, e), c);
    if |evs| >= 64 {
      assert (evs + [e])[..64] == evs[..64];
      assert evs[..|evs|] == evs;
    }
  }

  /** The bound of Delivery is exact: a subscriber that does not read keeps the
      first 64 events and loses every later one. */
  lemma {:induction false} SlowReadersKeepTheOldest(before: seq<Op>, topic: string, evs: seq<Event>)
    requires !Run(before).closed
    ensures Unread(before + [Subscribe(topic)] + PublishAll(topic, evs), |Run(before).chans|, topic, evs)
  {
    hide Run, Unread;
    var c, start := |Run(before).chans|, before + [Subscribe(topic)];
    if evs == [] {
      UnreadStart(before, topic);
      assert start + PublishAll(topic, evs) == start;
    } else {
      var n := |evs| - 1;
      SlowReadersKeepTheOldest(before, topic, evs[..n]);
      assert start + PublishAll(topic, evs) == start + PublishAll(topic, evs[..n]) + [Publish(topic, evs[n])];
      assert evs[..n] + [evs[n]] == evs;
      UnreadStep(start + PublishAll(topic, evs[..n]), c, topic, evs[..n], evs[n]);
    }
  }
}
