/** MemoryEventBus on the heap: channel objects shared by the bus and its
    subscribers, with the loops of pkg/events/memory_bus.go. */
module EventBus {
  import opened Models
  import opened Buses

  lemma PublishPointwise(b: Bus, topic: string, event: Event)
    ensures var r := Apply(b, Op.Publish(topic, event));
            && r.subs == b.subs && r.closed == b.closed && |r.chans| == |b.chans|
            && forall c :: 0 <= c < |b.chans| ==>
                 r.chans[c] == if !b.closed && c in Subscribers(b, topic) then Offer(b.chans[c], event) else b.chans[c]
  {
  }

  lemma FirstCleanup(b: Bus, c: nat)
    requires c < |b.chans| && !b.chans[c].cleaned
    ensures Apply(b, Op.Cleanup(c))
         == Bus(Register(b.subs, b.chans[c].topic, Without(Subscribers(b, b.chans[c].topic), c)),
                b.chans[c := b.chans[c].(closes := b.chans[c].closes + 1, cleaned := true)],
                b.closed)
  {
  }

  /** How a receive ends. */
  datatype Reading = Took(event: Event) | Drained | Blocks

  class Channel {
    var buf: seq<Event>
    var closes: nat

    constructor ()
      ensures buf == [] && closes == 0
    {
      buf, closes := [], 0;
    }

    /** A non-blocking send; sending on a closed channel would panic. */
    method TrySend(e: Event)
      requires closes == 0
      modifies this
      ensures closes == old(closes)
      ensures buf == if |old(buf)| < CHANNEL_CAP then old(buf) + [e] else old(buf)
    {
      if |buf| < CHANNEL_CAP {
        buf := buf + [e];
      }
    }

    method Next() returns (r: Reading)
      modifies this
      ensures closes == old(closes)
      ensures buf == if old(buf) == [] then [] else old(buf)[1..]
      ensures r == if old(buf) != [] then Took(old(buf)[0]) else if closes > 0 then Drained else Blocks
    {
      if buf != [] {
        r := Took(buf[0]);
        buf := buf[1..];
      } else if closes > 0 {
        r := Drained;
      } else {
        r := Blocks;
      }
    }

    /** Closing panics if the channel is closed already. */
    method CloseChannel() returns (panics: bool)
      modifies this
      ensures buf == old(buf) && closes == old(closes) + 1
      ensures panics <==> old(closes) > 0
    {
      panics := closes > 0;
      closes := closes + 1;
    }
  }

  /** What Subscribe returns: the channel, and the sync.Once of its cleanup. */
  class Subscription {
    const topic: string
    const channel: Channel
    var fired: bool

    constructor (topic: string, channel: Channel)
      ensures this.topic == topic && this.channel == channel && !fired
    {
      this.topic, this.channel, fired := topic, channel, false;
    }
  }

  /** Every subscription ever made is an object of its own. */
  ghost predicate Separate(all: seq<Subscription>) {
    forall i, j :: 0 <= i < j < |all| ==> all[i] != all[j] && all[i].channel != all[j].channel
  }

  /** Object i is in the state the model gives to channel i. */
  ghost predicate Mirrors(all: seq<Subscription>, chans: seq<Chan>)
    reads all, set s | s in all :: s.channel
  {
    && |all| == |chans|
    && (forall i :: 0 <= i < |all| ==> all[i].topic == chans[i].topic && all[i].fired == chans[i].cleaned)
    && (forall i :: 0 <= i < |all| ==>
          all[i].channel.buf == chans[i].buf && all[i].channel.closes == chans[i].closes)
  }

  /** The list of channel objects is the list of channel numbers. */
  ghost predicate Lists(all: seq<Subscription>, objects: seq<Channel>, numbers: seq<nat>) {
    && |objects| == |numbers|
    && forall i :: 0 <= i < |numbers| ==> numbers[i] < |all| && objects[i] == all[numbers[i]].channel
  }

  /** The same for every topic. */
  ghost predicate ListsAll(all: seq<Subscription>, objects: map<string, seq<Channel>>, numbers: map<string, seq<nat>>) {
    && objects.Keys == numbers.Keys
    && forall t :: t in objects ==> Lists(all, objects[t], numbers[t])
  }

  class MemoryEventBus {
    var subscribers: map<string, seq<Channel>>
    var closed: bool
    ghost var all: seq<Subscription>
    ghost var model: Bus

    ghost predicate Valid()
      reads this, all, set s | s in all :: s.channel
    {
      && Inv(model) && closed == model.closed
      && Mirrors(all, model.chans) && Separate(all)
      && ListsAll(all, subscribers, model.subs)
    }

    constructor ()
      ensures Valid() && model == EMPTY && all == []
    {
      subscribers, closed := map[], false;
      all, model := [], EMPTY;
    }

    /** The fan-out loop: one non-blocking send to each listed channel. */
    method SendAll(subs: seq<Channel>, ghost ids: seq<nat>, event: Event, ghost chans: seq<Chan>)
      requires Separate(all) && Mirrors(all, chans) && Lists(all, subs, ids) && Distinct(ids)
      requires forall c :: c in ids ==> c < |chans| && chans[c].closes == 0
      modifies set s | s in all :: s.channel
      ensures forall c :: 0 <= c < |all| ==>
        && all[c].channel.closes == chans[c].closes
        && all[c].channel.buf == if c in ids then Offer(chans[c], event).buf else chans[c].buf
    {
      for i := 0 to |subs|
        invariant forall c :: 0 <= c < |all| ==>
          && all[c].channel.closes == chans[c].closes
          && all[c].channel.buf == if c in ids[..i] then Offer(chans[c], event).buf else chans[c].buf
      {
        assert ids[i] in ids && ids[i] !in ids[..i];
        assert subs[i] == all[ids[i]].channel;
        subs[i].TrySend(event);
        assert ids[..i + 1] == ids[..i] + [ids[i]];
      }
      assert ids[..|ids|] == ids;
    }

    method Publish(topic: string, event: Event)
      requires Valid()
      modifies this`model, set s | s in all :: s.channel
      ensures Valid() && all == old(all)
      ensures model == Apply(old(model), Op.Publish(topic, event))
    {
      ghost var b := model;
      PublishKeepsInv(b, Op.Publish(topic, event));
      PublishPointwise(b, topic, event);
      if !closed && topic in subscribers {
        assert GoodTopic(b, topic);
        SendAll(subscribers[topic], b.subs[topic], event, b.chans);
      }
      model := Apply(model, Op.Publish(topic, event));
    }

    method Relist(s: Subscription)
      requires ListsAll(all, subscribers, model.subs)
      modifies this`subscribers, this`all
      ensures all == old(all) + [s]
      ensures ListsAll(all, subscribers, model.subs[s.topic := Subscribers(model, s.topic) + [|old(all)|]])
    {
      var subs := if s.topic in subscribers then subscribers[s.topic] else [];
      assert Lists(all, subs, Subscribers(model, s.topic));
      subscribers := subscribers[s.topic := subs + [s.channel]];
      all := all + [s];
    }

    /** Appends a subscription to its topic's list. */
    method Enlist(s: Subscription)
      requires Valid() && !s.fired && s.channel.buf == [] && s.channel.closes == 0
      requires forall i :: 0 <= i < |all| ==> all[i] != s && all[i].channel != s.channel
      modifies this
      ensures Valid() && all == old(all) + [s]
      ensures model == Apply(old(model), Op.Subscribe(s.topic))
    {
      SubscribeKeepsInv(model, Op.Subscribe(s.topic));
      Relist(s);
      model := Apply(model, Op.Subscribe(s.topic));
      assert Mirrors(all, model.chans);
    }

    method Subscribe(topic: string) returns (s: Subscription)
      requires Valid()
      modifies this
      ensures Valid() && all == old(all) + [s] && fresh(s) && fresh(s.channel)
      ensures model == Apply(old(model), Op.Subscribe(topic))
    {
      var ch := new Channel();
      s := new Subscription(topic, ch);
      Enlist(s);
    }

    /** A receive by a subscriber: the oldest event; nothing once the channel is closed
        and drained; otherwise it blocks. */
    method Receive(ghost c: nat, s: Subscription) returns (r: Reading)
      requires Valid() && c < |all| && all[c] == s
      modifies this`model, s.channel
      ensures Valid() && all == old(all)
      ensures model == Apply(old(model), Op.Receive(c))
      ensures match r
              case Took(e) => old(s.channel.buf) == [e] + s.channel.buf
              case Drained => s.channel.buf == old(s.channel.buf) == [] && s.channel.closes > 0
              case Blocks => s.channel.buf == old(s.channel.buf) == [] && s.channel.closes == 0
    {
      ReceiveKeepsInv(model, Op.Receive(c));
      r := s.channel.Next();
      model := Apply(model, Op.Receive(c));
    }

    /** The loop that rebuilds a topic's list without one channel. */
    method FilterOut(subs: seq<Channel>, ch: Channel, ghost ids: seq<nat>, ghost c: nat) returns (kept: seq<Channel>)
      requires Separate(all) && c < |all| && all[c].channel == ch && Lists(all, subs, ids)
      ensures Lists(all, kept, Without(ids, c))
    {
      kept := [];
      for i := 0 to |subs|
        invariant Lists(all, kept, Without(ids[..i], c))
      {
        assert ids[..i + 1][..i] == ids[..i];
        if subs[i] != ch {
          kept := kept + [subs[i]];
        }
      }
      assert ids[..|ids|] == ids;
    }

    /** Takes a channel off its topic's list, and the topic off the map if it was the last. */
    method Unlist(s: Subscription, ghost c: nat)
      requires Separate(all) && c < |all| && all[c] == s
      requires ListsAll(all, subscribers, model.subs)
      modifies this`subscribers
      ensures ListsAll(all, subscribers, Register(model.subs, s.topic, Without(Subscribers(model, s.topic), c)))
    {
      var subs := if s.topic in subscribers then subscribers[s.topic] else [];
      var kept := FilterOut(subs, s.channel, Subscribers(model, s.topic), c);
      if |kept| == 0 {
        subscribers := subscribers - {s.topic};
      } else {
        subscribers := subscribers[s.topic := kept];
      }
    }

    /** Marks the cleanup as done and closes its channel. */
    method Retire(s: Subscription, ghost c: nat) returns (panics: bool)
      requires Separate(all) && Mirrors(all, model.chans) && c < |all| && all[c] == s
      modifies s, s.channel
      ensures Mirrors(all, model.chans[c := model.chans[c].(closes := model.chans[c].closes + 1, cleaned := true)])
      ensures panics <==> old(s.channel.closes) > 0
    {
      s.fired := true;
      panics := s.channel.CloseChannel();
    }

    /** The body of the cleanup function returned with channel c. */
    method Cleanup(ghost c: nat, s: Subscription) returns (panics: bool)
      requires Valid() && c < |all| && all[c] == s
      modifies this`subscribers, this`model, s, s.channel
      ensures Valid() && all == old(all)
      ensures model == Apply(old(model), Op.Cleanup(c))
      ensures panics <==> !old(s.fired) && old(s.channel.closes) > 0
    {
      panics := false;
      if !s.fired {
        CleanupKeepsInv(model, Op.Cleanup(c));
        FirstCleanup(model, c);
        Unlist(s, c);
        panics := Retire(s, c);
        model := Apply(model, Op.Cleanup(c));
      }
    }

    /** How often channel c has been closed while the topics are being walked. */
    ghost predicate Closing(b: Bus, left: set<string>)
      requires |all| == |b.chans|
      reads this, all, set s | s in all :: s.channel
    {
      forall c :: 0 <= c < |all| ==>
        && all[c].channel.buf == b.chans[c].buf
        && all[c].channel.closes == b.chans[c].closes + if Registered(b, c) && b.chans[c].topic !in left then 1 else 0
    }

    /** Closes the channels of one topic. */
    method CloseTopic(t: string, ghost topics: set<string>) returns (panics: bool)
      requires Inv(model) && |all| == |model.chans| && Separate(all) && Closing(model, topics)
      requires t in subscribers && t in topics && t in model.subs && Lists(all, subscribers[t], model.subs[t])
      modifies set s | s in all :: s.channel
      ensures Closing(model, topics - {t}) && !panics
    {
      panics := false;
      ghost var b := model;
      var subs := subscribers[t];
      ghost var ids := b.subs[t];
      assert GoodTopic(b, t);
      for i := 0 to |subs|
        invariant !panics
        invariant forall c :: 0 <= c < |all| ==>
          && all[c].channel.buf == b.chans[c].buf
          && all[c].channel.closes == b.chans[c].closes
             + if (Registered(b, c) && b.chans[c].topic !in topics) || c in ids[..i] then 1 else 0
      {
        assert ids[i] in Subscribers(b, t) && ids[i] !in ids[..i];
        assert subs[i] == all[ids[i]].channel;
        panics := subs[i].CloseChannel();
        assert ids[..i + 1] == ids[..i] + [ids[i]];
      }
      assert ids[..|ids|] == ids;
    }

    /** The nested loops of Close. */
    method CloseTopics() returns (panics: bool)
      requires Inv(model) && Mirrors(all, model.chans) && Separate(all)
      requires ListsAll(all, subscribers, model.subs)
      modifies set s | s in all :: s.channel
      ensures Closing(model, {}) && !panics
    {
      panics := false;
      var topics := subscribers.Keys;
      assert forall c :: 0 <= c < |all| && Registered(model, c) ==> model.chans[c].topic in topics;
      while topics != {}
        invariant topics <= subscribers.Keys && !panics
        invariant Closing(model, topics)
        decreases topics
      {
        var t :| t in topics;
        panics := CloseTopic(t, topics);
        topics := topics - {t};
      }
    }

    method CloseBus() returns (panics: bool)
      requires Valid()
      modifies this`subscribers, this`closed, this`model, set s | s in all :: s.channel
      ensures Valid() && all == old(all)
      ensures model == Apply(old(model), Op.Close)
      ensures !panics
    {
      panics := false;
      if !closed {
        closed := true;
        panics := CloseTopics();
        CloseKeepsInv(model);
        subscribers := map[];
        model := Apply(model, Op.Close);
      }
    }
  }
}
