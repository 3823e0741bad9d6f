/**
 * Commands on their way to the transmit queues. `accepts(k)` is the transport's answer to
 * the k-th push of a run; nothing is assumed about it.
 */
module CommandQueues {
  import opened Wrappers
  import opened Pdos
  import opened Commands
  import opened ZenohSubscriber
  import Discovery

  datatype ChannelTx = Motor | Pump | Valve | Gripper

  /** One entry of a transmit queue: the channel whose queue it is, and the device slot it is pushed to. */
  datatype Sent = Sent(channel: ChannelTx, slaveId: UInt32, pdo: Pdo)

  predicate Addressable(p: Pdo) {
    HasIndex(p) && IndexOf(p) >= 0
  }

  function Send(channel: ChannelTx, p: Pdo): Sent {
    Sent(channel, ToUInt32(IndexOf(p)), p)
  }

  function Sends(channel: ChannelTx, ps: seq<Pdo>): seq<Sent> {
    if ps == [] then [] else Sends(channel, ps[..|ps| - 1]) + [Send(channel, ps[|ps| - 1])]
  }

  lemma SendsPush(sent: seq<Sent>, channel: ChannelTx, ps: seq<Pdo>, p: Pdo)
    ensures sent + Sends(channel, ps + [p]) == sent + Sends(channel, ps) + [Send(channel, p)]
  {
    assert (ps + [p])[..|ps|] == ps;
    ConcatAssoc(sent, Sends(channel, ps), [Send(channel, p)]);
  }

  /** Each PDO goes to the channel's queue, in order, for the device its header names. */
  lemma {:induction false} SendsAreAddressed(channel: ChannelTx, ps: seq<Pdo>)
    ensures |Sends(channel, ps)| == |ps|
    ensures forall k :: 0 <= k < |ps| ==>
              var sent := Sends(channel, ps)[k];
              && sent.channel == channel && sent.pdo == ps[k]
              && (ps[k].header.Some? && ps[k].header.value.index.Some? && ps[k].header.value.index.value >= 0 ==>
                    sent.slaveId == ps[k].header.value.index.value)
  {
    if ps != [] {
      SendsAreAddressed(channel, ps[..|ps| - 1]);
    }
  }

  class AdapterSubscribers {
    const accepts: nat -> bool
    var attempts: nat
    var sent: seq<Sent>

    constructor (accepts: nat -> bool)
      ensures this.accepts == accepts && attempts == 0 && sent == []
    {
      this.accepts, attempts, sent := accepts, 0, [];
    }

    /** One PDO: refused without a non-negative index in its header, or by the transport; otherwise it goes to
        the device of that index. */
    method Push(channel: ChannelTx, p: Pdo) returns (ok: bool)
      modifies this
      ensures ok <==>
              && p.header.Some? && p.header.value.index.Some? && p.header.value.index.value >= 0
              && accepts(old(attempts))
      ensures sent == if ok then old(sent) + [Sent(channel, p.header.value.index.value, p)] else old(sent)
      ensures attempts == old(attempts) + 1
    {
      var up := accepts(attempts);
      attempts := attempts + 1;
      if !up || !HasIndex(p) || IndexOf(p) < 0 {
        return false;
      }
      sent := sent + [Sent(channel, ToUInt32(IndexOf(p)), p)];
      ok := true;
    }
  }

  // ---- Zenoh: typed topics, stopping at the first refusal ---------------------------------------

  datatype Topic = Topic(expectedType: PdoType, channel: ChannelTx, kind: CommandType)

  const TOPICS: seq<Topic> := [
    Topic(TxCia402, ChannelTx.Motor, CommandType.Joint),
    Topic(TxMotor, ChannelTx.Motor, CommandType.Motor),
    Topic(TxHyqKnee, ChannelTx.Valve, CommandType.Valve),
    Topic(TxGripper, ChannelTx.Gripper, CommandType.Gripper),
    Topic(TxHyqHpu, ChannelTx.Pump, CommandType.Pump)]

  /** A topic pairs the channel of a kind of device with a command type of that kind. */
  predicate OfOneKind(t: Topic) {
    && (t.channel == ChannelTx.Motor <==> t.expectedType == TxCia402 || t.expectedType == TxMotor)
    && (t.channel == ChannelTx.Valve <==> t.expectedType == TxHyqKnee)
    && (t.channel == ChannelTx.Gripper <==> t.expectedType == TxGripper)
    && (t.channel == ChannelTx.Pump <==> t.expectedType == TxHyqHpu)
  }

  predicate Typed(topics: seq<Topic>) {
    forall i :: 0 <= i < |topics| ==> OfOneKind(topics[i])
  }

  predicate Acceptable(t: Topic, p: Pdo, up: bool) {
    p.ptype == t.expectedType && Addressable(p) && up
  }

  /** `n` is the length of the longest prefix of the batch whose commands are all acceptable, the
      transport being asked from its answer number `first` on. */
  ghost predicate LongestPrefix(t: Topic, batch: seq<Pdo>, accepts: nat -> bool, first: nat, n: nat) {
    && n <= |batch|
    && (forall i :: 0 <= i < n ==> Acceptable(t, batch[i], accepts(first + i)))
    && (n < |batch| ==> !Acceptable(t, batch[n], accepts(first + n)))
  }

  predicate IdGoesIn(ids: seq<Int32>, accepts: nat -> bool, first: nat, i: nat)
    requires i < |ids|
  {
    ids[i] >= 0 && accepts(first + i)
  }

  /** On its own topic a CDR payload never fails the type check: what is queued depends only on the IDs in
      the message and on the transport. */
  lemma TypeCheckNeverFires(idl: Idl, t: Topic, payload: Bytes, accepts: nat -> bool, first: nat, n: nat)
    requires t in TOPICS && Decode(idl, t.kind, payload).Some?
    ensures |Ids(idl, t.kind, payload)| == |Decode(idl, t.kind, payload).value|
    ensures LongestPrefix(t, Decode(idl, t.kind, payload).value, accepts, first, n) <==>
            var ids := Ids(idl, t.kind, payload);
            && n <= |ids|
            && (forall i :: 0 <= i < n ==> IdGoesIn(ids, accepts, first, i))
            && (n < |ids| ==> !IdGoesIn(ids, accepts, first, n))
  {
    DecodeKeepsCommands(idl, t.kind, payload);
    var batch, ids := Decode(idl, t.kind, payload).value, Ids(idl, t.kind, payload);
    assert t.expectedType == TypeFor(t.kind) by {
      assert forall k :: 0 <= k < |TOPICS| ==> TOPICS[k].expectedType == TypeFor(TOPICS[k].kind);
    }
    forall i | 0 <= i < |batch|
      ensures Acceptable(t, batch[i], accepts(first + i)) <==> IdGoesIn(ids, accepts, first, i)
    {
    }
  }

  /** One batch handed to the callback of a topic, by position and value: how many answers the transport had
      given, what had been queued, and how many of the commands went in. */
  datatype Delivery = Delivery(
    index: nat, topic: Topic, batch: seq<Pdo>, first: nat, before: seq<Sent>, taken: nat)

  /** How often the transport is asked for a batch: a command of the wrong type never reaches it. */
  function Asked(t: Topic, batch: seq<Pdo>, taken: nat): nat {
    taken + if taken < |batch| && batch[taken].ptype == t.expectedType then 1 else 0
  }

  /** The topic's callback queued the longest acceptable prefix of the batch. */
  ghost predicate Faithful(topics: seq<Topic>, accepts: nat -> bool, d: Delivery) {
    && d.index < |topics| && d.topic == topics[d.index]
    && LongestPrefix(d.topic, d.batch, accepts, d.first, d.taken)
  }

  /** The deliveries account for every answer the transport gave and for all that was queued. */
  ghost predicate Accounts(topics: seq<Topic>, accepts: nat -> bool, ds: seq<Delivery>,
                           attempts: nat, sent: seq<Sent>)
  {
    if ds == [] then attempts == 0 && sent == []
    else
      var d := ds[|ds| - 1];
      && Faithful(topics, accepts, d)
      && attempts == d.first + Asked(d.topic, d.batch, d.taken)
      && sent == d.before + Sends(d.topic.channel, d.batch[..d.taken])
      && Accounts(topics, accepts, ds[..|ds| - 1], d.first, d.before)
  }

  /** The batches delivered to the `i`-th topic since the first `from` deliveries. */
  function BatchesFor(ds: seq<Delivery>, from: nat, i: nat): seq<seq<Pdo>> {
    if |ds| <= from then []
    else if ds[|ds| - 1].index == i then BatchesFor(ds[..|ds| - 1], from, i) + [ds[|ds| - 1].batch]
    else BatchesFor(ds[..|ds| - 1], from, i)
  }

  /** The same once `owed` more of topic `i` are delivered. */
  function BatchesOnce(ds: seq<Delivery>, from: nat, i: nat, owed: seq<seq<Pdo>>, j: nat): seq<seq<Pdo>> {
    if j == i then BatchesFor(ds, from, j) + owed else BatchesFor(ds, from, j)
  }

  lemma DeliveriesPush(topics: seq<Topic>, accepts: nat -> bool, ds: seq<Delivery>, from: nat, d: Delivery)
    requires from <= |ds| && Accounts(topics, accepts, ds, d.first, d.before) && Faithful(topics, accepts, d)
    ensures Accounts(topics, accepts, ds + [d], d.first + Asked(d.topic, d.batch, d.taken),
                     d.before + Sends(d.topic.channel, d.batch[..d.taken]))
    ensures forall i: nat ::
      BatchesFor(ds + [d], from, i) ==
      if i == d.index then BatchesFor(ds, from, i) + [d.batch] else BatchesFor(ds, from, i)
  {
    assert (ds + [d])[..|ds|] == ds;
  }

  datatype WireFormat = Protobuf(parse: Bytes -> Option<Pdo>) | Cdr(idl: Idl)

  /** A Protobuf sample carries one PDO and is delivered as a batch of one. */
  function DecoderFor(wire: WireFormat, t: Topic): Bytes -> Option<seq<Pdo>> {
    match wire
    case Protobuf(parse) =>
      (payload: Bytes) => (match parse(payload) case None => None case Some(p) => Some([p]))
    case Cdr(idl) => (payload: Bytes) => Decode(idl, t.kind, payload)
  }

  type Sub = Subscriber<Bytes, seq<Pdo>>

  /** A topic's subscriber is sound, and what its polls took is what was delivered. */
  ghost predicate Feeds(s: Sub, wire: WireFormat, t: Topic, delivered: seq<seq<Pdo>>)
    reads s
  {
    s.Valid() && s.hasCallback && s.deserializer == DecoderFor(wire, t) && delivered == Flatten(s.taken)
  }

  class ZenohAdapterSubscribers {
    const base: AdapterSubscribers
    const wire: WireFormat
    const topics: seq<Topic>
    const depth: nat
    var subscribers: seq<Sub>
    // Every batch delivered, and how many there were at the last start.
    ghost var deliveries: seq<Delivery>
    ghost var from: nat

    ghost predicate Accounted()
      reads this, base
    {
      Accounts(topics, base.accepts, deliveries, base.attempts, base.sent)
    }

    ghost predicate Valid()
      reads this, base, subscribers
    {
      && Typed(topics) && Accounted()
      && |subscribers| <= |topics| && from <= |deliveries|
      && (forall i, j :: 0 <= i < j < |subscribers| ==> subscribers[i] != subscribers[j])
      && (forall i :: 0 <= i < |subscribers| ==>
           Feeds(subscribers[i], wire, topics[i], BatchesFor(deliveries, from, i)))
    }

    constructor (accepts: nat -> bool, wire: WireFormat, depth: nat)
      ensures Valid() && deliveries == [] && subscribers == []
      ensures topics == TOPICS && base.accepts == accepts && this.wire == wire && this.depth == depth
      ensures topics == [
        Topic(TxCia402, ChannelTx.Motor, CommandType.Joint),
        Topic(TxMotor, ChannelTx.Motor, CommandType.Motor),
        Topic(TxHyqKnee, ChannelTx.Valve, CommandType.Valve),
        Topic(TxGripper, ChannelTx.Gripper, CommandType.Gripper),
        Topic(TxHyqHpu, ChannelTx.Pump, CommandType.Pump)]
    {
      base := new AdapterSubscribers(accepts);
      this.wire, this.depth, topics := wire, depth, TOPICS;
      subscribers, deliveries, from := [], [], 0;
    }

    /** All topics get a subscriber or none does; without a transport nothing is touched. */
    method Start(txReady: bool, declares: nat -> bool) returns (ok: bool)
      requires Valid()
      modifies this
      ensures Valid() && deliveries == old(deliveries)
      ensures ok <==> txReady && forall i :: 0 <= i < |topics| ==> declares(i)
      ensures !txReady ==> subscribers == old(subscribers)
      ensures txReady && !ok ==> subscribers == []
      ensures ok ==> |subscribers| == |topics| &&
                     forall i :: 0 <= i < |topics| ==> fresh(subscribers[i]) && subscribers[i].events == []
    {
      if !txReady {
        return false;
      }
      from := |deliveries|;
      ok := Subscribe(declares);
    }

    /** As many topics as there are subscribers have a new one each. */
    ghost predicate Registered()
      reads this, subscribers
    {
      && |subscribers| <= |topics|
      && (forall i, j :: 0 <= i < j < |subscribers| ==> subscribers[i] != subscribers[j])
      && (forall i :: 0 <= i < |subscribers| ==>
           subscribers[i].events == [] && Feeds(subscribers[i], wire, topics[i], []))
    }

    method Subscribe(declares: nat -> bool) returns (ok: bool)
      modifies `subscribers
      ensures ok <==> forall i :: 0 <= i < |topics| ==> declares(i)
      ensures |subscribers| == if ok then |topics| else 0
      ensures Registered() && forall i :: 0 <= i < |subscribers| ==> fresh(subscribers[i])
    {
      subscribers := [];
      for i := 0 to |topics|
        modifies `subscribers
        invariant |subscribers| == i && forall j :: 0 <= j < i ==> declares(j)
        invariant Registered() && forall j :: 0 <= j < i ==> fresh(subscribers[j])
      {
        if !declares(i) {
          subscribers := [];
          return false;
        }
        var _ := Register();
      }
      ok := true;
    }

    method Register() returns (s: Sub)
      requires Registered() && |subscribers| < |topics|
      modifies `subscribers
      ensures Registered() && fresh(s) && subscribers == old(subscribers) + [s]
    {
      s := new Subscriber(DecoderFor(wire, topics[|subscribers|]), true, depth);
      subscribers := subscribers + [s];
    }

    /** A sample comes in on topic `i`, at any time. */
    method Arrive(i: nat, payload: Bytes)
      requires Valid() && i < |subscribers|
      modifies subscribers[i]
      ensures Valid()
      ensures subscribers[i].events ==
              old(subscribers[i].events) + [Sample(
                match wire
                case Protobuf(parse) => if parse(payload).Some? then Some([parse(payload).value]) else None
                case Cdr(idl) => Decode(idl, topics[i].kind, payload))]
    {
      subscribers[i].OnSample(payload);
    }

    method Enqueue(t: Topic, p: Pdo) returns (ok: bool)
      modifies base
      ensures ok <==> Acceptable(t, p, base.accepts(old(base.attempts)))
      ensures base.sent == if ok then old(base.sent) + [Send(t.channel, p)] else old(base.sent)
      ensures base.attempts == old(base.attempts) + if p.ptype == t.expectedType then 1 else 0
    {
      if p.ptype != t.expectedType {
        return false;
      }
      ok := base.Push(t.channel, p);
    }

    /** A topic's callback. */
    method EnqueueBatch(t: Topic, batch: seq<Pdo>) returns (taken: nat)
      modifies base
      ensures LongestPrefix(t, batch, base.accepts, old(base.attempts), taken)
      ensures base.sent == old(base.sent) + Sends(t.channel, batch[..taken])
      ensures base.attempts == old(base.attempts) + Asked(t, batch, taken)
    {
      taken := 0;
      while taken < |batch|
        modifies base
        invariant taken <= |batch| && base.attempts == old(base.attempts) + taken
        invariant forall i :: 0 <= i < taken ==> Acceptable(t, batch[i], base.accepts(old(base.attempts) + i))
        invariant base.sent == old(base.sent) + Sends(t.channel, batch[..taken])
      {
        SendsPush(old(base.sent), t.channel, batch[..taken], batch[taken]);
        var ok := Enqueue(t, batch[taken]);
        if !ok {
          break;
        }
        assert batch[..taken + 1] == batch[..taken] + [batch[taken]];
        taken := taken + 1;
      }
    }

    method Deliver(i: nat, batch: seq<Pdo>)
      requires i < |topics| && Accounted() && from <= |deliveries|
      modifies base, `deliveries
      ensures Accounted() && from <= |deliveries|
      ensures forall j: nat ::
        BatchesFor(deliveries, from, j) ==
        if j == i then BatchesFor(old(deliveries), from, j) + [batch] else BatchesFor(old(deliveries), from, j)
    {
      ghost var first, before := base.attempts, base.sent;
      var taken := EnqueueBatch(topics[i], batch);
      ghost var d := Delivery(i, topics[i], batch, first, before, taken);
      DeliveriesPush(topics, base.accepts, deliveries, from, d);
      deliveries := deliveries + [d];
    }

    method DeliverAll(i: nat, batches: seq<seq<Pdo>>)
      requires i < |topics| && Accounted() && from <= |deliveries|
      modifies base, `deliveries
      ensures Accounted() && from <= |deliveries|
      ensures forall j: nat ::
        BatchesFor(deliveries, from, j) == BatchesOnce(old(deliveries), from, i, batches, j)
    {
      for k := 0 to |batches|
        modifies base, `deliveries
        invariant Accounted() && from <= |deliveries|
        invariant BatchesFor(deliveries, from, i) == BatchesFor(old(deliveries), from, i) + batches[..k]
        invariant forall j: nat :: j != i ==> BatchesFor(deliveries, from, j) == BatchesFor(old(deliveries), from, j)
      {
        Deliver(i, batches[k]);
        assert batches[..k + 1] == batches[..k] + [batches[k]];
      }
      assert batches[..|batches|] == batches;
    }

    /** Every poll's batches have been delivered but for `owed` ones of topic `i`. */
    ghost predicate Owing(i: nat, owed: seq<seq<Pdo>>)
      reads this, base, subscribers
    {
      && Typed(topics) && Accounted()
      && |subscribers| <= |topics| && from <= |deliveries|
      && (forall j, k :: 0 <= j < k < |subscribers| ==> subscribers[j] != subscribers[k])
      && (forall j :: 0 <= j < |subscribers| ==>
           Feeds(subscribers[j], wire, topics[j], BatchesOnce(deliveries, from, i, owed, j)))
    }

    method Take(i: nat) returns (called: seq<seq<Pdo>>)
      requires Valid() && i < |subscribers|
      modifies subscribers[i]
      ensures Owing(i, called) && subscribers[i].events == old(subscribers[i].events) + [Poll]
    {
      var s := subscribers[i];
      ghost var taken := s.taken;
      called := s.SpinOnce();
      SegmentsPush(0, taken, called);
    }

    method Settle(i: nat, owed: seq<seq<Pdo>>)
      requires Owing(i, owed) && i < |subscribers|
      modifies base, `deliveries
      ensures Valid()
    {
      DeliverAll(i, owed);
    }

    /** One topic's poll: every batch taken is delivered, in order. */
    method SpinTopic(i: nat)
      requires Valid() && i < |subscribers|
      modifies base, `deliveries, subscribers[i]
      ensures Valid() && subscribers[i].events == old(subscribers[i].events) + [Poll]
      ensures forall j :: 0 <= j < |subscribers| && j != i ==> subscribers[j].events == old(subscribers[j].events)
    {
      var called := Take(i);
      Settle(i, called);
    }

    /** The first `i` topics have been polled once since they had seen `events`, the others not yet. */
    ghost predicate PolledUpTo(i: nat, events: seq<seq<Event<seq<Pdo>>>>)
      reads this, subscribers
    {
      && |events| == |subscribers|
      && forall j :: 0 <= j < |subscribers| ==>
           subscribers[j].events == if j < i then events[j] + [Poll] else events[j]
    }

    method SpinNext(i: nat, ghost events: seq<seq<Event<seq<Pdo>>>>)
      requires Valid() && i < |subscribers| && PolledUpTo(i, events)
      modifies base, `deliveries, subscribers[i]
      ensures Valid() && PolledUpTo(i + 1, events)
    {
      SpinTopic(i);
    }

    method SpinOnce()
      requires Valid()
      modifies base, `deliveries, subscribers
      ensures Valid()
      ensures forall j :: 0 <= j < |subscribers| ==> subscribers[j].events == old(subscribers[j].events) + [Poll]
    {
      ghost var events := seq(|subscribers|, j requires 0 <= j < |subscribers| reads this, subscribers =>
        subscribers[j].events);
      for i := 0 to |subscribers|
        modifies base, `deliveries, subscribers
        invariant Valid() && PolledUpTo(i, events)
      {
        SpinNext(i, events);
      }
    }
  }

  /** A queued command is for the device its own header names, and each queue holds its own types of command. */
  ghost predicate Sound(sent: Sent) {
    && sent.pdo.header.Some? && sent.pdo.header.value.index == Some(sent.slaveId)
    && (sent.channel == ChannelTx.Motor <==> sent.pdo.ptype == TxCia402 || sent.pdo.ptype == TxMotor)
    && (sent.channel == ChannelTx.Valve <==> sent.pdo.ptype == TxHyqKnee)
    && (sent.channel == ChannelTx.Gripper <==> sent.pdo.ptype == TxGripper)
    && (sent.channel == ChannelTx.Pump <==> sent.pdo.ptype == TxHyqHpu)
  }

  lemma AcceptedIsSound(topics: seq<Topic>, i: nat, p: Pdo)
    requires Typed(topics) && i < |topics| && Acceptable(topics[i], p, true)
    ensures Sound(Send(topics[i].channel, p))
  {
  }

  lemma {:induction false} SendsAreSound(topics: seq<Topic>, i: nat, ps: seq<Pdo>)
    requires Typed(topics) && i < |topics|
    requires forall k :: 0 <= k < |ps| ==> Acceptable(topics[i], ps[k], true)
    ensures forall k :: 0 <= k < |Sends(topics[i].channel, ps)| ==> Sound(Sends(topics[i].channel, ps)[k])
  {
    if ps != [] {
      SendsAreSound(topics, i, ps[..|ps| - 1]);
      AcceptedIsSound(topics, i, ps[|ps| - 1]);
    }
  }

  lemma {:induction false} QueuedAreSound(topics: seq<Topic>, accepts: nat -> bool, ds: seq<Delivery>,
                                          attempts: nat, sent: seq<Sent>)
    requires Typed(topics) && Accounts(topics, accepts, ds, attempts, sent)
    ensures forall k :: 0 <= k < |sent| ==> Sound(sent[k])
  {
    if ds != [] {
      var d := ds[|ds| - 1];
      QueuedAreSound(topics, accepts, ds[..|ds| - 1], d.first, d.before);
      assert forall i :: 0 <= i < d.taken ==> d.batch[..d.taken][i] == d.batch[i];
      SendsAreSound(topics, d.index, d.batch[..d.taken]);
    }
  }

  /** Whatever arrived and however the transport behaved: only commands of a queue's own types have ever been
      put into it, each for the device its header names. */
  lemma QueuesStaySound(a: ZenohAdapterSubscribers)
    requires a.Valid()
    ensures forall k :: 0 <= k < |a.base.sent| ==>
              var sent := a.base.sent[k];
              && sent.pdo.header.Some? && sent.pdo.header.value.index == Some(sent.slaveId)
              && (sent.channel == ChannelTx.Motor <==> sent.pdo.ptype == TxCia402 || sent.pdo.ptype == TxMotor)
              && (sent.channel == ChannelTx.Valve <==> sent.pdo.ptype == TxHyqKnee)
              && (sent.channel == ChannelTx.Gripper <==> sent.pdo.ptype == TxGripper)
              && (sent.channel == ChannelTx.Pump <==> sent.pdo.ptype == TxHyqHpu)
  {
    QueuedAreSound(a.topics, a.base.accepts, a.deliveries, a.base.attempts, a.base.sent);
    forall k | 0 <= k < |a.base.sent| ensures Sound(a.base.sent[k]) {
    }
  }

  /** What the deliveries queued, one accepted prefix after the other. */
  function SentIn(ds: seq<Delivery>): seq<Sent> {
    if ds == [] then []
    else
      var d := ds[|ds| - 1];
      SentIn(ds[..|ds| - 1]) + Sends(d.topic.channel, d.batch[..Min(d.taken, |d.batch|)])
  }

  lemma {:induction false} SentIsTaken(topics: seq<Topic>, accepts: nat -> bool, ds: seq<Delivery>,
                                       attempts: nat, sent: seq<Sent>)
    requires Accounts(topics, accepts, ds, attempts, sent)
    ensures sent == SentIn(ds)
  {
    if ds != [] {
      var d := ds[|ds| - 1];
      SentIsTaken(topics, accepts, ds[..|ds| - 1], d.first, d.before);
    }
  }

  /** The queues traced back to the samples: what was queued is the accepted prefixes of the batches delivered,
      and the batches a topic delivered since the last start are, poll by poll, the newest of those that
      arrived since the poll before. */
  lemma FromSamplesToQueues(a: ZenohAdapterSubscribers, i: nat)
    requires a.Valid() && i < |a.subscribers|
    ensures a.base.sent == SentIn(a.deliveries)
    ensures BatchesFor(a.deliveries, a.from, i) ==
            Flatten(NewestOfEach(a.subscribers[i].historyDepth, Segments(a.subscribers[i].events)))
  {
    SentIsTaken(a.topics, a.base.accepts, a.deliveries, a.base.attempts, a.base.sent);
  }

  // ---- DDS: one motor topic, skipping what is refused -------------------------------------------

  predicate GoesIn(ps: seq<Pdo>, accepts: nat -> bool, first: nat, i: nat)
    requires i < |ps|
  {
    Addressable(ps[i]) && accepts(first + i)
  }

  /** The PDOs that go in when refusals are skipped. */
  function Skipping(ps: seq<Pdo>, accepts: nat -> bool, first: nat): seq<Pdo> {
    if ps == [] then []
    else
      var n := |ps| - 1;
      var before := Skipping(ps[..n], accepts, first);
      if GoesIn(ps, accepts, first, n) then before + [ps[n]] else before
  }

  /** The queues after pushing one PDO after the other. */
  function AfterSkipping(sent: seq<Sent>, ps: seq<Pdo>, accepts: nat -> bool, first: nat): seq<Sent> {
    if ps == [] then sent
    else
      var n := |ps| - 1;
      var before := AfterSkipping(sent, ps[..n], accepts, first);
      if GoesIn(ps, accepts, first, n) then before + [Send(ChannelTx.Motor, ps[n])] else before
  }

  lemma SkippingNext(sent: seq<Sent>, ps: seq<Pdo>, k: nat, accepts: nat -> bool, first: nat)
    requires k < |ps|
    ensures AfterSkipping(sent, ps[..k + 1], accepts, first) ==
            if GoesIn(ps, accepts, first, k) then
              AfterSkipping(sent, ps[..k], accepts, first) + [Send(ChannelTx.Motor, ps[k])]
            else AfterSkipping(sent, ps[..k], accepts, first)
  {
    assert ps[..k + 1][..k] == ps[..k];
  }

  lemma {:induction false} AfterSkippingMeans(sent: seq<Sent>, ps: seq<Pdo>, accepts: nat -> bool, first: nat)
    ensures AfterSkipping(sent, ps, accepts, first) == sent + Sends(ChannelTx.Motor, Skipping(ps, accepts, first))
  {
    if ps != [] {
      var n := |ps| - 1;
      AfterSkippingMeans(sent, ps[..n], accepts, first);
      SendsPush(sent, ChannelTx.Motor, Skipping(ps[..n], accepts, first), ps[n]);
    }
  }

  class DdsAdapterSubscribers {
    const base: AdapterSubscribers
    const ecatMap: Discovery.EcatMap

    constructor (base: AdapterSubscribers, ecatMap: Discovery.EcatMap)
      ensures this.base == base && this.ecatMap == ecatMap
    {
      this.base, this.ecatMap := base, ecatMap;
    }

    /** A message on the motor topic: every converted command is pushed, whatever became of the others. */
    method OnMessage(commands: seq<MotorCommand>)
      modifies base
      ensures var batch := Collect(DdsCommand(ecatMap), commands);
              && base.sent ==
                 old(base.sent) + Sends(ChannelTx.Motor, Skipping(batch, base.accepts, old(base.attempts)))
              && base.attempts == old(base.attempts) + |batch|
    {
      var batch := ConvertBatch(ecatMap, commands);
      AfterSkippingMeans(base.sent, batch, base.accepts, base.attempts);
      PushAll(batch);
    }

    method PushNext(batch: seq<Pdo>, k: nat, ghost sent: seq<Sent>, ghost first: nat)
      requires k < |batch| && base.attempts == first + k
      requires base.sent == AfterSkipping(sent, batch[..k], base.accepts, first)
      modifies base
      ensures base.attempts == first + k + 1
      ensures base.sent == AfterSkipping(sent, batch[..k + 1], base.accepts, first)
    {
      SkippingNext(sent, batch, k, base.accepts, first);
      var _ := base.Push(ChannelTx.Motor, batch[k]);
    }

    method PushAll(batch: seq<Pdo>)
      modifies base
      ensures base.sent == AfterSkipping(old(base.sent), batch, base.accepts, old(base.attempts))
      ensures base.attempts == old(base.attempts) + |batch|
    {
      ghost var sent, first := base.sent, base.attempts;
      assert AfterSkipping(sent, batch[..0], base.accepts, first) == sent;
      for k := 0 to |batch|
        modifies base
        invariant base.attempts == first + k
        invariant base.sent == AfterSkipping(sent, batch[..k], base.accepts, first)
      {
        PushNext(batch, k, sent, first);
      }
      assert batch[..|batch|] == batch;
    }
  }

  lemma {:induction false} SkippingFrom(batch: seq<Pdo>, accepts: nat -> bool, first: nat, n: nat)
    requires n <= |batch| && forall i :: 0 <= i < n ==> GoesIn(batch, accepts, first, i)
    ensures batch[..n] <= Skipping(batch, accepts, first)
    ensures Skipping(batch, accepts, first) == batch[..n] <==>
            forall i :: n <= i < |batch| ==> !GoesIn(batch, accepts, first, i)
  {
    if batch != [] {
      var k := |batch| - 1;
      var rest := batch[..k];
      forall i | 0 <= i < k ensures GoesIn(rest, accepts, first, i) <==> GoesIn(batch, accepts, first, i) {
      }
      if n <= k {
        SkippingFrom(rest, accepts, first, n);
        assert rest[..n] == batch[..n];
      } else {
        SkippingFrom(rest, accepts, first, k);
        assert rest[..k] == rest;
        assert batch[..n] == rest + [batch[k]];
      }
    }
  }

  /** Facing the same transport, the Zenoh rule queues a prefix of what the DDS rule would; they queue the same
      exactly when nothing after the first refusal could have gone in. */
  lemma StopVersusSkip(t: Topic, batch: seq<Pdo>, accepts: nat -> bool, first: nat, n: nat)
    requires LongestPrefix(t, batch, accepts, first, n)
    ensures batch[..n] <= Skipping(batch, accepts, first)
    ensures Skipping(batch, accepts, first) == batch[..n] <==>
            forall i :: n <= i < |batch| ==> !GoesIn(batch, accepts, first, i)
  {
    forall i | 0 <= i < n ensures GoesIn(batch, accepts, first, i) {
      assert Acceptable(t, batch[i], accepts(first + i));
    }
    SkippingFrom(batch, accepts, first, n);
  }
}
