/**
 * From discovery to the wire: discover the devices, wire them, register the aggregate
 * publishers with an adapter and let it turn. What is written then, in terms of what the
 * queues showed at discovery and what was drained since.
 */
module Startup {
  import opened Wrappers
  import opened Pdos
  import opened ReceiveCache
  import opened Messages
  import opened Publishers
  import opened MessageContents
  import opened AdapterPublishers
  import opened Discovery
  import opened Selection
  import W = Wiring
  import H = PublishedHistory

  function KindOf(a: W.Aggregate): Kind {
    match a
    case JointState => Kind.JointState
    case Motors => MotorState
    case Grippers => GripperState
    case Valves => ValveState
  }

  /** The aggregate topics of a plan, in order. */
  function Aggregates(plan: seq<W.Registration>): (r: seq<W.Registration>)
    ensures forall i :: 0 <= i < |r| ==> r[i].topic.AggregateTopic? && r[i] in plan
  {
    if plan == [] then []
    else
      var before, last := Aggregates(plan[..|plan| - 1]), plan[|plan| - 1];
      if last.topic.AggregateTopic? then before + [last] else before
  }

  /** The subscription is what registering `r` makes. */
  predicate Carries(s: Subscription, backend: Backend, r: W.Registration) {
    && r.topic.AggregateTopic?
    && s.publisher.kind == KindOf(r.topic.aggregate) && s.publisher.backend == backend
    && s.FilterOf() == W.FilterOf(r)
  }

  ghost predicate CarriesAll(ss: seq<Subscription>, backend: Backend, rs: seq<W.Registration>) {
    |ss| == |rs| && forall i :: 0 <= i < |ss| ==> Carries(ss[i], backend, rs[i])
  }

  method RegisterPlan(a: Adapter, plan: seq<W.Registration>, backend: Backend)
    requires a.Valid() && a.subscriptions == []
    modifies a`subscriptions, a`joined
    ensures a.Valid() && CarriesAll(a.subscriptions, backend, Aggregates(plan))
  {
    for k := 0 to |plan|
      modifies a`subscriptions, a`joined
      invariant a.Valid() && CarriesAll(a.subscriptions, backend, Aggregates(plan[..k]))
    {
      assert plan[..k + 1][..k] == plan[..k];
      if plan[k].topic.AggregateTopic? {
        var _ := a.RegisterPublisher(plan[k].channels, plan[k].ids, KindOf(plan[k].topic.aggregate), backend);
      }
    }
    assert plan[..|plan|] == plan;
  }

  /** The adapter carries the aggregate publishers of a plan that wires the map, and nothing else. */
  ghost predicate Deployed(a: Adapter, backend: Backend, m: EcatMap, names: W.Names, plan: seq<W.Registration>)
    reads a
  {
    W.Wired(m, names, plan, W.SUMMARIES + W.SINGLES) && CarriesAll(a.subscriptions, backend, Aggregates(plan))
  }

  /** Start-up, with discovery watched for `limit` polls: discovery, wiring by the backend's own rules,
      registration. Zenoh carries what is named; DDS fails exactly if it has to give up. */
  method BringUp(ids: set<UInt32>, isOk: bool, stream: nat -> Batches, limit: nat,
                 orderOf: EcatMap -> seq<UInt32>, names: W.Names, backend: Backend)
    returns (done: bool, ok: bool, m: EcatMap, plan: seq<W.Registration>, a: Adapter)
    requires forall m: EcatMap :: W.Orders(orderOf(m), m)
    ensures done <==> isOk ==> AllSeenBy(ids, stream, limit)
    ensures done && isOk ==> m.Keys == ids && exists n: nat :: Underway(ids, stream, m, n)
    ensures !isOk ==> m == map[]
    ensures done ==> (ok <==> backend.Dds? ==>
                        && W.AtMostOneNamed(m, names, Channel.Imu) && W.AtMostOneNamed(m, names, Channel.PowerBoard)
                        && W.AtMostOneNamed(m, names, Channel.Pump)
                        && W.AtMostOneNamed(m, names, Channel.ForceTorque))
    ensures fresh(a) && fresh(a.caches) && a.Valid() && a.history == []
    ensures done && ok ==> Deployed(a, backend, m, names, plan)
  {
    a := new Adapter();
    plan, ok := [], true;
    var polls;
    done, m, polls := Discover(ids, isOk, stream, limit);
    if !done {
      return;
    }
    if isOk {
      assert Underway(ids, stream, m, polls);
      W.DiscoveredMapsAreKeyed(ids, m, SightingsOf(stream, polls));
    }
    if backend.Dds? {
      ok, plan := W.DdsInit(m, orderOf(m), names);
    } else {
      var _, wired := W.ZenohInit(m, orderOf(m), names);
      plan := wired;
    }
    if ok {
      RegisterPlan(a, plan, backend);
    }
  }

  lemma SamePublishers(ss: seq<Subscription>, before: seq<Subscription>)
    requires SameButSeen(ss, before)
    ensures (set s | s in ss :: s.publisher) == (set s | s in before :: s.publisher)
  {
    var now, then_ := set s | s in ss :: s.publisher, set s | s in before :: s.publisher;
    forall p | p in now ensures p in then_ {
      var i :| 0 <= i < |ss| && ss[i].publisher == p;
      assert before[i].publisher == p;
    }
    forall p | p in then_ ensures p in now {
      var i :| 0 <= i < |before| && before[i].publisher == p;
      assert ss[i].publisher == p;
    }
  }

  lemma StillDeployed(ss: seq<Subscription>, before: seq<Subscription>, backend: Backend, rs: seq<W.Registration>)
    requires SameButSeen(ss, before) && CarriesAll(before, backend, rs)
    ensures CarriesAll(ss, backend, rs)
  {
    forall i | 0 <= i < |ss| ensures Carries(ss[i], backend, rs[i]) {
      assert Carries(before[i], backend, rs[i]);
    }
  }

  /** Any number of turns later everything is still in place. */
  method Operate(a: Adapter, turns: seq<(bool, CycleInput)>,
                 ghost backend: Backend, ghost m: EcatMap, ghost names: W.Names, ghost plan: seq<W.Registration>)
    requires a.Valid() && Deployed(a, backend, m, names, plan)
    modifies a, a.caches, (set c | c in a.caches :: c.entries), set s | s in a.subscriptions :: s.publisher
    ensures a.Valid() && Deployed(a, backend, m, names, plan)
  {
    for i := 0 to |turns|
      invariant a.Valid() && SameButSeen(a.subscriptions, old(a.subscriptions))
    {
      SamePublishers(a.subscriptions, old(a.subscriptions));
      a.SpinOnce(turns[i].0, turns[i].1);
    }
    StillDeployed(a.subscriptions, old(a.subscriptions), backend, Aggregates(plan));
  }

  /** The devices a message of this kind is about. */
  predicate About(kind: Kind, c: Channel) {
    match kind
    case JointState => c == Channel.Motor || c == Channel.Gripper || c == Channel.Valve
    case MotorState => c == Channel.Motor
    case GripperState => c == Channel.Gripper
    case ValveState => c == Channel.Valve
  }

  lemma TopicsByKind(a: W.Aggregate, m: EcatMap, id: UInt32)
    ensures W.ChannelsOf(W.AggregateTopic(a)) ==
            match KindOf(a)
            case JointState => [Channel.Motor, Channel.Gripper, Channel.Valve]
            case MotorState => [Channel.Motor]
            case GripperState => [Channel.Gripper]
            case ValveState => [Channel.Valve]
    ensures W.Stands(m, W.AggregateTopic(a), id) <==> id in m && About(KindOf(a), m[id].channel)
  {
  }

  /** A deployed subscription listens to the channels of the devices its messages are about, in order, and its
      mask is those of them that were discovered, with IDs below 256. */
  lemma SubscribedToItsDevices(a: Adapter, backend: Backend, m: EcatMap, names: W.Names, plan: seq<W.Registration>,
                               i: nat)
    requires Deployed(a, backend, m, names, plan) && i < |a.subscriptions|
    ensures var s := a.subscriptions[i];
            && s.publisher.backend == backend && !s.acceptAllIds
            && s.channels == (
                 match s.publisher.kind
                 case JointState => [Channel.Motor, Channel.Gripper, Channel.Valve]
                 case MotorState => [Channel.Motor]
                 case GripperState => [Channel.Gripper]
                 case ValveState => [Channel.Valve])
            && forall id: UInt32 ::
                 id in s.idsAllowed <==> id in m && About(s.publisher.kind, m[id].channel) && id < 256
  {
    var s, reg := a.subscriptions[i], Aggregates(plan)[i];
    assert Carries(s, backend, reg);
    AggregatesAreWired(m, names, plan, W.SUMMARIES + W.SINGLES, i);
    var p :| 0 <= p < |plan| && plan[p] == reg;
    W.MaskIsListedIds(m, names, plan, W.SUMMARIES + W.SINGLES, p);
    assert W.Right(m, plan[p]);
    TopicsByKind(reg.topic.aggregate, m, 0);
    forall id: UInt32
      ensures id in s.idsAllowed <==> id in m && About(s.publisher.kind, m[id].channel) && id < 256
    {
      TopicsByKind(reg.topic.aggregate, m, id);
    }
  }

  lemma {:induction false} AggregatesAll(plan: seq<W.Registration>, p: nat)
    requires p < |plan| && plan[p].topic.AggregateTopic?
    ensures exists i :: 0 <= i < |Aggregates(plan)| && Aggregates(plan)[i] == plan[p]
  {
    var n := |plan| - 1;
    if p < n {
      AggregatesAll(plan[..n], p);
      var i :| 0 <= i < |Aggregates(plan[..n])| && Aggregates(plan[..n])[i] == plan[p];
      assert Aggregates(plan)[i] == plan[p];
    } else {
      assert Aggregates(plan)[|Aggregates(plan)| - 1] == plan[p];
    }
  }

  /** The topic whose messages are of this kind. */
  function TopicOf(kind: Kind): W.Topic {
    match kind
    case JointState => W.AggregateTopic(W.Aggregate.JointState)
    case MotorState => W.AggregateTopic(W.Motors)
    case GripperState => W.AggregateTopic(W.Grippers)
    case ValveState => W.AggregateTopic(W.Valves)
  }

  lemma PlannedIfAbout(m: EcatMap, names: W.Names, plan: seq<W.Registration>, kind: Kind)
    requires W.Wired(m, names, plan, W.SUMMARIES + W.SINGLES)
    ensures W.Has(plan, TopicOf(kind)) <==> exists id: UInt32 :: id in m && About(kind, m[id].channel)
  {
    var t := TopicOf(kind);
    forall id: UInt32 ensures W.Stands(m, t, id) <==> id in m && About(kind, m[id].channel) {
      TopicsByKind(t.aggregate, m, id);
    }
    assert W.ClassOf(t) in W.SUMMARIES + W.SINGLES;
    if id: UInt32 :| id in m && About(kind, m[id].channel) {
      assert W.Stands(m, t, id);
    }
    if id :| W.Stands(m, t, id) {
      assert About(kind, m[id].channel);
    }
  }

  lemma ServedIfPlanned(ss: seq<Subscription>, backend: Backend, plan: seq<W.Registration>, kind: Kind)
    requires CarriesAll(ss, backend, Aggregates(plan))
    ensures (exists i :: 0 <= i < |ss| && ss[i].publisher.kind == kind) <==> W.Has(plan, TopicOf(kind))
  {
    if W.Has(plan, TopicOf(kind)) {
      var p :| 0 <= p < |plan| && plan[p].topic == TopicOf(kind);
      AggregatesAll(plan, p);
      var i :| 0 <= i < |Aggregates(plan)| && Aggregates(plan)[i] == plan[p];
      assert Carries(ss[i], backend, Aggregates(plan)[i]);
    }
    if i :| 0 <= i < |ss| && ss[i].publisher.kind == kind {
      assert Carries(ss[i], backend, Aggregates(plan)[i]);
      assert Aggregates(plan)[i] in plan;
      var p :| 0 <= p < |plan| && plan[p] == Aggregates(plan)[i];
      assert plan[p].topic == TopicOf(kind);
    }
  }

  /** There is a publisher of a kind exactly if some device was discovered that its messages are about. */
  lemma EveryKindIsServed(a: Adapter, backend: Backend, m: EcatMap, names: W.Names, plan: seq<W.Registration>,
                          kind: Kind)
    requires Deployed(a, backend, m, names, plan)
    ensures (exists i :: 0 <= i < |a.subscriptions| && a.subscriptions[i].publisher.kind == kind) <==>
            exists id: UInt32 :: id in m && About(kind, m[id].channel)
  {
    PlannedIfAbout(m, names, plan, kind);
    ServedIfPlanned(a.subscriptions, backend, plan, kind);
  }

  lemma AggregatesAreWired(m: EcatMap, names: W.Names, plan: seq<W.Registration>, done: set<W.Class>, i: nat)
    requires W.Wired(m, names, plan, done) && i < |Aggregates(plan)|
    ensures exists p :: 0 <= p < |plan| && plan[p] == Aggregates(plan)[i]
  {
  }

  lemma ShownRows(backend: Backend, kind: Kind, m: Columns, entries: seq<Entry>, accepted: seq<Pdo>)
    requires HoldsRows(kind, m, entries) && |accepted| == |entries|
    requires forall x :: 0 <= x < |accepted| ==> EntryOf(backend, kind, accepted[x]) == Some(entries[x])
    ensures forall x :: 0 <= x < |accepted| ==> RowShows(backend, kind, m, x, accepted[x])
  {
    forall x | 0 <= x < |accepted| ensures RowShows(backend, kind, m, x, accepted[x]) {
      EntryIsRow(backend, kind, m, entries, x, accepted[x]);
    }
  }

  /** What a deployed publisher has written, whatever the run: each output comes from one cycle in which every
      discovered device of its topic with an ID below 256 was received, and a message has one row for each of
      that cycle's accepted PDOs, each from another device, with that PDO's name and values in its columns. */
  lemma WrittenMeansReceived(a: Adapter, backend: Backend, m: EcatMap, names: W.Names, plan: seq<W.Registration>,
                             i: nat, k: nat) returns (n: nat, r: Report)
    requires a.Valid() && Deployed(a, backend, m, names, plan)
    requires i < |a.subscriptions| && k < |a.subscriptions[i].publisher.written|
    ensures i < |Aggregates(plan)| && 0 < n <= |a.history|
    ensures var reg := Aggregates(plan)[i];
            var kind := KindOf(reg.topic.aggregate);
            && Shows(kind, a.subscriptions[i].publisher.written[k], r)
            && (forall id: UInt32 :: W.Stands(m, reg.topic, id) && id < 256 ==>
                  H.ReceivedNow(W.FilterOf(reg), a.history[..n], id))
            && (r.Rows? ==>
                  && H.FaithfulRows(backend, kind, W.FilterOf(reg), a.history[..n], r)
                  && var accepted := Accepted(backend, kind, SelectedAll(LogsAt(a.history[..n]), W.FilterOf(reg)));
                     forall x :: 0 <= x < |accepted| ==>
                       RowShows(backend, kind, a.subscriptions[i].publisher.written[k].message.columns, x, accepted[x]))
  {
    var s := a.subscriptions[i];
    var reg := Aggregates(plan)[i];
    var kind, f := KindOf(reg.topic.aggregate), W.FilterOf(reg);
    H.WrittenHistory(a, i);
    var j;
    n, j := H.ReportFromCycle(backend, kind, f, a.history, a.joined[i], k);
    var history := a.history[..n];
    r := H.Contribution(backend, kind, f, history)[j];
    AggregatesAreWired(m, names, plan, W.SUMMARIES + W.SINGLES, i);
    var p :| 0 <= p < |plan| && plan[p] == reg;
    W.EveryDeviceBehindAMessage(m, names, plan, W.SUMMARIES + W.SINGLES, p, backend, kind, history);
    if r.Rows? {
      H.MessagesAreFaithful(backend, kind, f, history, j);
      ShownRows(backend, kind, s.publisher.written[k].message.columns, r.entries,
        Accepted(backend, kind, SelectedAll(LogsAt(history), f)));
    }
  }
}
