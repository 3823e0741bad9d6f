/**
 * From the discovered map to registrations: each backend filters the device IDs by channel
 * and registers one publisher per aggregate topic and per single device. The map's
 * iteration order is a parameter: nothing may depend on it.
 */
module Wiring {
  import opened Wrappers
  import opened Pdos
  import opened Discovery
  import opened ReceiveCache
  import opened AdapterPublishers
  import Messages
  import Publishers
  import PublishedHistory
  import Selection

  datatype Aggregate = JointState | Motors | Grippers | Valves

  datatype Topic = AggregateTopic(aggregate: Aggregate) | DeviceTopic(channel: Channel, id: UInt32, name: string)

  datatype Registration = Registration(topic: Topic, channels: seq<Channel>, ids: seq<UInt32>)

  type Names = map<UInt32, string>

  function ChannelsOf(t: Topic): seq<Channel> {
    match t
    case AggregateTopic(JointState) => [Channel.Motor, Channel.Gripper, Channel.Valve]
    case AggregateTopic(Motors) => [Channel.Motor]
    case AggregateTopic(Grippers) => [Channel.Gripper]
    case AggregateTopic(Valves) => [Channel.Valve]
    case DeviceTopic(c, _, _) => [c]
  }

  /** Every entry is filed under its own ID. */
  predicate Keyed(m: EcatMap) {
    forall id :: id in m ==> m[id].ecatId == id
  }

  lemma DiscoveredMapsAreKeyed(ids: set<UInt32>, m: EcatMap, seen: seq<Sighting>)
    requires Tells(ids, m, seen)
    ensures Keyed(m)
  {
  }

  /** An order in which the map may be iterated. */
  ghost predicate Orders(order: seq<UInt32>, m: EcatMap) {
    NoDuplicates(order) && forall id: UInt32 :: id in order <==> id in m
  }

  predicate On(m: EcatMap, c: Channel, id: UInt32) {
    id in m && m[id].channel == c
  }

  // ---- filtering ----------------------------------------------------------------------------------

  /** The IDs on one channel, each once. */
  ghost predicate Lists(ids: seq<UInt32>, m: EcatMap, c: Channel) {
    NoDuplicates(ids) && forall id: UInt32 :: id in ids <==> On(m, c, id)
  }

  lemma OrderNext(order: seq<UInt32>, k: nat)
    requires NoDuplicates(order) && k < |order|
    ensures order[k] !in order[..k] && order[..k + 1] == order[..k] + [order[k]]
  {
  }

  method DdsFilter(m: EcatMap, order: seq<UInt32>, c: Channel) returns (ids: seq<UInt32>)
    requires Keyed(m) && Orders(order, m)
    ensures Lists(ids, m, c)
  {
    ids := [];
    for k := 0 to |order|
      invariant NoDuplicates(ids) && forall id: UInt32 :: id in ids <==> id in order[..k] && On(m, c, id)
    {
      OrderNext(order, k);
      var id := order[k];
      if id !in m || m[id].channel != c {
        continue;
      }
      ids := ids + [m[id].ecatId];
    }
  }

  method ZenohFilter(m: EcatMap, order: seq<UInt32>, c: Channel) returns (ids: seq<UInt32>)
    requires Orders(order, m)
    ensures Lists(ids, m, c)
  {
    ids := [];
    for k := 0 to |order|
      invariant NoDuplicates(ids) && forall id: UInt32 :: id in ids <==> id in order[..k] && On(m, c, id)
    {
      OrderNext(order, k);
      var id := order[k];
      if m[id].channel == c {
        ids := ids + [id];
      }
    }
  }

  /** The per-channel lists are disjoint and cover the map. */
  lemma ListsPartition(m: EcatMap, lists: seq<seq<UInt32>>)
    requires |lists| == |CHANNELS| && forall c :: 0 <= c < |CHANNELS| ==> Lists(lists[c], m, CHANNELS[c])
    ensures forall c, d, id :: 0 <= c < d < |CHANNELS| && id in lists[c] ==> id !in lists[d]
    ensures forall id: UInt32 :: id in m <==> exists c :: 0 <= c < |CHANNELS| && id in lists[c]
  {
    forall c, d, id | 0 <= c < d < |CHANNELS| && id in lists[c] ensures id !in lists[d] {
      assert On(m, CHANNELS[c], id);
      assert ChannelIndex(CHANNELS[c]) == c && ChannelIndex(CHANNELS[d]) == d;
    }
    forall id: UInt32 | id in m ensures exists c :: 0 <= c < |CHANNELS| && id in lists[c] {
      var c := ChannelIndex(m[id].channel);
      assert On(m, CHANNELS[c], id);
    }
  }

  // ---- what the registrations must be -------------------------------------------------------------

  /** The devices a topic stands for. */
  predicate Stands(m: EcatMap, t: Topic, id: UInt32) {
    id in m && m[id].channel in ChannelsOf(t) && (t.DeviceTopic? ==> t.id == id)
  }

  predicate IsDeviceChannel(c: Channel) {
    c.Imu? || c.PowerBoard? || c.Pump? || c.ForceTorque?
  }

  /** A topic is due if it stands for some device; a device's own topic carries its configured name. */
  ghost predicate Due(m: EcatMap, names: Names, t: Topic) {
    match t
    case AggregateTopic(_) => exists id :: Stands(m, t, id)
    case DeviceTopic(c, id, name) =>
      IsDeviceChannel(c) && On(m, c, id) && id in names && names[id] == name
  }

  predicate Has(plan: seq<Registration>, t: Topic) {
    exists i :: 0 <= i < |plan| && plan[i].topic == t
  }

  ghost predicate Right(m: EcatMap, r: Registration) {
    && r.channels == ChannelsOf(r.topic) && r.ids != []
    && NoDuplicates(r.ids) && forall id: UInt32 :: id in r.ids <==> Stands(m, r.topic, id)
  }

  datatype Class = Summary(aggregate: Aggregate) | Single(channel: Channel)

  function ClassOf(t: Topic): Class {
    match t
    case AggregateTopic(a) => Summary(a)
    case DeviceTopic(c, _, _) => Single(c)
  }

  /** For the classes done, exactly the due topics are registered, once each and for the right devices. */
  ghost predicate Wired(m: EcatMap, names: Names, plan: seq<Registration>, done: set<Class>) {
    && (forall i, j :: 0 <= i < j < |plan| ==> plan[i].topic != plan[j].topic)
    && (forall i :: 0 <= i < |plan| ==> ClassOf(plan[i].topic) in done && Right(m, plan[i]))
    && (forall t: Topic :: ClassOf(t) in done ==> (Has(plan, t) <==> Due(m, names, t)))
  }

  const SUMMARIES: set<Class> := {Summary(JointState), Summary(Motors), Summary(Grippers), Summary(Valves)}

  const SINGLES: set<Class> := {
    Single(Channel.Imu), Single(Channel.PowerBoard), Single(Channel.Pump), Single(Channel.ForceTorque)}

  lemma WiredConcat(m: EcatMap, names: Names, a: seq<Registration>, b: seq<Registration>,
                    first: set<Class>, second: set<Class>)
    requires Wired(m, names, a, first) && Wired(m, names, b, second) && first !! second
    ensures Wired(m, names, a + b, first + second)
  {
    var plan := a + b;
    forall t: Topic ensures Has(plan, t) <==> Has(a, t) || Has(b, t) {
      if Has(a, t) {
        var i :| 0 <= i < |a| && a[i].topic == t;
        assert plan[i].topic == t;
      }
      if Has(b, t) {
        var i :| 0 <= i < |b| && b[i].topic == t;
        assert plan[|a| + i].topic == t;
      }
    }
    forall t: Topic | ClassOf(t) in first + second ensures Has(plan, t) <==> Due(m, names, t) {
      if ClassOf(t) in first {
        assert !Has(b, t);
      } else {
        assert !Has(a, t);
      }
    }
  }

  /** An aggregate topic is registered unless it stands for no device. */
  method RegisterAggregate(ghost m: EcatMap, ghost names: Names, a: Aggregate, channels: seq<Channel>, ids: seq<UInt32>)
    returns (regs: seq<Registration>)
    requires channels == ChannelsOf(AggregateTopic(a))
    requires NoDuplicates(ids) && forall id: UInt32 :: id in ids <==> Stands(m, AggregateTopic(a), id)
    ensures Wired(m, names, regs, {Summary(a)})
  {
    var t := AggregateTopic(a);
    if ids == [] {
      return [];
    }
    regs := [Registration(t, channels, ids)];
    assert Stands(m, t, ids[0]);
    assert regs[0].topic == t;
  }

  /** Motor, gripper and valve lists, appended in any order, list the joints without duplicates. */
  lemma JointList(m: EcatMap, a: seq<UInt32>, b: seq<UInt32>, c: seq<UInt32>, x: Channel, y: Channel, z: Channel)
    requires Lists(a, m, x) && Lists(b, m, y) && Lists(c, m, z)
    requires {x, y, z} == {Channel.Motor, Channel.Gripper, Channel.Valve} && x != y && y != z && x != z
    ensures NoDuplicates(a + b + c)
    ensures forall id: UInt32 :: id in a + b + c <==> Stands(m, AggregateTopic(JointState), id)
  {
    assert forall c: Channel :: c in {x, y, z} <==> c in ChannelsOf(AggregateTopic(JointState));
    forall id: UInt32
      ensures id in a + b + c <==> Stands(m, AggregateTopic(JointState), id)
    {
      assert id in a + b + c <==> On(m, x, id) || On(m, y, id) || On(m, z, id);
    }
    var all := a + b + c;
    forall i, j | 0 <= i < j < |all| ensures all[i] != all[j] {
      var p := if i < |a| then x else if i < |a| + |b| then y else z;
      var q := if j < |a| then x else if j < |a| + |b| then y else z;
      assert On(m, p, all[i]) && On(m, q, all[j]);
    }
  }

  // ---- the two backends ---------------------------------------------------------------------------

  /** Cyclone DDS supports one device of each of these kinds, and it must be named. */
  ghost predicate AtMostOneNamed(m: EcatMap, names: Names, c: Channel) {
    && (forall id1: UInt32, id2: UInt32 :: On(m, c, id1) && On(m, c, id2) ==> id1 == id2)
    && (forall id: UInt32 :: On(m, c, id) ==> id in names)
  }

  method DdsDevice(m: EcatMap, order: seq<UInt32>, names: Names, c: Channel)
    returns (ok: bool, regs: seq<Registration>)
    requires Keyed(m) && Orders(order, m) && IsDeviceChannel(c)
    ensures ok <==> AtMostOneNamed(m, names, c)
    ensures ok ==> Wired(m, names, regs, {Single(c)})
  {
    regs := [];
    var ids := DdsFilter(m, order, c);
    if |ids| == 1 {
      var id := ids[0];
      assert On(m, c, id);
      if id !in names {
        return false, regs;
      }
      regs := [Registration(DeviceTopic(c, id, names[id]), [c], ids)];
      assert regs[0].topic == DeviceTopic(c, id, names[id]);
    } else if |ids| > 1 {
      assert On(m, c, ids[0]) && On(m, c, ids[1]);
      return false, regs;
    }
    ok := true;
  }

  function OwnTopic(names: Names, c: Channel, id: UInt32): Registration
    requires id in names
  {
    Registration(DeviceTopic(c, id, names[id]), [c], [id])
  }

  /** One registration for each named device of the list. */
  ghost predicate DevicesOf(names: Names, c: Channel, ids: seq<UInt32>, regs: seq<Registration>) {
    && (forall i :: 0 <= i < |regs| ==>
         && |regs[i].ids| == 1 && regs[i].ids[0] in ids && regs[i].ids[0] in names
         && regs[i] == OwnTopic(names, c, regs[i].ids[0]))
    && (forall i, j :: 0 <= i < j < |regs| ==> regs[i].topic != regs[j].topic)
    && (forall id: UInt32 :: id in ids && id in names ==> Has(regs, OwnTopic(names, c, id).topic))
  }

  lemma DevicesPush(names: Names, c: Channel, ids: seq<UInt32>, regs: seq<Registration>, id: UInt32)
    requires DevicesOf(names, c, ids, regs) && id !in ids
    ensures DevicesOf(names, c, ids + [id], if id in names then regs + [OwnTopic(names, c, id)] else regs)
  {
    if id in names {
      var more := regs + [OwnTopic(names, c, id)];
      assert more[|regs|].topic == OwnTopic(names, c, id).topic;
      forall x: UInt32 | x in ids && x in names ensures Has(more, OwnTopic(names, c, x).topic) {
        var i :| 0 <= i < |regs| && regs[i].topic == OwnTopic(names, c, x).topic;
        assert more[i].topic == OwnTopic(names, c, x).topic;
      }
    }
  }

  function OwnIfNamed(names: Names, c: Channel): UInt32 -> Option<Registration> {
    (id: UInt32) => if id in names then Some(OwnTopic(names, c, id)) else None
  }

  lemma DevicesNext(names: Names, c: Channel, ids: seq<UInt32>, k: nat)
    requires NoDuplicates(ids) && k < |ids|
    requires DevicesOf(names, c, ids[..k], Collect(OwnIfNamed(names, c), ids[..k]))
    ensures DevicesOf(names, c, ids[..k + 1], Collect(OwnIfNamed(names, c), ids[..k + 1]))
  {
    OrderNext(ids, k);
    CollectPush(OwnIfNamed(names, c), ids[..k], ids[k]);
    DevicesPush(names, c, ids[..k], Collect(OwnIfNamed(names, c), ids[..k]), ids[k]);
  }

  lemma {:induction false} DevicesUpTo(names: Names, c: Channel, ids: seq<UInt32>, k: nat)
    requires NoDuplicates(ids) && k <= |ids|
    ensures DevicesOf(names, c, ids[..k], Collect(OwnIfNamed(names, c), ids[..k]))
  {
    if k > 0 {
      DevicesUpTo(names, c, ids, k - 1);
      DevicesNext(names, c, ids, k - 1);
    }
  }

  lemma DevicesCollected(names: Names, c: Channel, ids: seq<UInt32>)
    requires NoDuplicates(ids)
    ensures DevicesOf(names, c, ids, Collect(OwnIfNamed(names, c), ids))
  {
    DevicesUpTo(names, c, ids, |ids|);
    assert ids[..|ids|] == ids;
  }

  lemma DevicesAreWired(m: EcatMap, names: Names, c: Channel, ids: seq<UInt32>, regs: seq<Registration>)
    requires IsDeviceChannel(c) && Lists(ids, m, c) && DevicesOf(names, c, ids, regs)
    ensures Wired(m, names, regs, {Single(c)})
  {
    forall t: Topic | ClassOf(t) == Single(c) ensures Has(regs, t) <==> Due(m, names, t) {
      if Due(m, names, t) {
        assert t == OwnTopic(names, c, t.id).topic;
      }
      if Has(regs, t) {
        var i :| 0 <= i < |regs| && regs[i].topic == t;
        assert On(m, c, t.id);
      }
    }
    forall i | 0 <= i < |regs| ensures Right(m, regs[i]) {
      assert On(m, c, regs[i].ids[0]);
    }
  }

  lemma NoneSkippedIff(names: Names, c: Channel, ids: seq<UInt32>)
    ensures |Collect(OwnIfNamed(names, c), ids)| == |ids| <==> forall i :: 0 <= i < |ids| ==> ids[i] in names
  {
    CollectKept(OwnIfNamed(names, c), ids);
    KeptAll(OwnIfNamed(names, c), ids);
  }

  /** Zenoh skips the unnamed devices of a list, and reports them. */
  method RegisterDevices(names: Names, c: Channel, ids: seq<UInt32>) returns (ok: bool, regs: seq<Registration>)
    ensures regs == Collect(OwnIfNamed(names, c), ids)
    ensures ok <==> |regs| == |ids|
  {
    ok, regs := true, [];
    ghost var f := OwnIfNamed(names, c);
    for k := 0 to |ids|
      invariant regs == Collect(f, ids[..k])
      invariant |regs| <= k && (ok <==> |regs| == k)
    {
      CollectPush(f, ids[..k], ids[k]);
      assert ids[..k + 1] == ids[..k] + [ids[k]];
      if ids[k] in names {
        regs := regs + [OwnTopic(names, c, ids[k])];
      } else {
        ok := false;
      }
    }
    assert ids[..|ids|] == ids;
  }

  method ZenohDevices(m: EcatMap, order: seq<UInt32>, names: Names, c: Channel)
    returns (ok: bool, regs: seq<Registration>)
    requires Orders(order, m) && IsDeviceChannel(c)
    ensures ok <==> forall id: UInt32 :: On(m, c, id) ==> id in names
    ensures Wired(m, names, regs, {Single(c)})
  {
    var ids := ZenohFilter(m, order, c);
    ok, regs := RegisterDevices(names, c, ids);
    NoneSkippedIff(names, c, ids);
    DevicesCollected(names, c, ids);
    DevicesAreWired(m, names, c, ids, regs);
    assert forall id: UInt32 :: On(m, c, id) ==> id in ids;
    assert forall i :: 0 <= i < |ids| ==> On(m, c, ids[i]);
  }

  method DdsSummaries(m: EcatMap, order: seq<UInt32>, ghost names: Names) returns (plan: seq<Registration>)
    requires Keyed(m) && Orders(order, m)
    ensures Wired(m, names, plan, SUMMARIES)
  {
    var motorIds := DdsFilter(m, order, Channel.Motor);
    var gripperIds := DdsFilter(m, order, Channel.Gripper);
    var valveIds := DdsFilter(m, order, Channel.Valve);
    JointList(m, motorIds, gripperIds, valveIds, Channel.Motor, Channel.Gripper, Channel.Valve);
    var jointIds := motorIds + gripperIds + valveIds;
    plan := RegisterAggregate(m, names, JointState, [Channel.Motor, Channel.Gripper, Channel.Valve], jointIds);
    var motors := RegisterAggregate(m, names, Motors, [Channel.Motor], motorIds);
    WiredConcat(m, names, plan, motors, {Summary(JointState)}, {Summary(Motors)});
    plan := plan + motors;
    var grippers := RegisterAggregate(m, names, Grippers, [Channel.Gripper], gripperIds);
    WiredConcat(m, names, plan, grippers, {Summary(JointState), Summary(Motors)}, {Summary(Grippers)});
    plan := plan + grippers;
    var valves := RegisterAggregate(m, names, Valves, [Channel.Valve], valveIds);
    WiredConcat(m, names, plan, valves, {Summary(JointState), Summary(Motors), Summary(Grippers)}, {Summary(Valves)});
    plan := plan + valves;
  }

  method ZenohSummaries(m: EcatMap, order: seq<UInt32>, ghost names: Names) returns (plan: seq<Registration>)
    requires Orders(order, m)
    ensures Wired(m, names, plan, SUMMARIES)
  {
    var motorIds := ZenohFilter(m, order, Channel.Motor);
    var valveIds := ZenohFilter(m, order, Channel.Valve);
    var gripperIds := ZenohFilter(m, order, Channel.Gripper);
    JointList(m, motorIds, valveIds, gripperIds, Channel.Motor, Channel.Valve, Channel.Gripper);
    var jointIds := motorIds + valveIds + gripperIds;
    plan := RegisterAggregate(m, names, JointState, [Channel.Motor, Channel.Gripper, Channel.Valve], jointIds);
    var motors := RegisterAggregate(m, names, Motors, [Channel.Motor], motorIds);
    WiredConcat(m, names, plan, motors, {Summary(JointState)}, {Summary(Motors)});
    plan := plan + motors;
    var valves := RegisterAggregate(m, names, Valves, [Channel.Valve], valveIds);
    WiredConcat(m, names, plan, valves, {Summary(JointState), Summary(Motors)}, {Summary(Valves)});
    plan := plan + valves;
    var grippers := RegisterAggregate(m, names, Grippers, [Channel.Gripper], gripperIds);
    WiredConcat(m, names, plan, grippers, {Summary(JointState), Summary(Motors), Summary(Valves)}, {Summary(Grippers)});
    plan := plan + grippers;
  }

  /** The single-device channels, in the order Cyclone DDS registers them. */
  const DEVICE_CHANNELS: seq<Channel> := [Channel.Imu, Channel.PowerBoard, Channel.Pump, Channel.ForceTorque]

  /** The classes of the first `k` single-device channels. */
  function FirstSingles(k: nat): set<Class>
    requires k <= |DEVICE_CHANNELS|
  {
    set i | 0 <= i < k :: Single(DEVICE_CHANNELS[i])
  }

  lemma AllSingles()
    ensures DEVICE_CHANNELS == [Channel.Imu, Channel.PowerBoard, Channel.Pump, Channel.ForceTorque]
    ensures FirstSingles(|DEVICE_CHANNELS|) == SINGLES && SUMMARIES !! SINGLES
    ensures forall c: Channel :: IsDeviceChannel(c) <==>
              exists i :: 0 <= i < |DEVICE_CHANNELS| && DEVICE_CHANNELS[i] == c
  {
    forall c: Channel | IsDeviceChannel(c)
      ensures exists i :: 0 <= i < |DEVICE_CHANNELS| && DEVICE_CHANNELS[i] == c
    {
      assert DEVICE_CHANNELS[if c.Imu? then 0 else if c.PowerBoard? then 1 else if c.Pump? then 2 else 3] == c;
    }
    assert FirstSingles(4) == SINGLES by {
      assert DEVICE_CHANNELS[0] == Channel.Imu && DEVICE_CHANNELS[1] == Channel.PowerBoard;
      assert DEVICE_CHANNELS[2] == Channel.Pump && DEVICE_CHANNELS[3] == Channel.ForceTorque;
    }
  }

  lemma NextSingle(m: EcatMap, names: Names, plan: seq<Registration>, regs: seq<Registration>, k: nat)
    requires k < |DEVICE_CHANNELS|
    requires Wired(m, names, plan, SUMMARIES + FirstSingles(k))
    requires Wired(m, names, regs, {Single(DEVICE_CHANNELS[k])})
    ensures Wired(m, names, plan + regs, SUMMARIES + FirstSingles(k + 1))
  {
    WiredConcat(m, names, plan, regs, SUMMARIES + FirstSingles(k), {Single(DEVICE_CHANNELS[k])});
    assert SUMMARIES + FirstSingles(k + 1) == SUMMARIES + FirstSingles(k) + {Single(DEVICE_CHANNELS[k])};
  }

  /** The `k`-th single-device channel is the first with several devices or an unnamed one; what comes before it
      is registered, and nothing else. */
  ghost predicate GaveUpAt(m: EcatMap, names: Names, plan: seq<Registration>, k: nat) {
    && k < |DEVICE_CHANNELS| && !AtMostOneNamed(m, names, DEVICE_CHANNELS[k])
    && (forall i :: 0 <= i < k ==> AtMostOneNamed(m, names, DEVICE_CHANNELS[i]))
    && Wired(m, names, plan, SUMMARIES + FirstSingles(k))
  }

  /** Cyclone DDS gives up at the first device kind that occurs twice or is not named. */
  method DdsInit(m: EcatMap, order: seq<UInt32>, names: Names) returns (ok: bool, plan: seq<Registration>)
    requires Keyed(m) && Orders(order, m)
    ensures ok <==> && AtMostOneNamed(m, names, Channel.Imu) && AtMostOneNamed(m, names, Channel.PowerBoard)
                    && AtMostOneNamed(m, names, Channel.Pump) && AtMostOneNamed(m, names, Channel.ForceTorque)
    ensures ok ==> Wired(m, names, plan, SUMMARIES + SINGLES)
    ensures !ok ==> exists k :: GaveUpAt(m, names, plan, k)
  {
    plan := DdsSummaries(m, order, names);
    AllSingles();
    assert SUMMARIES + FirstSingles(0) == SUMMARIES;
    for k := 0 to |DEVICE_CHANNELS|
      invariant forall i :: 0 <= i < k ==> AtMostOneNamed(m, names, DEVICE_CHANNELS[i])
      invariant Wired(m, names, plan, SUMMARIES + FirstSingles(k))
    {
      var named, regs := DdsDevice(m, order, names, DEVICE_CHANNELS[k]);
      if !named {
        assert GaveUpAt(m, names, plan, k);
        return false, plan;
      }
      NextSingle(m, names, plan, regs, k);
      plan := plan + regs;
    }
    ok := true;
  }

  /** Zenoh registers whatever is named, and reports what is not. */
  method ZenohInit(m: EcatMap, order: seq<UInt32>, names: Names) returns (ok: bool, plan: seq<Registration>)
    requires Orders(order, m)
    ensures ok <==> forall id: UInt32 ::
              id in m && m[id].channel in {Channel.Imu, Channel.PowerBoard, Channel.Pump, Channel.ForceTorque} ==>
                id in names
    ensures Wired(m, names, plan, SUMMARIES + SINGLES)
  {
    plan := ZenohSummaries(m, order, names);
    ok := true;
    AllSingles();
    assert SUMMARIES + FirstSingles(0) == SUMMARIES;
    for k := 0 to |DEVICE_CHANNELS|
      invariant ok <==> forall i, id: UInt32 :: 0 <= i < k && On(m, DEVICE_CHANNELS[i], id) ==> id in names
      invariant Wired(m, names, plan, SUMMARIES + FirstSingles(k))
    {
      var named, regs := ZenohDevices(m, order, names, DEVICE_CHANNELS[k]);
      NextSingle(m, names, plan, regs, k);
      ok, plan := ok && named, plan + regs;
    }
  }

  /** A registration made by either backend never accepts all IDs, never meets a duplicate, and its mask is
      exactly the IDs below 256 its topic stands for. */
  lemma MaskIsListedIds(m: EcatMap, names: Names, plan: seq<Registration>, done: set<Class>, i: nat)
    requires Wired(m, names, plan, done) && i < |plan|
    ensures plan[i].ids != []
    ensures forall k :: 0 <= k < |plan[i].ids| ==> plan[i].ids[k] !in MaskOf(plan[i].ids[..k])
    ensures forall id: UInt32 :: id in MaskOf(plan[i].ids) <==> Stands(m, plan[i].topic, id) && id < 256
  {
    assert Right(m, plan[i]);
  }

  lemma OnlyOne(ids: seq<UInt32>, id: UInt32)
    requires NoDuplicates(ids) && ids != [] && forall k :: 0 <= k < |ids| ==> ids[k] == id
    ensures ids == [id]
  {
    assert ids[|ids| - 1] == ids[0];
  }

  lemma OwnRegistration(m: EcatMap, names: Names, plan: seq<Registration>, done: set<Class>, i: nat)
    requires Wired(m, names, plan, done) && i < |plan| && plan[i].topic.DeviceTopic?
    ensures plan[i].channels == [plan[i].topic.channel] && plan[i].ids == [plan[i].topic.id]
  {
    var r := plan[i];
    assert Right(m, r);
    forall k | 0 <= k < |r.ids| ensures r.ids[k] == r.topic.id {
      assert Stands(m, r.topic, r.ids[k]);
    }
    OnlyOne(r.ids, r.topic.id);
  }

  /** Each discovered IMU, power board, pump and force/torque sensor that has a name is registered on its own: for
      its channel, for its ID alone, under its name; and no others are. */
  lemma SinglesAreRegistered(m: EcatMap, names: Names, plan: seq<Registration>, c: Channel, id: UInt32, name: string)
    requires Wired(m, names, plan, SUMMARIES + SINGLES)
    ensures Registration(DeviceTopic(c, id, name), [c], [id]) in plan <==>
            && (c == Channel.Imu || c == Channel.PowerBoard || c == Channel.Pump || c == Channel.ForceTorque)
            && id in m && m[id].channel == c && id in names && names[id] == name
  {
    var t := DeviceTopic(c, id, name);
    if ClassOf(t) in SUMMARIES + SINGLES {
      assert Has(plan, t) <==> Due(m, names, t);
      if Due(m, names, t) {
        var i :| 0 <= i < |plan| && plan[i].topic == t;
        OwnRegistration(m, names, plan, SUMMARIES + SINGLES, i);
        assert plan[i] == Registration(t, [c], [id]);
      }
    }
    if Registration(t, [c], [id]) in plan {
      var i :| 0 <= i < |plan| && plan[i] == Registration(t, [c], [id]);
      assert Has(plan, t);
    }
  }

  function FilterOf(r: Registration): Selection.Filter {
    Selection.Filter(r.channels, r.ids == [], MaskOf(r.ids))
  }

  /** From discovery to the wire: whatever backend, order and run, a message on a topic means that each of the
      topic's devices with an ID below 256 was received in that cycle. */
  lemma EveryDeviceBehindAMessage(m: EcatMap, names: Names, plan: seq<Registration>, done: set<Class>, i: nat,
                                  backend: Publishers.Backend, kind: Messages.Kind, history: seq<CycleInput>)
    requires Wired(m, names, plan, done) && i < |plan| && history != []
    ensures PublishedHistory.Contribution(backend, kind, FilterOf(plan[i]), history) != [] ==>
              forall id: UInt32 :: Stands(m, plan[i].topic, id) && id < 256 ==>
                PublishedHistory.ReceivedNow(FilterOf(plan[i]), history, id)
  {
    MaskIsListedIds(m, names, plan, done, i);
    PublishedHistory.CompleteMeansAllReceived(FilterOf(plan[i]), history);
  }

  /** Two backends, two iteration orders of the map: the same topics, each with the same channels in the same
      order and the same mask. */
  lemma BackendsWireAlike(m: EcatMap, names: Names, a: seq<Registration>, b: seq<Registration>, done: set<Class>)
    requires Wired(m, names, a, done) && Wired(m, names, b, done)
    ensures forall t: Topic :: Has(a, t) <==> Has(b, t)
    ensures forall i, j :: 0 <= i < |a| && 0 <= j < |b| && a[i].topic == b[j].topic ==>
              a[i].channels == b[j].channels && MaskOf(a[i].ids) == MaskOf(b[j].ids)
    ensures |a| == |b|
  {
    forall t: Topic ensures Has(a, t) <==> Has(b, t) {
      if ClassOf(t) !in done {
        assert !Has(a, t) && !Has(b, t);
      }
    }
    forall i, j | 0 <= i < |a| && 0 <= j < |b| && a[i].topic == b[j].topic
      ensures a[i].channels == b[j].channels && MaskOf(a[i].ids) == MaskOf(b[j].ids)
    {
      assert Right(m, a[i]) && Right(m, b[j]);
      assert forall id: UInt32 :: id in a[i].ids <==> id in b[j].ids;
    }
    NoMore(a, b);
    NoMore(b, a);
  }

  function TopicsOf(plan: seq<Registration>): set<Topic> {
    set i | 0 <= i < |plan| :: plan[i].topic
  }

  lemma {:induction false} CountTopics(plan: seq<Registration>)
    requires forall i, j :: 0 <= i < j < |plan| ==> plan[i].topic != plan[j].topic
    ensures |TopicsOf(plan)| == |plan|
  {
    if plan != [] {
      var n := |plan| - 1;
      CountTopics(plan[..n]);
      assert TopicsOf(plan) == TopicsOf(plan[..n]) + {plan[n].topic};
      assert plan[n].topic !in TopicsOf(plan[..n]);
    }
  }

  lemma NoMore(a: seq<Registration>, b: seq<Registration>)
    requires forall i, j :: 0 <= i < j < |a| ==> a[i].topic != a[j].topic
    requires forall i, j :: 0 <= i < j < |b| ==> b[i].topic != b[j].topic
    requires forall t: Topic :: Has(a, t) ==> Has(b, t)
    ensures |a| <= |b|
  {
    CountTopics(a);
    CountTopics(b);
    forall t | t in TopicsOf(a) ensures t in TopicsOf(b) {
      assert Has(a, t);
    }
    SubsetSize(TopicsOf(a), TopicsOf(b));
  }
}
