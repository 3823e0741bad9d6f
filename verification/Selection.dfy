/**
 * What one subscription is given in one cycle, as a function of the channel logs:
 * no flags, no bitsets. An ID counts as arrived on a channel when the cycle's
 * batch carries it, and the first listed channel on which it arrived delivers it.
 */
module Selection {
  import opened Wrappers
  import opened Pdos
  import opened ReceiveCache
  import opened Publishers

  /** A subscription's filter. With `acceptAll`, the allowlist is not consulted. */
  datatype Filter = Filter(channels: seq<Channel>, acceptAll: bool, allowed: set<nat>)

  predicate OneLogPerChannel(logs: seq<ChannelLog>) { |logs| == |CHANNELS| }

  function LogOf(logs: seq<ChannelLog>, c: Channel): ChannelLog
    requires OneLogPerChannel(logs)
  {
    logs[ChannelIndex(c)]
  }

  predicate Allows(f: Filter, id: nat) { f.acceptAll || id in f.allowed }

  predicate Arrived(log: ChannelLog, id: nat) { LatestFor(log.batch, id).Some? }

  /** The ID arrived on one of the first `k` listed channels. */
  predicate Taken(logs: seq<ChannelLog>, f: Filter, k: nat, id: nat)
    requires OneLogPerChannel(logs) && k <= |f.channels|
  {
    exists j :: 0 <= j < k && Arrived(LogOf(logs, f.channels[j]), id)
  }

  /** Listed channel `k` delivers the ID. */
  predicate Delivers(logs: seq<ChannelLog>, f: Filter, k: nat, id: nat)
    requires OneLogPerChannel(logs) && k < |f.channels|
  {
    Arrived(LogOf(logs, f.channels[k]), id) && Allows(f, id) && !Taken(logs, f, k, id)
  }

  /** The PDOs channel `k` delivers among `ids`, in that order. */
  function PickFrom(logs: seq<ChannelLog>, f: Filter, k: nat, ids: seq<nat>): seq<Pdo>
    requires OneLogPerChannel(logs) && k < |f.channels|
  {
    if ids == [] then []
    else
      var id := ids[|ids| - 1];
      var before := PickFrom(logs, f, k, ids[..|ids| - 1]);
      if Delivers(logs, f, k, id) then before + [LatestFor(LogOf(logs, f.channels[k]).batch, id).value] else before
  }

  /** Everything the first `k` listed channels deliver: channel by channel, each in first-seen order. */
  function Selected(logs: seq<ChannelLog>, f: Filter, k: nat): seq<Pdo>
    requires OneLogPerChannel(logs) && k <= |f.channels|
  {
    if k == 0 then []
    else Selected(logs, f, k - 1) +
         PickFrom(logs, f, k - 1, FirstSeen(LogOf(logs, f.channels[k - 1]).All()))
  }

  function SelectedAll(logs: seq<ChannelLog>, f: Filter): seq<Pdo>
    requires OneLogPerChannel(logs)
  {
    Selected(logs, f, |f.channels|)
  }

  /** IDs delivered by the first `k` listed channels. */
  function SeenIds(logs: seq<ChannelLog>, f: Filter, k: nat): set<nat>
    requires OneLogPerChannel(logs) && k <= |f.channels|
  {
    set id: nat | 0 <= id < MAX_ECAT_IDS && Allows(f, id) && Taken(logs, f, k, id)
  }

  /** A cycle is complete when every allowed ID arrived, or anything at all when all are accepted. */
  predicate Complete(logs: seq<ChannelLog>, f: Filter)
    requires OneLogPerChannel(logs)
  {
    if f.acceptAll then SeenIds(logs, f, |f.channels|) != {}
    else SeenIds(logs, f, |f.channels|) == f.allowed
  }

  function Consumes(ps: seq<Pdo>): seq<Call> {
    seq(|ps|, i requires 0 <= i < |ps| => Consume(ps[i]))
  }

  /** The calls a publisher receives in one cycle. */
  function CycleCalls(ps: seq<Pdo>, valid: bool): seq<Call> {
    [Begin] + Consumes(ps) + [End(valid)]
  }

  lemma CycleCallsAppend(calls: seq<Call>, ps: seq<Pdo>, valid: bool)
    ensures calls + [Begin] + Consumes(ps) + [End(valid)] == calls + CycleCalls(ps, valid)
  {
  }

  lemma PickPush(logs: seq<ChannelLog>, f: Filter, k: nat, ids: seq<nat>, id: nat)
    requires OneLogPerChannel(logs) && k < |f.channels|
    ensures PickFrom(logs, f, k, ids + [id]) ==
            if Delivers(logs, f, k, id) then
              PickFrom(logs, f, k, ids) + [LatestFor(LogOf(logs, f.channels[k]).batch, id).value]
            else PickFrom(logs, f, k, ids)
  {
    assert (ids + [id])[..|ids|] == ids;
  }

  /** One more channel: IDs it delivers become seen. */
  lemma SeenNext(logs: seq<ChannelLog>, f: Filter, k: nat)
    requires OneLogPerChannel(logs) && k < |f.channels|
    ensures SeenIds(logs, f, k + 1) ==
            SeenIds(logs, f, k) +
            DeliveredIn(logs, f, k, FirstSeen(LogOf(logs, f.channels[k]).All()))
  {
    var log := LogOf(logs, f.channels[k]);
    FirstSeenMeaning(log.All());
    forall id: nat
      ensures Taken(logs, f, k + 1, id) <==> Taken(logs, f, k, id) || Arrived(log, id)
      ensures Arrived(log, id) ==> id in FirstSeen(log.All())
    {
      LatestForConcat(log.earlier, log.batch, id);
      if Arrived(log, id) {
        assert log == LogOf(logs, f.channels[k]);
      }
    }
  }

  // ---- what the selection means --------------------------------------------------------------

  /** A picked PDO: the latest of its ID in this cycle's batch of channel `k`, on no earlier channel. */
  predicate PickedBy(logs: seq<ChannelLog>, f: Filter, k: nat, p: Pdo)
    requires OneLogPerChannel(logs) && k < |f.channels|
  {
    && SlotOf(p).Some? && Delivers(logs, f, k, SlotOf(p).value)
    && LatestFor(LogOf(logs, f.channels[k]).batch, SlotOf(p).value) == Some(p)
  }

  predicate PickedBefore(logs: seq<ChannelLog>, f: Filter, k: nat, p: Pdo)
    requires OneLogPerChannel(logs) && k <= |f.channels|
  {
    exists j :: 0 <= j < k && PickedBy(logs, f, j, p)
  }

  lemma {:induction false} PickFromMeaning(logs: seq<ChannelLog>, f: Filter, k: nat, ids: seq<nat>)
    requires OneLogPerChannel(logs) && k < |f.channels| && NoDuplicates(ids)
    ensures var ps := PickFrom(logs, f, k, ids);
            && (forall p :: p in ps ==> PickedBy(logs, f, k, p) && SlotOf(p).value in ids)
            && (forall id :: id in ids && Delivers(logs, f, k, id) ==>
                  exists p :: p in ps && SlotOf(p) == Some(id))
            && (forall i, j :: 0 <= i < j < |ps| ==> SlotOf(ps[i]) != SlotOf(ps[j]))
  {
    if ids != [] {
      var n := |ids| - 1;
      var before, id := ids[..n], ids[n];
      assert ids == before + [id];
      PickFromMeaning(logs, f, k, before);
      if Delivers(logs, f, k, id) {
        LatestForSlot(LogOf(logs, f.channels[k]).batch, id);
        var p := LatestFor(LogOf(logs, f.channels[k]).batch, id).value;
        assert PickFrom(logs, f, k, ids) == PickFrom(logs, f, k, before) + [p];
      }
    }
  }

  /** What a channel delivers comes in the order of the list. */
  lemma {:induction false} PickedInOrder(logs: seq<ChannelLog>, f: Filter, k: nat, ids: seq<nat>, i: nat, j: nat)
    returns (a: nat, b: nat)
    requires OneLogPerChannel(logs) && k < |f.channels|
    requires i < j < |PickFrom(logs, f, k, ids)|
    ensures a < b < |ids|
    ensures SlotOf(PickFrom(logs, f, k, ids)[i]) == Some(ids[a])
    ensures SlotOf(PickFrom(logs, f, k, ids)[j]) == Some(ids[b])
  {
    var n := |ids| - 1;
    var before := PickFrom(logs, f, k, ids[..n]);
    if j < |before| {
      a, b := PickedInOrder(logs, f, k, ids[..n], i, j);
    } else {
      a := PickedSomewhere(logs, f, k, ids[..n], i);
      b := n;
      LatestForSlot(LogOf(logs, f.channels[k]).batch, ids[n]);
    }
  }

  lemma {:induction false} PickedSomewhere(logs: seq<ChannelLog>, f: Filter, k: nat, ids: seq<nat>, i: nat)
    returns (a: nat)
    requires OneLogPerChannel(logs) && k < |f.channels| && i < |PickFrom(logs, f, k, ids)|
    ensures a < |ids| && SlotOf(PickFrom(logs, f, k, ids)[i]) == Some(ids[a])
  {
    var n := |ids| - 1;
    if i < |PickFrom(logs, f, k, ids[..n])| {
      a := PickedSomewhere(logs, f, k, ids[..n], i);
    } else {
      a := n;
      LatestForSlot(LogOf(logs, f.channels[k]).batch, ids[n]);
    }
  }

  predicate DistinctSlots(ps: seq<Pdo>) {
    forall i, j :: 0 <= i < j < |ps| ==> SlotOf(ps[i]) != SlotOf(ps[j])
  }

  /** Every delivered PDO is the cycle's latest of its ID on the first listed channel where the ID
      arrived; every allowed ID that arrived is delivered; and no ID twice. */
  ghost predicate DeliveredOnce(logs: seq<ChannelLog>, f: Filter, k: nat)
    requires OneLogPerChannel(logs) && k <= |f.channels|
  {
    var ps := Selected(logs, f, k);
    && (forall p :: p in ps ==> PickedBefore(logs, f, k, p))
    && (forall id :: id in SeenIds(logs, f, k) <==> exists p :: p in ps && SlotOf(p) == Some(id))
    && DistinctSlots(ps)
  }

  lemma SelectedMeaning(logs: seq<ChannelLog>, f: Filter)
    requires OneLogPerChannel(logs)
    ensures DeliveredOnce(logs, f, |f.channels|)
  {
    SelectedUpTo(logs, f, |f.channels|);
  }

  lemma {:induction false} SelectedUpTo(logs: seq<ChannelLog>, f: Filter, k: nat)
    requires OneLogPerChannel(logs) && k <= |f.channels|
    ensures DeliveredOnce(logs, f, k)
  {
    if k == 0 {
      NothingAtFirst(logs, f);
    } else {
      var j := k - 1;
      SelectedUpTo(logs, f, j);
      SelectedStep(logs, f, j, k);
    }
  }

  lemma NothingAtFirst(logs: seq<ChannelLog>, f: Filter)
    requires OneLogPerChannel(logs)
    ensures DeliveredOnce(logs, f, 0)
  {
    assert Selected(logs, f, 0) == [] && SeenIds(logs, f, 0) == {};
  }

  lemma SelectedStep(logs: seq<ChannelLog>, f: Filter, k: nat, next: nat)
    requires OneLogPerChannel(logs) && k < |f.channels| && next == k + 1
    requires DeliveredOnce(logs, f, k)
    ensures DeliveredOnce(logs, f, next)
  {
    var ids := FirstSeen(LogOf(logs, f.channels[k]).All());
    FirstSeenMeaning(LogOf(logs, f.channels[k]).All());
    PickFromMeaning(logs, f, k, ids);
    var now := PickFrom(logs, f, k, ids);
    var then_ := Selected(logs, f, k);
    var all := Selected(logs, f, k + 1);
    assert all == then_ + now;
    forall p | p in all ensures PickedBefore(logs, f, k + 1, p) {
      if p in now {
        assert PickedBy(logs, f, k, p);
      } else {
        assert PickedBefore(logs, f, k, p);
      }
    }
    ChannelsDeliverApart(logs, f, k);
    forall id: nat
      ensures id in SeenIds(logs, f, k + 1) <==> exists p :: p in all && SlotOf(p) == Some(id)
    {
      SeenNext(logs, f, k);
      SlotsOfConcat(then_, now, id);
      assert (exists p :: p in now && SlotOf(p) == Some(id)) <==> id in ids && Delivers(logs, f, k, id);
    }
  }

  lemma SlotsOfConcat(a: seq<Pdo>, b: seq<Pdo>, id: nat)
    ensures (exists p :: p in a + b && SlotOf(p) == Some(id)) <==>
            (exists p :: p in a && SlotOf(p) == Some(id)) || (exists p :: p in b && SlotOf(p) == Some(id))
  {
  }

  /** No channel delivers an ID that an earlier listed channel delivered. */
  lemma ChannelsDeliverApart(logs: seq<ChannelLog>, f: Filter, k: nat)
    requires OneLogPerChannel(logs) && k < |f.channels|
    requires DeliveredOnce(logs, f, k)
    ensures DistinctSlots(Selected(logs, f, k + 1))
  {
    var ids := FirstSeen(LogOf(logs, f.channels[k]).All());
    FirstSeenMeaning(LogOf(logs, f.channels[k]).All());
    PickFromMeaning(logs, f, k, ids);
    var then_, now := Selected(logs, f, k), PickFrom(logs, f, k, ids);
    forall i, j | 0 <= i < |then_| && 0 <= j < |now| ensures SlotOf(then_[i]) != SlotOf(now[j]) {
      assert then_[i] in then_ && now[j] in now;
      assert PickedBefore(logs, f, k, then_[i]);
      var m :| 0 <= m < k && PickedBy(logs, f, m, then_[i]);
      assert Taken(logs, f, k, SlotOf(then_[i]).value);
      assert PickedBy(logs, f, k, now[j]);
    }
    assert Selected(logs, f, k + 1) == then_ + now;
  }

  lemma ConsumesPush(ps: seq<Pdo>, p: Pdo)
    ensures Consumes(ps + [p]) == Consumes(ps) + [Consume(p)]
  {
  }

  lemma ConsumesConcat(a: seq<Pdo>, b: seq<Pdo>)
    ensures Consumes(a + b) == Consumes(a) + Consumes(b)
  {
  }

  /** The calls made so far, extended by what one more channel delivers. */
  lemma SelectedNext(calls: seq<Call>, logs: seq<ChannelLog>, f: Filter, k: nat)
    requires OneLogPerChannel(logs) && k < |f.channels|
    ensures calls + Consumes(Selected(logs, f, k)) +
            Consumes(PickFrom(logs, f, k, FirstSeen(LogOf(logs, f.channels[k]).All()))) ==
            calls + Consumes(Selected(logs, f, k + 1))
  {
    var before, now := Selected(logs, f, k), PickFrom(logs, f, k, FirstSeen(LogOf(logs, f.channels[k]).All()));
    assert Selected(logs, f, k + 1) == before + now;
    ConsumesConcat(before, now);
    ConcatAssoc(calls, Consumes(before), Consumes(now));
  }

  function DeliveredIn(logs: seq<ChannelLog>, f: Filter, k: nat, ids: seq<nat>): set<nat>
    requires OneLogPerChannel(logs) && k < |f.channels|
  {
    set id | id in ids && Delivers(logs, f, k, id)
  }

  lemma DeliveredPush(logs: seq<ChannelLog>, f: Filter, k: nat, ids: seq<nat>, id: nat)
    requires OneLogPerChannel(logs) && k < |f.channels|
    ensures DeliveredIn(logs, f, k, ids + [id]) ==
            DeliveredIn(logs, f, k, ids) + (if Delivers(logs, f, k, id) then {id} else {})
  {
  }

  /** The three skip tests of the dispatch loop, read off the cache entry of the next listed ID,
      decide exactly whether the channel delivers that ID, and the entry holds what it delivers. */
  lemma DispatchTests(logs: seq<ChannelLog>, f: Filter, k: nat, i: nat, entry: PdoCache, seen: set<nat>)
    requires OneLogPerChannel(logs) && k < |f.channels|
    requires i < |FirstSeen(LogOf(logs, f.channels[k]).All())|
    requires EntryMatches(entry, LogOf(logs, f.channels[k]), FirstSeen(LogOf(logs, f.channels[k]).All())[i])
    requires seen == SeenIds(logs, f, k) +
                     DeliveredIn(logs, f, k, FirstSeen(LogOf(logs, f.channels[k]).All())[..i])
    ensures var log := LogOf(logs, f.channels[k]);
            var ids := FirstSeen(log.All());
            var delivers := Delivers(logs, f, k, ids[i]);
            && (entry.updatedThisCycle && Allows(f, ids[i]) && ids[i] !in seen <==> delivers)
            && (delivers ==> LatestFor(log.batch, ids[i]) == Some(entry.pdo))
            && DeliveredIn(logs, f, k, ids[..i + 1]) ==
               DeliveredIn(logs, f, k, ids[..i]) + (if delivers then {ids[i]} else {})
            && Consumes(PickFrom(logs, f, k, ids[..i + 1])) ==
               (var before := Consumes(PickFrom(logs, f, k, ids[..i]));
                if delivers then before + [Consume(entry.pdo)] else before)
  {
    var log := LogOf(logs, f.channels[k]);
    var ids := FirstSeen(log.All());
    FirstSeenDistinct(log.All());
    LatestForConcat(log.earlier, log.batch, ids[i]);
    assert ids[..i + 1] == ids[..i] + [ids[i]];
    assert ids[i] !in ids[..i];
    PickPush(logs, f, k, ids[..i], ids[i]);
    ConsumesPush(PickFrom(logs, f, k, ids[..i]), entry.pdo);
    DeliveredPush(logs, f, k, ids[..i], ids[i]);
  }
}
