/**
 * The receive adapter: drains every channel into its cache, then walks the caches
 * for each subscription. Flags, slots and bitsets are updated in place; `Valid`
 * says that after any number of registrations and cycles each publisher has been
 * called exactly as the drained history prescribes.
 */
module AdapterPublishers {
  import opened Wrappers
  import opened Pdos
  import opened ReceiveCache
  import opened Messages
  import opened Publishers
  import opened Selection

  /** The batches drained in one cycle. */
  type CycleInput = Batches

  /** Everything channel `c` drained over a history. */
  function DrainedOn(history: seq<CycleInput>, c: nat): seq<Pdo>
    requires c < |CHANNELS|
  {
    if history == [] then []
    else DrainedOn(history[..|history| - 1], c) + history[|history| - 1][c]
  }

  function LogAt(history: seq<CycleInput>, c: nat): ChannelLog
    requires c < |CHANNELS|
  {
    if history == [] then ChannelLog([], [])
    else ChannelLog(DrainedOn(history[..|history| - 1], c), history[|history| - 1][c])
  }

  function LogsAt(history: seq<CycleInput>): (logs: seq<ChannelLog>)
    ensures OneLogPerChannel(logs)
  {
    seq(|CHANNELS|, c requires 0 <= c < |CHANNELS| => LogAt(history, c))
  }

  /** The calls of the cycle that ends `history`. */
  function CallsIn(f: Filter, history: seq<CycleInput>): seq<Call> {
    CycleCalls(SelectedAll(LogsAt(history), f), Complete(LogsAt(history), f))
  }

  /** All calls a publisher receives that was registered after `from` cycles. */
  function CallsSince(f: Filter, history: seq<CycleInput>, from: nat): seq<Call>
    requires from <= |history|
  {
    if |history| == from then []
    else CallsSince(f, history[..|history| - 1], from) + CallsIn(f, history)
  }

  lemma LogAtAll(history: seq<CycleInput>, c: nat)
    requires c < |CHANNELS|
    ensures LogAt(history, c).All() == DrainedOn(history, c)
  {
  }

  lemma CallsSincePush(f: Filter, history: seq<CycleInput>, input: CycleInput, from: nat)
    requires from <= |history|
    ensures CallsSince(f, history + [input], from) ==
            CallsSince(f, history, from) + CallsIn(f, history + [input])
  {
    assert (history + [input])[..|history|] == history;
  }

  lemma LogsPush(history: seq<CycleInput>, input: CycleInput)
    ensures forall c :: 0 <= c < |CHANNELS| ==>
              LogAt(history + [input], c) == ChannelLog(LogAt(history, c).All(), input[c])
  {
    assert (history + [input])[..|history|] == history;
    forall c | 0 <= c < |CHANNELS|
      ensures LogAt(history + [input], c) == ChannelLog(LogAt(history, c).All(), input[c])
    {
      LogAtAll(history, c);
    }
  }

  /** The IDs a registration puts in its mask. */
  function MaskOf(ids: seq<UInt32>): (mask: set<nat>)
    ensures forall id :: id in mask <==> id in ids && id < 256
  {
    set id | id in ids && id < MAX_ECAT_IDS
  }

  method BuildMask(ids: seq<UInt32>) returns (mask: set<nat>)
    ensures mask == MaskOf(ids)
  {
    mask := {};
    for i := 0 to |ids|
      invariant forall id :: id in mask <==> id in ids[..i] && id < MAX_ECAT_IDS
    {
      var id := ids[i];
      if id >= MAX_ECAT_IDS || id in mask {
        continue;
      }
      mask := mask + {id};
    }
  }

  datatype Subscription = Subscription(
    publisher: Publisher, channels: seq<Channel>, idsAllowed: set<nat>, idsSeen: set<nat>, acceptAllIds: bool)
  {
    function FilterOf(): Filter { Filter(channels, acceptAllIds, idsAllowed) }
  }

  /** One cached entry: consumed unless it is stale, not allowed, or its ID was already seen. */
  method DispatchEntry(entry: PdoCache, id: nat, s: Subscription, idsSeen: set<nat>) returns (seen: set<nat>)
    requires s.publisher.Valid()
    modifies s.publisher
    ensures s.publisher.Valid()
    ensures var consumed := entry.updatedThisCycle && Allows(s.FilterOf(), id) && id !in idsSeen;
            && seen == idsSeen + (if consumed then {id} else {})
            && s.publisher.calls ==
               if consumed then old(s.publisher.calls) + [Consume(entry.pdo)] else old(s.publisher.calls)
  {
    seen := idsSeen;
    if !entry.updatedThisCycle {
      return;
    }
    if !s.acceptAllIds && id !in s.idsAllowed {
      return;
    }
    if id in idsSeen {
      return;
    }
    seen := seen + {id};
    s.publisher.ConsumePdo(entry.pdo);
  }

  /** Within the `k`-th listed channel, `ids` have been walked: what they deliver was consumed and is seen. */
  predicate Midway(logs: seq<ChannelLog>, f: Filter, k: nat, ids: seq<nat>,
                   before: seq<Call>, calls: seq<Call>, seen: set<nat>)
    requires OneLogPerChannel(logs) && k < |f.channels|
  {
    && seen == SeenIds(logs, f, k) + DeliveredIn(logs, f, k, ids)
    && calls == before + Consumes(PickFrom(logs, f, k, ids))
  }

  /** One more ID: the calls and the seen set after the skip tests on its entry. */
  lemma MidwayNext(logs: seq<ChannelLog>, f: Filter, k: nat, i: nat, entry: PdoCache,
                   before: seq<Call>, calls: seq<Call>, seen: set<nat>)
    requires OneLogPerChannel(logs) && k < |f.channels|
    requires i < |FirstSeen(LogOf(logs, f.channels[k]).All())|
    requires EntryMatches(entry, LogOf(logs, f.channels[k]), FirstSeen(LogOf(logs, f.channels[k]).All())[i])
    requires Midway(logs, f, k, FirstSeen(LogOf(logs, f.channels[k]).All())[..i], before, calls, seen)
    ensures var ids := FirstSeen(LogOf(logs, f.channels[k]).All());
            var consumed := entry.updatedThisCycle && Allows(f, ids[i]) && ids[i] !in seen;
            Midway(logs, f, k, ids[..i + 1], before,
                   if consumed then calls + [Consume(entry.pdo)] else calls, seen + (if consumed then {ids[i]} else {}))
  {
    var ids := FirstSeen(LogOf(logs, f.channels[k]).All());
    DispatchTests(logs, f, k, i, entry, seen);
    ConcatAssoc(before, Consumes(PickFrom(logs, f, k, ids[..i])), [Consume(entry.pdo)]);
  }

  method DispatchNext(cache: ChannelCache, i: nat, s: Subscription, seen: set<nat>,
                      ghost logs: seq<ChannelLog>, ghost k: nat, ghost before: seq<Call>)
    returns (next: set<nat>)
    requires OneLogPerChannel(logs) && k < |s.channels|
    requires cache.Valid() && cache.log == LogOf(logs, s.channels[k]) && i < |cache.activeIds|
    requires s.publisher.Valid()
    requires Midway(logs, s.FilterOf(), k, cache.activeIds[..i], before, s.publisher.calls, seen)
    modifies s.publisher
    ensures s.publisher.Valid()
    ensures Midway(logs, s.FilterOf(), k, cache.activeIds[..i + 1], before, s.publisher.calls, next)
  {
    FirstSeenDistinct(cache.log.All());
    var id := cache.activeIds[i];
    var entry := cache.entries[id];
    MidwayNext(logs, s.FilterOf(), k, i, entry, before, s.publisher.calls, seen);
    next := DispatchEntry(entry, id, s, seen);
  }

  /** The channel's updated and allowed IDs that were not seen yet go to the publisher. */
  method DispatchCache(cache: ChannelCache, s: Subscription, idsSeen: set<nat>,
                       ghost logs: seq<ChannelLog>, ghost k: nat)
    returns (seen: set<nat>)
    requires OneLogPerChannel(logs) && k < |s.channels|
    requires cache.Valid() && cache.log == LogOf(logs, s.channels[k])
    requires s.publisher.Valid()
    requires idsSeen == SeenIds(logs, s.FilterOf(), k)
    modifies s.publisher
    ensures s.publisher.Valid()
    ensures seen == SeenIds(logs, s.FilterOf(), k + 1)
    ensures s.publisher.calls ==
            old(s.publisher.calls) + Consumes(PickFrom(logs, s.FilterOf(), k, FirstSeen(cache.log.All())))
  {
    ghost var f, before, ids := s.FilterOf(), s.publisher.calls, cache.activeIds;
    SeenNext(logs, f, k);
    seen := idsSeen;
    for i := 0 to |cache.activeIds|
      modifies s.publisher
      invariant s.publisher.Valid()
      invariant Midway(logs, f, k, ids[..i], before, s.publisher.calls, seen)
    {
      seen := DispatchNext(cache, i, s, seen, logs, k, before);
    }
    assert ids[..|ids|] == ids;
  }

  /** The calls once the first `k` listed channels have been walked. */
  function CallsAfter(before: seq<Call>, logs: seq<ChannelLog>, f: Filter, k: nat): seq<Call>
    requires OneLogPerChannel(logs) && k <= |f.channels|
  {
    if k == 0 then before
    else
      CallsAfter(before, logs, f, k - 1) +
      Consumes(PickFrom(logs, f, k - 1, FirstSeen(LogOf(logs, f.channels[k - 1]).All())))
  }

  predicate CallsAgree(before: seq<Call>, logs: seq<ChannelLog>, f: Filter, k: nat)
    requires OneLogPerChannel(logs) && k <= |f.channels|
  {
    CallsAfter(before, logs, f, k) == before + Consumes(Selected(logs, f, k))
  }

  lemma CallsAgreeAtFirst(before: seq<Call>, logs: seq<ChannelLog>, f: Filter)
    requires OneLogPerChannel(logs)
    ensures CallsAgree(before, logs, f, 0)
  {
    assert Selected(logs, f, 0) == [];
    assert before + Consumes([]) == before;
  }

  lemma CallsAgreeNext(before: seq<Call>, logs: seq<ChannelLog>, f: Filter, k: nat)
    requires OneLogPerChannel(logs) && k < |f.channels| && CallsAgree(before, logs, f, k)
    ensures CallsAgree(before, logs, f, k + 1)
  {
    var now := Consumes(PickFrom(logs, f, k, FirstSeen(LogOf(logs, f.channels[k]).All())));
    assert CallsAfter(before, logs, f, k + 1) == CallsAfter(before, logs, f, k) + now;
    SelectedNext(before, logs, f, k);
  }

  lemma {:induction false} CallsAfterMeans(before: seq<Call>, logs: seq<ChannelLog>, f: Filter, k: nat)
    requires OneLogPerChannel(logs) && k <= |f.channels|
    ensures CallsAgree(before, logs, f, k)
  {
    if k == 0 {
      CallsAgreeAtFirst(before, logs, f);
    } else {
      CallsAfterMeans(before, logs, f, k - 1);
      CallsAgreeNext(before, logs, f, k - 1);
    }
  }

  /** The first `k` listed channels have been walked: their PDOs consumed, their IDs seen. */
  predicate Walked(logs: seq<ChannelLog>, f: Filter, k: nat, before: seq<Call>, calls: seq<Call>, seen: set<nat>)
    requires OneLogPerChannel(logs) && k <= |f.channels|
  {
    seen == SeenIds(logs, f, k) && calls == CallsAfter(before, logs, f, k)
  }

  method NewCaches() returns (cs: seq<ChannelCache>)
    ensures |cs| == |CHANNELS| && fresh(cs) && NoDuplicates(cs)
    ensures forall i, j :: 0 <= i < j < |cs| ==> cs[i].entries != cs[j].entries
    ensures forall c :: 0 <= c < |cs| ==> cs[c].Valid() && cs[c].log == ChannelLog([], [])
  {
    cs := [];
    for i := 0 to |CHANNELS|
      invariant |cs| == i && fresh(cs) && NoDuplicates(cs)
      invariant forall c :: 0 <= c < i ==> cs[c].Valid() && cs[c].log == ChannelLog([], [])
      invariant forall c, d :: 0 <= c < d < i ==> cs[c].entries != cs[d].entries
    {
      var cache := new ChannelCache();
      cs := cs + [cache];
    }
  }

  /** Nothing but the seen IDs differs. */
  ghost predicate SameButSeen(ss: seq<Subscription>, before: seq<Subscription>) {
    && |ss| == |before|
    && forall i :: 0 <= i < |ss| ==> ss[i] == before[i].(idsSeen := ss[i].idsSeen)
  }

  /** The publisher has received exactly the calls due after its first `from` cycles. */
  ghost predicate ServedSince(s: Subscription, from: nat, h: seq<CycleInput>)
    reads s.publisher
  {
    s.publisher.Valid() && from <= |h| && s.publisher.calls == CallsSince(s.FilterOf(), h, from)
  }

  class Adapter {
    const caches: seq<ChannelCache>
    var subscriptions: seq<Subscription>
    // What this adapter has been through: the inputs of every cycle, and after how many of them
    // each subscription was registered.
    ghost var history: seq<CycleInput>
    ghost var joined: seq<nat>

    /** The caches hold these logs, and share no storage. */
    ghost predicate CachesHold(logs: seq<ChannelLog>)
      reads caches, set c | c in caches :: c.entries
    {
      && |caches| == |logs| == |CHANNELS| && NoDuplicates(caches)
      && (forall i, j :: 0 <= i < j < |caches| ==> caches[i].entries != caches[j].entries)
      && (forall c :: 0 <= c < |caches| ==> caches[c].Valid() && caches[c].log == logs[c])
    }

    /** Each publisher has received exactly the calls due since it was registered. */
    ghost predicate Served(h: seq<CycleInput>)
      reads `subscriptions, `joined, set s | s in subscriptions :: s.publisher
    {
      && |joined| == |subscriptions|
      && (forall i, j :: 0 <= i < j < |subscriptions| ==> subscriptions[i].publisher != subscriptions[j].publisher)
      && (forall i :: 0 <= i < |subscriptions| ==> ServedSince(subscriptions[i], joined[i], h))
    }

    ghost predicate Valid()
      reads this, caches, (set c | c in caches :: c.entries), set s | s in subscriptions :: s.publisher
    {
      CachesHold(LogsAt(history)) && Served(history)
    }

    constructor ()
      ensures Valid() && fresh(caches) && history == [] && subscriptions == []
    {
      var cs := NewCaches();
      caches := cs;
      subscriptions, history, joined := [], [], [];
    }

    /** Register a publisher. IDs of 256 and above and duplicates are skipped; the rest form the mask. */
    method RegisterPublisher(channels: seq<Channel>, idsAllowed: seq<UInt32>, kind: Kind, backend: Backend)
      returns (publisher: Publisher)
      requires Valid()
      modifies `subscriptions, `joined
      ensures Valid() && fresh(publisher)
      ensures publisher.kind == kind && publisher.backend == backend
      ensures subscriptions ==
              old(subscriptions) + [Subscription(publisher, channels, MaskOf(idsAllowed), {}, idsAllowed == [])]
      ensures joined == old(joined) + [|history|]
    {
      publisher := new Publisher(kind, backend);
      var mask := BuildMask(idsAllowed);
      Subscribe(Subscription(publisher, channels, mask, {}, idsAllowed == []));
    }

    /** A new subscription joins; those before are served as they were. */
    method Subscribe(s: Subscription)
      requires Valid() && s.publisher.Valid() && s.publisher.calls == []
      requires forall i :: 0 <= i < |subscriptions| ==> subscriptions[i].publisher != s.publisher
      modifies `subscriptions, `joined
      ensures Valid() && subscriptions == old(subscriptions) + [s] && joined == old(joined) + [|history|]
    {
      assert ServedSince(s, |history|, history);
      assert forall i :: 0 <= i < |subscriptions| ==> ServedSince(subscriptions[i], joined[i], history);
      subscriptions := subscriptions + [s];
      joined := joined + [|history|];
    }

    /** One channel. The others keep what they hold. */
    method FillAt(i: nat, batch: seq<Pdo>, ghost logs: seq<ChannelLog>)
      requires CachesHold(logs) && i < |caches|
      modifies caches[i], caches[i].entries
      ensures CachesHold(logs[i := ChannelLog(logs[i].All(), batch)])
    {
      caches[i].Fill(batch);
    }

    /** Drain every channel, in order. */
    method FillCache(input: CycleInput)
      requires Valid()
      modifies caches, set c | c in caches :: c.entries
      ensures CachesHold(LogsAt(history + [input])) && Served(history)
    {
      FillChannels(input);
    }

    method FillChannels(input: CycleInput)
      requires CachesHold(LogsAt(history))
      modifies caches, set c | c in caches :: c.entries
      ensures CachesHold(LogsAt(history + [input]))
    {
      ghost var logs, next := LogsAt(history), LogsAt(history + [input]);
      LogsPush(history, input);
      ghost var now := logs;
      for i := 0 to |caches|
        invariant CachesHold(now)
        invariant forall c :: 0 <= c < |now| ==> now[c] == if c < i then next[c] else logs[c]
      {
        FillAt(i, input[i], now);
        now := now[i := ChannelLog(now[i].All(), input[i])];
      }
      assert now == next;
    }

    /** One of the subscription's channels. */
    method DispatchChannel(s: Subscription, k: nat, idsSeen: set<nat>,
                           ghost logs: seq<ChannelLog>, ghost calls: seq<Call>)
      returns (seen: set<nat>)
      requires k < |s.channels| && CachesHold(logs) && s.publisher.Valid()
      requires Walked(logs, s.FilterOf(), k, calls, s.publisher.calls, idsSeen)
      modifies s.publisher
      ensures CachesHold(logs) && s.publisher.Valid()
      ensures Walked(logs, s.FilterOf(), k + 1, calls, s.publisher.calls, seen)
    {
      var cache := caches[ChannelIndex(s.channels[k])];
      assert cache.Valid() && cache.log == LogOf(logs, s.channels[k]);
      seen := DispatchCache(cache, s, idsSeen, logs, k);
    }

    /** Walk the subscription's channels, in the order listed. */
    method DispatchChannels(s: Subscription, ghost logs: seq<ChannelLog>) returns (idsSeen: set<nat>)
      requires CachesHold(logs) && s.publisher.Valid()
      modifies s.publisher
      ensures CachesHold(logs) && s.publisher.Valid()
      ensures Walked(logs, s.FilterOf(), |s.channels|, old(s.publisher.calls), s.publisher.calls, idsSeen)
    {
      idsSeen := {};
      for k := 0 to |s.channels|
        invariant CachesHold(logs) && s.publisher.Valid()
        invariant Walked(logs, s.FilterOf(), k, old(s.publisher.calls), s.publisher.calls, idsSeen)
      {
        idsSeen := DispatchChannel(s, k, idsSeen, logs, old(s.publisher.calls));
      }
    }

    /** One subscription's share of a dispatch. */
    method DispatchTo(s: Subscription, ghost logs: seq<ChannelLog>) returns (idsSeen: set<nat>)
      requires CachesHold(logs) && s.publisher.Valid()
      modifies s.publisher
      ensures s.publisher.Valid()
      ensures s.publisher.calls == old(s.publisher.calls) +
              CycleCalls(SelectedAll(logs, s.FilterOf()), Complete(logs, s.FilterOf()))
      ensures idsSeen == SeenIds(logs, s.FilterOf(), |s.channels|)
    {
      ghost var calls, ps := s.publisher.calls, SelectedAll(logs, s.FilterOf());
      s.publisher.BeginCycle();
      CallsAfterMeans(calls + [Begin], logs, s.FilterOf(), |s.channels|);
      idsSeen := DispatchChannels(s, logs);
      var valid := if s.acceptAllIds then idsSeen != {} else idsSeen == s.idsAllowed;
      assert valid == Complete(logs, s.FilterOf());
      assert s.publisher.calls == calls + [Begin] + Consumes(ps);
      CycleCallsAppend(calls, ps, valid);
      s.publisher.EndCycle(valid);
    }

    /** One subscription, with the caches as the last cycle left them. */
    method DispatchAt(i: nat, ghost input: CycleInput)
      requires CachesHold(LogsAt(history + [input]))
      requires i < |subscriptions| == |joined| && ServedSince(subscriptions[i], joined[i], history)
      modifies `subscriptions, subscriptions[i].publisher
      ensures i < |subscriptions| && ServedSince(subscriptions[i], joined[i], history + [input])
      ensures subscriptions == old(subscriptions)[i := old(subscriptions)[i].(idsSeen := subscriptions[i].idsSeen)]
    {
      var s := subscriptions[i];
      CallsSincePush(s.FilterOf(), history, input, joined[i]);
      var idsSeen := DispatchTo(s, LogsAt(history + [input]));
      subscriptions := subscriptions[i := s.(idsSeen := idsSeen)];
    }

    /** The first `i` subscriptions have been served for this cycle, the others for those before. */
    ghost predicate Halfway(ss: seq<Subscription>, i: nat, h: seq<CycleInput>, next: seq<CycleInput>)
      reads `joined, set s | s in ss :: s.publisher
    {
      && |joined| == |ss|
      && (forall j, k :: 0 <= j < k < |ss| ==> ss[j].publisher != ss[k].publisher)
      && (forall j :: 0 <= j < i && j < |ss| ==> ServedSince(ss[j], joined[j], next))
      && (forall j :: i <= j < |ss| ==> ServedSince(ss[j], joined[j], h))
    }

    method DispatchNext(i: nat, ghost input: CycleInput)
      requires CachesHold(LogsAt(history + [input])) && i < |subscriptions|
      requires Halfway(subscriptions, i, history, history + [input])
      modifies `subscriptions, subscriptions[i].publisher
      ensures SameButSeen(subscriptions, old(subscriptions))
      ensures Halfway(subscriptions, i + 1, history, history + [input])
    {
      DispatchAt(i, input);
    }

    /** Serve every subscription, in registration order. */
    method Dispatch(ghost input: CycleInput)
      requires CachesHold(LogsAt(history + [input])) && Served(history)
      modifies `subscriptions, set s | s in subscriptions :: s.publisher
      ensures CachesHold(LogsAt(history + [input])) && Served(history + [input])
      ensures SameButSeen(subscriptions, old(subscriptions))
    {
      DispatchAll(input);
    }

    method DispatchAll(ghost input: CycleInput)
      requires CachesHold(LogsAt(history + [input])) && Served(history)
      modifies `subscriptions, set s | s in subscriptions :: s.publisher
      ensures Served(history + [input]) && SameButSeen(subscriptions, old(subscriptions))
    {
      for i := 0 to |subscriptions|
        invariant SameButSeen(subscriptions, old(subscriptions))
        invariant Halfway(subscriptions, i, history, history + [input])
      {
        DispatchNext(i, input);
      }
    }

    /** One turn of the adapter. Without a healthy transport it does nothing. */
    method SpinOnce(isOk: bool, input: CycleInput)
      requires Valid()
      modifies `history, `subscriptions, caches, (set c | c in caches :: c.entries)
      modifies set s | s in subscriptions :: s.publisher
      ensures Valid()
      ensures history == if isOk then old(history) + [input] else old(history)
      ensures SameButSeen(subscriptions, old(subscriptions))
    {
      if !isOk {
        return;
      }
      FillCache(input);
      Dispatch(input);
      history := history + [input];
    }
  }
}
