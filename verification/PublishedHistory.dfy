/**
 * Whole runs of the receive path: what a registered publisher has written after any
 * number of cycles, in terms of what the channels drained.
 */
module PublishedHistory {
  import opened Wrappers
  import opened Pdos
  import opened ReceiveCache
  import opened Messages
  import opened Publishers
  import opened Selection
  import opened AdapterPublishers

  /** What the cycle that ends `history` writes: all of its report if complete, else nothing. */
  function Contribution(backend: Backend, kind: Kind, f: Filter, history: seq<CycleInput>): seq<Report> {
    if Complete(LogsAt(history), f) then CycleReport(backend, kind, SelectedAll(LogsAt(history), f)) else []
  }

  function ContributionFn(backend: Backend, kind: Kind, f: Filter): seq<CycleInput> -> seq<Report> {
    (history: seq<CycleInput>) => Contribution(backend, kind, f, history)
  }

  /** What the cycles after the first `from` contribute, one after the other. */
  function Since<R>(share: seq<CycleInput> -> seq<R>, history: seq<CycleInput>, from: nat): seq<R>
    requires from <= |history|
  {
    if |history| == from then [] else Since(share, history[..|history| - 1], from) + share(history)
  }

  function ReportsSince(backend: Backend, kind: Kind, f: Filter, history: seq<CycleInput>, from: nat): seq<Report>
    requires from <= |history|
  {
    Since(ContributionFn(backend, kind, f), history, from)
  }

  lemma {:induction false} ConsumedInCycle(backend: Backend, kind: Kind, calls: seq<Call>, ps: seq<Pdo>)
    ensures Consumed(calls + [Begin] + Consumes(ps)) == ps
    ensures Reports(backend, kind, calls + [Begin] + Consumes(ps)) == Reports(backend, kind, calls)
  {
    var begun := calls + [Begin];
    if ps == [] {
      CallsPush(backend, kind, calls, Begin);
      assert begun + Consumes(ps) == begun;
    } else {
      var n := |ps| - 1;
      ConsumedInCycle(backend, kind, calls, ps[..n]);
      assert ps == ps[..n] + [ps[n]];
      ConsumesPush(ps[..n], ps[n]);
      ConcatAssoc(begun, Consumes(ps[..n]), [Consume(ps[n])]);
      CallsPush(backend, kind, begun + Consumes(ps[..n]), Consume(ps[n]));
    }
  }

  /** A cycle writes what it consumed and nothing consumed earlier, if it is valid. */
  lemma CycleWrites(backend: Backend, kind: Kind, calls: seq<Call>, ps: seq<Pdo>, valid: bool)
    ensures Reports(backend, kind, calls + CycleCalls(ps, valid)) ==
            if valid then Reports(backend, kind, calls) + CycleReport(backend, kind, ps)
            else Reports(backend, kind, calls)
  {
    var before := calls + [Begin] + Consumes(ps);
    ConsumedInCycle(backend, kind, calls, ps);
    CallsPush(backend, kind, before, End(valid));
    CycleCallsAppend(calls, ps, valid);
  }

  lemma {:induction false} CallsReport(backend: Backend, kind: Kind, f: Filter, history: seq<CycleInput>, from: nat)
    requires from <= |history|
    ensures Reports(backend, kind, CallsSince(f, history, from)) == ReportsSince(backend, kind, f, history, from)
  {
    if |history| > from {
      var before := history[..|history| - 1];
      CallsReport(backend, kind, f, before, from);
      CycleWrites(backend, kind, CallsSince(f, before, from),
        SelectedAll(LogsAt(history), f), Complete(LogsAt(history), f));
    }
  }

  /** After any run of registrations and cycles, each publisher has written exactly the complete
      cycles since its registration, whatever other subscriptions exist. */
  lemma WrittenHistory(a: Adapter, i: nat)
    requires a.Valid() && i < |a.subscriptions|
    ensures i < |a.joined| && a.joined[i] <= |a.history|
    ensures var s := a.subscriptions[i];
            var f := Filter(s.channels, s.acceptAllIds, s.idsAllowed);
            ShowsAll(s.publisher.kind, s.publisher.written,
              ReportsSince(s.publisher.backend, s.publisher.kind, f, a.history, a.joined[i]))
  {
    var s := a.subscriptions[i];
    assert ServedSince(s, a.joined[i], a.history);
    CallsReport(s.publisher.backend, s.publisher.kind, s.FilterOf(), a.history, a.joined[i]);
  }

  lemma {:induction false} FromOneCycle<R>(share: seq<CycleInput> -> seq<R>, history: seq<CycleInput>,
                                           from: nat, k: nat) returns (n: nat, j: nat)
    requires from <= |history| && k < |Since(share, history, from)|
    ensures from < n <= |history| && j < |share(history[..n])|
    ensures share(history[..n])[j] == Since(share, history, from)[k]
  {
    var before := history[..|history| - 1];
    var earlier := Since(share, before, from);
    if k < |earlier| {
      n, j := FromOneCycle(share, before, from, k);
      assert before[..n] == history[..n];
    } else {
      n, j := |history|, k - |earlier|;
      assert history[..n] == history;
    }
  }

  /** Every report comes from one cycle. */
  lemma ReportFromCycle(backend: Backend, kind: Kind, f: Filter, history: seq<CycleInput>, from: nat, k: nat)
    returns (n: nat, j: nat)
    requires from <= |history| && k < |ReportsSince(backend, kind, f, history, from)|
    ensures from < n <= |history| && j < |Contribution(backend, kind, f, history[..n])|
    ensures Contribution(backend, kind, f, history[..n])[j] == ReportsSince(backend, kind, f, history, from)[k]
  {
    n, j := FromOneCycle(ContributionFn(backend, kind, f), history, from, k);
  }

  // ---- what a cycle writes ---------------------------------------------------------------------

  /** A PDO whose header names device `id` was drained, in the last cycle, on a listed channel. */
  predicate ReceivedNow(f: Filter, history: seq<CycleInput>, id: nat)
    requires history != []
  {
    exists k :: 0 <= k < |f.channels| && CarriesNow(history, f.channels[k], id)
  }

  predicate CarriesNow(history: seq<CycleInput>, c: Channel, id: nat)
    requires history != []
  {
    var batch := history[|history| - 1][ChannelIndex(c)];
    exists j :: 0 <= j < |batch| && FromDevice(batch[j], id)
  }

  lemma ReceivedMeansSeen(f: Filter, history: seq<CycleInput>, id: nat)
    requires history != [] && id < 256 && Allows(f, id)
    ensures ReceivedNow(f, history, id) <==> id in SeenIds(LogsAt(history), f, |f.channels|)
  {
    var logs := LogsAt(history);
    forall c: Channel ensures CarriesNow(history, c, id) <==> Arrived(LogOf(logs, c), id) {
      LatestForMeaning(LogOf(logs, c).batch, id);
    }
  }

  /** An allowlisted cycle is complete exactly when every allowed ID was received in that very cycle. */
  lemma CompleteMeansAllReceived(f: Filter, history: seq<CycleInput>)
    requires history != [] && !f.acceptAll && forall id :: id in f.allowed ==> id < 256
    ensures Complete(LogsAt(history), f) <==> forall id :: id in f.allowed ==> ReceivedNow(f, history, id)
  {
    var seen := SeenIds(LogsAt(history), f, |f.channels|);
    forall id | id in f.allowed ensures ReceivedNow(f, history, id) <==> id in seen {
      ReceivedMeansSeen(f, history, id);
    }
    assert seen <= f.allowed;
  }

  /** Without an allowlist a cycle is complete exactly when it received something from a device below 256. */
  lemma AnyReceivedMeansComplete(f: Filter, history: seq<CycleInput>)
    requires history != [] && f.acceptAll
    ensures Complete(LogsAt(history), f) <==> exists id: nat :: id < 256 && ReceivedNow(f, history, id)
  {
    var seen := SeenIds(LogsAt(history), f, |f.channels|);
    if seen != {} {
      var id :| id in seen;
      ReceivedMeansSeen(f, history, id);
    }
    if id: nat :| id < 256 && ReceivedNow(f, history, id) {
      ReceivedMeansSeen(f, history, id);
      assert id in seen;
    }
  }

  /** A consumed PDO was drained in the last cycle on a listed channel. */
  predicate DrainedNow(f: Filter, history: seq<CycleInput>, p: Pdo)
    requires history != []
  {
    exists k :: 0 <= k < |f.channels| && p in history[|history| - 1][ChannelIndex(f.channels[k])]
  }

  lemma ConsumedAreDrainedNow(f: Filter, history: seq<CycleInput>, p: Pdo)
    requires history != [] && p in SelectedAll(LogsAt(history), f)
    ensures DrainedNow(f, history, p) && SlotOf(p).Some?
    ensures p.header.Some? && p.header.value.index.Some? && 0 <= p.header.value.index.value < 256
    ensures f.acceptAll || p.header.value.index.value in f.allowed
  {
    var logs := LogsAt(history);
    SelectedMeaning(logs, f);
    assert PickedBefore(logs, f, |f.channels|, p);
    var k :| 0 <= k < |f.channels| && PickedBy(logs, f, k, p);
    LatestForSlot(LogOf(logs, f.channels[k]).batch, SlotOf(p).value);
    SlotIsIndex(p, SlotOf(p).value);
  }

  /** In a cycle, the publisher gets a PDO of each allowed device that was received in it, and of no other. */
  lemma ConsumedIff(f: Filter, history: seq<CycleInput>, id: nat)
    requires history != [] && id < 256
    ensures (exists p :: p in SelectedAll(LogsAt(history), f) && FromDevice(p, id)) <==>
            (f.acceptAll || id in f.allowed) && ReceivedNow(f, history, id)
  {
    var ps := SelectedAll(LogsAt(history), f);
    SelectedMeaning(LogsAt(history), f);
    forall p ensures FromDevice(p, id) <==> SlotOf(p) == Some(id) {
      SlotIsIndex(p, id);
    }
    if Allows(f, id) {
      ReceivedMeansSeen(f, history, id);
    }
  }

  /** And what it gets is the newest of its device in that cycle's batch of the first listed channel that carries
      the device. */
  lemma ConsumedIsNewest(f: Filter, history: seq<CycleInput>, p: Pdo) returns (k: nat, i: nat)
    requires history != [] && p in SelectedAll(LogsAt(history), f)
    ensures p.header.Some? && p.header.value.index.Some? && p.header.value.index.value >= 0 && k < |f.channels|
    ensures var id := p.header.value.index.value;
            var batch := history[|history| - 1][ChannelIndex(f.channels[k])];
            && LastAt(batch, id, i) && batch[i] == p
            && forall j :: 0 <= j < k ==> !CarriesNow(history, f.channels[j], id)
  {
    var logs := LogsAt(history);
    SelectedMeaning(logs, f);
    assert PickedBefore(logs, f, |f.channels|, p);
    var k0 :| 0 <= k0 < |f.channels| && PickedBy(logs, f, k0, p);
    var id := SlotOf(p).value;
    SlotIsIndex(p, id);
    LatestForMeaning(LogOf(logs, f.channels[k0]).batch, id);
    var i0 :| LastAt(LogOf(logs, f.channels[k0]).batch, id, i0) && p == LogOf(logs, f.channels[k0]).batch[i0];
    k, i := k0, i0;
    forall j | 0 <= j < k ensures !CarriesNow(history, f.channels[j], id) {
      LatestForMeaning(LogOf(logs, f.channels[j]).batch, id);
      assert !Arrived(LogOf(logs, f.channels[j]), id);
    }
  }

  lemma {:induction false} AcceptedStayDistinct(backend: Backend, kind: Kind, ps: seq<Pdo>)
    requires DistinctSlots(ps)
    ensures DistinctSlots(Accepted(backend, kind, ps))
  {
    if ps != [] {
      var n := |ps| - 1;
      AcceptedStayDistinct(backend, kind, ps[..n]);
      var before := Accepted(backend, kind, ps[..n]);
      forall i | 0 <= i < |before| ensures SlotOf(before[i]) != SlotOf(ps[n]) {
        KeptFrom(EntryFn(backend, kind), ps[..n], before[i]);
        assert before[i] in ps[..n];
      }
    }
  }

  /** Every PDO names its device in its header, and no two name the same one. */
  predicate DistinctDevices(ps: seq<Pdo>) {
    && (forall i :: 0 <= i < |ps| ==>
          ps[i].header.Some? && ps[i].header.value.index.Some? && 0 <= ps[i].header.value.index.value < 256)
    && (forall i, j :: 0 <= i < j < |ps| ==> ps[i].header.value.index != ps[j].header.value.index)
  }

  lemma SlotsAreDevices(ps: seq<Pdo>)
    requires DistinctSlots(ps) && forall i :: 0 <= i < |ps| ==> SlotOf(ps[i]).Some?
    ensures DistinctDevices(ps)
  {
    forall i | 0 <= i < |ps|
      ensures FromDevice(ps[i], SlotOf(ps[i]).value) && SlotOf(ps[i]).value < 256
    {
      SlotIsIndex(ps[i], SlotOf(ps[i]).value);
    }
  }

  /** The report is one row per accepted PDO of the selection, no device twice, all drained in the last cycle. */
  predicate FaithfulRows(backend: Backend, kind: Kind, f: Filter, history: seq<CycleInput>, r: Report)
    requires history != []
  {
    var accepted := Accepted(backend, kind, SelectedAll(LogsAt(history), f));
    && r.Rows? && r.entries != [] && |r.entries| == |accepted|
    && r.stampedBy == Some(accepted[|accepted| - 1])
    && DistinctDevices(accepted)
    && forall i :: 0 <= i < |accepted| ==>
         EntryOf(backend, kind, accepted[i]) == Some(r.entries[i]) && DrainedNow(f, history, accepted[i])
  }

  /** Whatever the filter, a message assembled from a cycle's selection has one row per device, each from a
      PDO drained in that cycle. */
  lemma OneRowPerDevice(backend: Backend, kind: Kind, f: Filter, history: seq<CycleInput>)
    requires history != [] && EntriesOf(backend, kind, SelectedAll(LogsAt(history), f)) != []
    ensures FaithfulRows(backend, kind, f, history, ReportOf(backend, kind, SelectedAll(LogsAt(history), f)))
  {
    var ps := SelectedAll(LogsAt(history), f);
    var accepted := Accepted(backend, kind, ps);
    SelectedMeaning(LogsAt(history), f);
    AcceptedStayDistinct(backend, kind, ps);
    EntriesAreAcceptedPdos(backend, kind, ps);
    forall i | 0 <= i < |accepted|
      ensures SlotOf(accepted[i]).Some? && DrainedNow(f, history, accepted[i])
    {
      assert accepted[i] in accepted;
      ConsumedAreDrainedNow(f, history, accepted[i]);
    }
    SlotsAreDevices(accepted);
  }

  /** So does every message a cycle contributes, of either backend. */
  lemma MessagesAreFaithful(backend: Backend, kind: Kind, f: Filter, history: seq<CycleInput>, j: nat)
    requires history != [] && j < |Contribution(backend, kind, f, history)|
    requires Contribution(backend, kind, f, history)[j].Rows?
    ensures FaithfulRows(backend, kind, f, history, Contribution(backend, kind, f, history)[j])
  {
    var ps := SelectedAll(LogsAt(history), f);
    if backend.ZenohCdr? {
      SerializableRows(kind, ps);
      EntriesAreAcceptedPdos(ZenohCdr, kind, ps);
    }
    OneRowPerDevice(backend, kind, f, history);
  }

  /** A DDS publisher with an allowlist writes in a cycle if and only if every allowed ID was received
      in that cycle and some consumed PDO is of an accepted type. Then it writes one nonempty message
      whose rows are that cycle's accepted PDOs, none from an earlier cycle. */
  lemma DdsWritesCompleteCycles(names: map<UInt32, string>, kind: Kind, f: Filter, history: seq<CycleInput>)
    requires history != [] && !f.acceptAll && forall id :: id in f.allowed ==> id < 256
    ensures var written := Contribution(Dds(names), kind, f, history);
            && (written != [] <==>
                  && (forall id :: id in f.allowed ==> ReceivedNow(f, history, id))
                  && exists p :: p in SelectedAll(LogsAt(history), f) && EntryOf(Dds(names), kind, p).Some?)
            && (written != [] ==> |written| == 1 && FaithfulRows(Dds(names), kind, f, history, written[0]))
  {
    var ps := SelectedAll(LogsAt(history), f);
    var accepted := Accepted(Dds(names), kind, ps);
    CompleteMeansAllReceived(f, history);
    EntriesAreAcceptedPdos(Dds(names), kind, ps);
    if accepted != [] {
      assert accepted[0] in accepted;
      OneRowPerDevice(Dds(names), kind, f, history);
    }
  }

  /** A Zenoh publisher with an allowlist writes in CDR if and only if every allowed ID was received in this
      cycle and the consumed PDOs can all be serialized. Then it writes one message holding every one. */
  lemma ZenohWritesCompleteCycles(kind: Kind, f: Filter, history: seq<CycleInput>)
    requires history != [] && !f.acceptAll && forall id :: id in f.allowed ==> id < 256
    ensures var ps, written := SelectedAll(LogsAt(history), f), Contribution(ZenohCdr, kind, f, history);
            && (written != [] <==>
                  && (forall id :: id in f.allowed ==> ReceivedNow(f, history, id))
                  && ps != [] && AllSerializable(kind, ps))
            && (written != [] ==>
                  && |written| == 1 && FaithfulRows(ZenohCdr, kind, f, history, written[0])
                  && |written[0].entries| == |ps|)
  {
    var ps := SelectedAll(LogsAt(history), f);
    CompleteMeansAllReceived(f, history);
    EntriesAreAcceptedPdos(ZenohCdr, kind, ps);
    if ps != [] && AllSerializable(kind, ps) {
      SerializableRows(kind, ps);
      OneRowPerDevice(ZenohCdr, kind, f, history);
    }
  }

  /** In Protobuf it writes one frame for each PDO consumed in a complete cycle, each from another device. */
  lemma ZenohFramesCompleteCycles(kind: Kind, f: Filter, history: seq<CycleInput>)
    requires history != [] && !f.acceptAll && forall id :: id in f.allowed ==> id < 256
    ensures var ps, frames := SelectedAll(LogsAt(history), f), Contribution(ZenohProtobuf, kind, f, history);
            && |frames| == (if forall id :: id in f.allowed ==> ReceivedNow(f, history, id) then |ps| else 0)
            && DistinctDevices(ps)
            && forall i :: 0 <= i < |frames| ==> frames[i] == FrameOf(ps[i]) && DrainedNow(f, history, ps[i])
  {
    var ps := SelectedAll(LogsAt(history), f);
    CompleteMeansAllReceived(f, history);
    SelectedMeaning(LogsAt(history), f);
    forall i | 0 <= i < |ps| ensures DrainedNow(f, history, ps[i]) && SlotOf(ps[i]).Some? {
      ConsumedAreDrainedNow(f, history, ps[i]);
    }
    SlotsAreDevices(ps);
  }

  /** A registration whose IDs are all 256 or above has an empty mask, so each of its cycles counts as
      complete, and yet it never writes anything. */
  lemma {:induction false} NothingFromEmptyMask(backend: Backend, kind: Kind, channels: seq<Channel>,
                             ids: seq<UInt32>, history: seq<CycleInput>, from: nat)
    requires ids != [] && forall i :: 0 <= i < |ids| ==> ids[i] >= 256
    requires from <= |history|
    ensures Complete(LogsAt(history), Filter(channels, ids == [], MaskOf(ids)))
    ensures ReportsSince(backend, kind, Filter(channels, ids == [], MaskOf(ids)), history, from) == []
  {
    var f := Filter(channels, ids == [], MaskOf(ids));
    assert f.allowed == {};
    if |history| > from {
      NothingFromEmptyMask(backend, kind, channels, ids, history[..|history| - 1], from);
      var ps := SelectedAll(LogsAt(history), f);
      if ps != [] {
        ConsumedAreDrainedNow(f, history, ps[0]);
      }
      assert ps == [];
    }
  }

  /** When nothing is drained on the listed channels nothing is written, although the caches still hold the
      PDOs of earlier cycles. */
  lemma QuietCycleWritesNothing(backend: Backend, kind: Kind, f: Filter, history: seq<CycleInput>)
    requires history != []
    requires forall k :: 0 <= k < |f.channels| ==> history[|history| - 1][ChannelIndex(f.channels[k])] == []
    ensures Contribution(backend, kind, f, history) == []
  {
    var ps := SelectedAll(LogsAt(history), f);
    if ps != [] {
      ConsumedAreDrainedNow(f, history, ps[0]);
    }
    assert ps == [];
  }
}
