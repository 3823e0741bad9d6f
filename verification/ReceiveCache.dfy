/**
 * The per-channel PDO cache: 256 slots addressed by EtherCAT ID plus the list of
 * IDs in use. Slots and list are updated in place; what they must agree with is
 * the plain log of everything drained from the channel.
 */
module ReceiveCache {
  import opened Wrappers
  import opened Pdos

  const MAX_ECAT_IDS: nat := 256

  type Slot = id: nat | id < MAX_ECAT_IDS

  /** What was drained from one channel: before this cycle, and during it. */
  datatype ChannelLog = ChannelLog(earlier: seq<Pdo>, batch: seq<Pdo>)
  {
    function All(): seq<Pdo> { earlier + batch }
  }

  /** The slot a PDO is filed under. Without an index, or with one that is negative or >= 256, it has none. */
  function SlotOf(p: Pdo): Option<Slot> {
    if !HasIndex(p) then None
    else if ToUInt32(IndexOf(p)) >= MAX_ECAT_IDS then None
    else Some(ToUInt32(IndexOf(p)))
  }

  /** The most recent PDO filed under `id`. */
  function LatestFor(s: seq<Pdo>, id: nat): Option<Pdo> {
    if s == [] then None
    else if SlotOf(s[|s| - 1]) == Some(id) then Some(s[|s| - 1])
    else LatestFor(s[..|s| - 1], id)
  }

  /** The IDs filed so far, in order of first appearance. */
  function FirstSeen(s: seq<Pdo>): seq<nat> {
    if s == [] then []
    else
      var before := FirstSeen(s[..|s| - 1]);
      match SlotOf(s[|s| - 1])
      case None => before
      case Some(id) => if id in before then before else before + [id]
  }

  lemma LatestForPush(s: seq<Pdo>, p: Pdo, id: nat)
    ensures LatestFor(s + [p], id) == if SlotOf(p) == Some(id) then Some(p) else LatestFor(s, id)
  {
    assert (s + [p])[..|s|] == s;
  }

  lemma FirstSeenPush(s: seq<Pdo>, p: Pdo)
    ensures FirstSeen(s + [p]) ==
            match SlotOf(p)
            case None => FirstSeen(s)
            case Some(id) => if id in FirstSeen(s) then FirstSeen(s) else FirstSeen(s) + [id]
  {
    assert (s + [p])[..|s|] == s;
  }

  /** The slots are the devices below 256, each under the index in its header. */
  lemma SlotIsIndex(p: Pdo, id: nat)
    ensures SlotOf(p) == Some(id) <==> p.header.Some? && p.header.value.index == Some(id) && id < 256
  {
  }

  /** Position `k` is the last one that came from device `id`. */
  predicate LastAt(s: seq<Pdo>, id: nat, k: int) {
    0 <= k < |s| && FromDevice(s[k], id) && forall j :: k < j < |s| ==> !FromDevice(s[j], id)
  }

  /** `LatestFor` yields the PDO at the last position that came from device `id`, and nothing only if no position
      did or the ID is out of range. */
  lemma {:induction false} LatestForMeaning(s: seq<Pdo>, id: nat)
    ensures LatestFor(s, id).None? <==> id >= 256 || forall k :: 0 <= k < |s| ==> !FromDevice(s[k], id)
    ensures LatestFor(s, id).Some? ==> exists k :: LastAt(s, id, k) && LatestFor(s, id) == Some(s[k])
  {
    if s != [] {
      var t := s[..|s| - 1];
      assert s == t + [s[|t|]];
      LatestForMeaning(t, id);
      SlotIsIndex(s[|t|], id);
      if SlotOf(s[|t|]) == Some(id) {
        assert LastAt(s, id, |t|);
      } else if LatestFor(t, id).Some? {
        var k :| LastAt(t, id, k) && LatestFor(t, id) == Some(t[k]);
        assert LastAt(s, id, k) && s[k] == t[k];
      }
    }
  }

  /** `FirstSeen` lists exactly the IDs ever filed, each once, all of them slots. */
  lemma {:induction false} FirstSeenMeaning(s: seq<Pdo>)
    ensures NoDuplicates(FirstSeen(s))
    ensures forall id :: id in FirstSeen(s) <==> LatestFor(s, id).Some?
    ensures forall id :: id in FirstSeen(s) ==> id < 256
  {
    if s != [] {
      FirstSeenMeaning(s[..|s| - 1]);
    }
  }

  lemma FirstSeenDistinct(s: seq<Pdo>)
    ensures NoDuplicates(FirstSeen(s))
    ensures forall i :: 0 <= i < |FirstSeen(s)| ==> FirstSeen(s)[i] < MAX_ECAT_IDS
  {
    FirstSeenMeaning(s);
  }

  /** The list only grows at its end, so IDs keep their first-seen order for ever. */
  lemma {:induction false} FirstSeenOrder(s: seq<Pdo>, t: seq<Pdo>)
    ensures FirstSeen(s) <= FirstSeen(s + t)
  {
    if t == [] {
      assert s + t == s;
    } else {
      var n := |t| - 1;
      FirstSeenOrder(s, t[..n]);
      assert s + t == (s + t[..n]) + [t[n]];
      FirstSeenPush(s + t[..n], t[n]);
    }
  }

  /** A PDO from this cycle supersedes every earlier one. */
  lemma {:induction false} LatestForConcat(s: seq<Pdo>, t: seq<Pdo>, id: nat)
    ensures LatestFor(s + t, id) == if LatestFor(t, id).Some? then LatestFor(t, id) else LatestFor(s, id)
  {
    if t == [] {
      assert s + t == s;
    } else {
      var n := |t| - 1;
      LatestForConcat(s, t[..n], id);
      assert s + t == (s + t[..n]) + [t[n]];
      LatestForPush(s + t[..n], t[n], id);
    }
  }

  /** The latest PDO for `id` is filed under `id`. */
  lemma {:induction false} LatestForSlot(s: seq<Pdo>, id: nat)
    requires LatestFor(s, id).Some?
    ensures LatestFor(s, id).value in s && SlotOf(LatestFor(s, id).value) == Some(id)
  {
    LatestForMeaning(s, id);
    SlotIsIndex(LatestFor(s, id).value, id);
  }

  datatype PdoCache = PdoCache(valid: bool, updatedThisCycle: bool, ecatId: nat, pdo: Pdo)

  const EMPTY_PDO := Pdo(Unspecified, None, NoPayload)
  const EMPTY_ENTRY := PdoCache(false, false, 0, EMPTY_PDO)

  /** What a slot must hold, given the channel's log. */
  predicate EntryMatches(e: PdoCache, log: ChannelLog, id: nat) {
    && e.valid == LatestFor(log.All(), id).Some?
    && e.updatedThisCycle == LatestFor(log.batch, id).Some?
    && (e.valid ==> e.ecatId == id && LatestFor(log.All(), id) == Some(e.pdo))
  }

  ghost function LogPush(log: ChannelLog, p: Pdo): ChannelLog {
    log.(batch := log.batch + [p])
  }

  /** How one more PDO changes what slots and list must hold: it is filed under the index in its header. */
  lemma LogPushEffect(log: ChannelLog, p: Pdo)
    ensures SlotOf(p) ==
            if p.header.Some? && p.header.value.index.Some? && 0 <= p.header.value.index.value < 256
            then Some(p.header.value.index.value) else None
    ensures FirstSeen(LogPush(log, p).All()) ==
            match SlotOf(p)
            case None => FirstSeen(log.All())
            case Some(id) => if LatestFor(log.All(), id).Some? then FirstSeen(log.All())
                             else FirstSeen(log.All()) + [id]
    ensures forall e, id: nat :: SlotOf(p) != Some(id) ==>
              (EntryMatches(e, LogPush(log, p), id) <==> EntryMatches(e, log, id))
    ensures forall id: nat :: SlotOf(p) == Some(id) ==>
              EntryMatches(PdoCache(true, true, id, p), LogPush(log, p), id)
  {
    var next := LogPush(log, p);
    assert next.All() == log.All() + [p];
    FirstSeenPush(log.All(), p);
    FirstSeenMeaning(log.All());
    forall id: nat
      ensures LatestFor(next.All(), id) == (if SlotOf(p) == Some(id) then Some(p) else LatestFor(log.All(), id))
      ensures LatestFor(next.batch, id) == (if SlotOf(p) == Some(id) then Some(p) else LatestFor(log.batch, id))
    {
      LatestForPush(log.All(), p, id);
      LatestForPush(log.batch, p, id);
    }
  }

  lemma LogGrows(earlier: seq<Pdo>, batch: seq<Pdo>, i: nat)
    requires i < |batch|
    ensures LogPush(ChannelLog(earlier, batch[..i]), batch[i]) == ChannelLog(earlier, batch[..i + 1])
  {
    assert batch[..i + 1] == batch[..i] + [batch[i]];
  }

  class ChannelCache {
    const entries: array<PdoCache>
    var activeIds: seq<nat>
    ghost var log: ChannelLog

    ghost predicate Valid()
      reads this, entries
    {
      && entries.Length == MAX_ECAT_IDS
      && activeIds == FirstSeen(log.All())
      && forall id :: 0 <= id < MAX_ECAT_IDS ==> EntryMatches(entries[id], log, id)
    }

    constructor ()
      ensures Valid() && fresh(entries) && log == ChannelLog([], [])
    {
      entries := new PdoCache[MAX_ECAT_IDS](_ => EMPTY_ENTRY);
      activeIds := [];
      log := ChannelLog([], []);
    }

    /** Start a cycle: only the listed IDs are reset, and no stale flag is left anywhere. */
    method StartCycle()
      requires Valid()
      modifies this`log, entries
      ensures Valid() && log == ChannelLog(old(log).All(), [])
      ensures activeIds == old(activeIds) && entries.Length == 256
      ensures forall id :: 0 <= id < 256 ==> entries[id] == old(entries[id]).(updatedThisCycle := false)
    {
      ghost var all := log.All();
      FirstSeenMeaning(all);
      FirstSeenMeaning(log.batch);
      forall id: nat ensures LatestFor(log.batch, id).Some? ==> id in activeIds {
        LatestForConcat(log.earlier, log.batch, id);
      }
      for i := 0 to |activeIds|
        invariant forall id :: 0 <= id < MAX_ECAT_IDS ==>
          entries[id] == if id in activeIds[..i] then old(entries[id]).(updatedThisCycle := false)
                         else old(entries[id])
      {
        var id := activeIds[i];
        assert id in activeIds;
        entries[id] := entries[id].(updatedThisCycle := false);
      }
      assert activeIds[..|activeIds|] == activeIds;
      log := ChannelLog(all, []);
      assert log.All() == all;
    }

    /** File one drained PDO under the index in its header, listing the ID if it is new. A PDO whose header or
        index is missing, or whose index is negative or above 255, leaves slots and list untouched. */
    method Receive(p: Pdo)
      requires Valid()
      modifies this, entries
      ensures Valid() && log == LogPush(old(log), p) && entries.Length == 256
      ensures forall i :: 0 <= i < 256 && p.header.Some? && p.header.value.index == Some(i) ==>
                && entries[..] == old(entries[..])[i := PdoCache(true, true, i, p)]
                && activeIds == if old(entries[i].valid) then old(activeIds) else old(activeIds) + [i]
      ensures !(p.header.Some? && p.header.value.index.Some? && 0 <= p.header.value.index.value < 256) ==>
                activeIds == old(activeIds) && entries[..] == old(entries[..])
    {
      LogPushEffect(log, p);
      ghost var before := log;
      log := LogPush(log, p);
      if !HasIndex(p) {
        return;
      }
      var id := ToUInt32(IndexOf(p));
      if id >= MAX_ECAT_IDS {
        return;
      }
      assert SlotOf(p) == Some(id) && EntryMatches(entries[id], before, id);
      if !entries[id].valid {
        activeIds := activeIds + [id];
      }
      entries[id] := PdoCache(true, true, id, p);
    }

    /** One channel's share of a cycle: reset, then drain `batch`. */
    method Fill(batch: seq<Pdo>)
      requires Valid()
      modifies this, entries
      ensures Valid() && log == ChannelLog(old(log).All(), batch)
    {
      StartCycle();
      ghost var earlier := log.earlier;
      for i := 0 to |batch|
        invariant Valid() && log == ChannelLog(earlier, batch[..i])
      {
        LogGrows(earlier, batch, i);
        Receive(batch[i]);
      }
      assert batch[..|batch|] == batch;
    }
  }
}
