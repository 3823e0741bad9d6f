/** Discovery: poll the receive queues until every requested ID has been seen; first sighting wins. */
module Discovery {
  import opened Wrappers
  import opened Pdos
  import opened Decimal

  datatype EcatMetadata = EcatMetadata(ecatId: UInt32, name: string, ptype: PdoType, channel: Channel)

  type EcatMap = map<UInt32, EcatMetadata>

  /** One PDO seen in a queue. */
  datatype Sighting = Sighting(channel: Channel, pdo: Pdo)

  function SightedId(s: Sighting): Option<UInt32> {
    if HasIndex(s.pdo) && IndexOf(s.pdo) >= 0 then Some(IndexOf(s.pdo)) else None
  }

  function MetadataOf(s: Sighting, id: UInt32): EcatMetadata {
    EcatMetadata(id, if StrIdOf(s.pdo) != "" then StrIdOf(s.pdo) else "ecat_" + ToDecimal(id),
      s.pdo.ptype, s.channel)
  }

  /** The earliest sighting of an ID. */
  function FirstSighting(seen: seq<Sighting>, id: UInt32): Option<Sighting> {
    if seen == [] then None
    else
      var before := FirstSighting(seen[..|seen| - 1], id);
      if before.Some? then before
      else if SightedId(seen[|seen| - 1]) == Some(id) then Some(seen[|seen| - 1])
      else None
  }

  /** Map `m` is what `seen` tells about the requested IDs. */
  ghost predicate Tells(ids: set<UInt32>, m: EcatMap, seen: seq<Sighting>) {
    forall id: UInt32 ::
      && (id in m <==> id in ids && FirstSighting(seen, id).Some?)
      && (id in m ==> m[id] == MetadataOf(FirstSighting(seen, id).value, id))
  }

  function Tagged(channel: Channel, ps: seq<Pdo>): seq<Sighting> {
    seq(|ps|, i requires 0 <= i < |ps| => Sighting(channel, ps[i]))
  }

  /** The queues' content, channel by channel, for the first `c` channels. */
  function SightingsIn(snapshot: Batches, c: nat): seq<Sighting>
    requires c <= |CHANNELS|
  {
    if c == 0 then [] else SightingsIn(snapshot, c - 1) + Tagged(CHANNELS[c - 1], snapshot[c - 1])
  }

  /** What the first `n` polls of a stream of snapshots saw. */
  function SightingsOf(stream: nat -> Batches, n: nat): seq<Sighting> {
    if n == 0 then [] else SightingsOf(stream, n - 1) + SightingsIn(stream(n - 1), |CHANNELS|)
  }

  lemma FirstSightingPush(seen: seq<Sighting>, s: Sighting, id: UInt32)
    ensures FirstSighting(seen + [s], id) ==
            if FirstSighting(seen, id).Some? then FirstSighting(seen, id)
            else if SightedId(s) == Some(id) then Some(s) else None
  {
    assert (seen + [s])[..|seen|] == seen;
  }

  lemma {:induction false} FirstSightingStays(seen: seq<Sighting>, more: seq<Sighting>, id: UInt32)
    ensures FirstSighting(seen, id).Some? ==> FirstSighting(seen + more, id) == FirstSighting(seen, id)
  {
    if more == [] {
      assert seen + more == seen;
    } else {
      var n := |more| - 1;
      FirstSightingStays(seen, more[..n], id);
      assert seen + more == (seen + more[..n]) + [more[n]];
      FirstSightingPush(seen + more[..n], more[n], id);
    }
  }

  /** `FirstSighting` yields the sighting at the first position with that ID. */
  lemma {:induction false} FirstSightingMeaning(seen: seq<Sighting>, id: UInt32)
    ensures FirstSighting(seen, id).Some? <==> exists k :: FirstAt(seen, id, k)
    ensures forall k :: FirstAt(seen, id, k) ==> FirstSighting(seen, id) == Some(seen[k])
  {
    if seen != [] {
      var n := |seen| - 1;
      var before := seen[..n];
      assert seen == before + [seen[n]];
      FirstSightingMeaning(before, id);
      forall k ensures FirstAt(before, id, k) ==> FirstAt(seen, id, k) {
      }
      forall k | FirstAt(seen, id, k) && k < n ensures FirstAt(before, id, k) {
      }
      if FirstSighting(before, id).None? {
        assert !exists k :: FirstAt(before, id, k);
        if SightedId(seen[n]) == Some(id) {
          NoneBefore(before, id);
          assert FirstAt(seen, id, n);
        }
      }
    }
  }

  predicate FirstAt(seen: seq<Sighting>, id: UInt32, k: int) {
    && 0 <= k < |seen| && SightedId(seen[k]) == Some(id)
    && forall j :: 0 <= j < k ==> SightedId(seen[j]) != Some(id)
  }

  lemma {:induction false} NoneBefore(seen: seq<Sighting>, id: UInt32)
    requires FirstSighting(seen, id).None?
    ensures forall j :: 0 <= j < |seen| ==> SightedId(seen[j]) != Some(id)
  {
    if seen != [] {
      NoneBefore(seen[..|seen| - 1], id);
    }
  }

  lemma TellsPush(ids: set<UInt32>, seen: seq<Sighting>, s: Sighting, m: EcatMap, out: EcatMap)
    requires Tells(ids, m, seen)
    requires match SightedId(s)
             case None => out == m
             case Some(id) => out == if id !in ids || id in m then m else m[id := MetadataOf(s, id)]
    ensures Tells(ids, out, seen + [s])
  {
    forall id: UInt32
      ensures FirstSighting(seen + [s], id) ==
              if FirstSighting(seen, id).Some? then FirstSighting(seen, id)
              else if SightedId(s) == Some(id) then Some(s) else None
    {
      FirstSightingPush(seen, s, id);
    }
  }

  /** One PDO of a queue. */
  method PeekNext(ids: set<UInt32>, m: EcatMap, channel: Channel, p: Pdo, ghost seen: seq<Sighting>)
    returns (out: EcatMap)
    requires Tells(ids, m, seen)
    ensures Tells(ids, out, seen + [Sighting(channel, p)])
  {
    out := m;
    if HasIndex(p) && IndexOf(p) >= 0 {
      var id: UInt32 := IndexOf(p);
      if id in ids && id !in m {
        var name := if StrIdOf(p) != "" then StrIdOf(p) else "ecat_" + ToDecimal(id);
        out := m[id := EcatMetadata(id, name, p.ptype, channel)];
      }
    }
    TellsPush(ids, seen, Sighting(channel, p), m, out);
  }

  lemma TaggedNext(seen: seq<Sighting>, channel: Channel, queue: seq<Pdo>, i: nat)
    requires i < |queue|
    ensures seen + Tagged(channel, queue[..i + 1]) ==
            seen + Tagged(channel, queue[..i]) + [Sighting(channel, queue[i])]
  {
    assert Tagged(channel, queue[..i + 1]) == Tagged(channel, queue[..i]) + [Sighting(channel, queue[i])];
    ConcatAssoc(seen, Tagged(channel, queue[..i]), [Sighting(channel, queue[i])]);
  }

  /** One queue: entries already known are left alone, IDs nobody asked for are ignored. */
  method PeekAll(ids: set<UInt32>, m: EcatMap, channel: Channel, queue: seq<Pdo>, ghost seen: seq<Sighting>)
    returns (out: EcatMap)
    requires Tells(ids, m, seen)
    ensures Tells(ids, out, seen + Tagged(channel, queue))
  {
    out := m;
    assert seen + Tagged(channel, queue[..0]) == seen;
    for i := 0 to |queue|
      invariant Tells(ids, out, seen + Tagged(channel, queue[..i]))
    {
      TaggedNext(seen, channel, queue, i);
      out := PeekNext(ids, out, channel, queue[i], seen + Tagged(channel, queue[..i]));
    }
    assert queue[..|queue|] == queue;
  }

  method DiscoverOnce(ids: set<UInt32>, m: EcatMap, snapshot: Batches, ghost seen: seq<Sighting>) returns (out: EcatMap)
    requires Tells(ids, m, seen)
    ensures Tells(ids, out, seen + SightingsIn(snapshot, |CHANNELS|))
  {
    out := m;
    ghost var all := seen;
    for c := 0 to |CHANNELS|
      invariant Tells(ids, out, all) && all == seen + SightingsIn(snapshot, c)
    {
      out := PeekAll(ids, out, CHANNELS[c], snapshot[c], all);
      ConcatAssoc(seen, SightingsIn(snapshot, c), Tagged(CHANNELS[c], snapshot[c]));
      all := all + Tagged(CHANNELS[c], snapshot[c]);
    }
  }

  // ---- where an entry comes from -------------------------------------------------------------------

  predicate InQueue(queue: seq<Pdo>, id: UInt32) {
    exists j :: 0 <= j < |queue| && FromDevice(queue[j], id)
  }

  predicate InSnapshot(b: Batches, id: UInt32) {
    exists c :: 0 <= c < |b| && InQueue(b[c], id)
  }

  lemma {:induction false} FirstSightingConcat(a: seq<Sighting>, b: seq<Sighting>, id: UInt32)
    ensures FirstSighting(a + b, id) ==
            if FirstSighting(a, id).Some? then FirstSighting(a, id) else FirstSighting(b, id)
  {
    if b == [] {
      assert a + b == a;
    } else {
      var n := |b| - 1;
      FirstSightingConcat(a, b[..n], id);
      assert a + b == (a + b[..n]) + [b[n]];
      FirstSightingPush(a + b[..n], b[n], id);
    }
  }

  predicate FirstInQueue(queue: seq<Pdo>, id: UInt32, j: nat) {
    j < |queue| && FromDevice(queue[j], id) && forall i :: 0 <= i < j ==> !FromDevice(queue[i], id)
  }

  lemma FirstInTagged(channel: Channel, queue: seq<Pdo>, id: UInt32) returns (j: nat)
    ensures FirstSighting(Tagged(channel, queue), id).None? <==> !InQueue(queue, id)
    ensures InQueue(queue, id) ==>
              && FirstInQueue(queue, id, j)
              && FirstSighting(Tagged(channel, queue), id) == Some(Sighting(channel, queue[j]))
  {
    j := 0;
    var seen := Tagged(channel, queue);
    forall i | 0 <= i < |queue| ensures SightedId(seen[i]) == Some(id) <==> FromDevice(queue[i], id) {
    }
    FirstSightingMeaning(seen, id);
    if FirstSighting(seen, id).None? {
      NoneBefore(seen, id);
    } else {
      var k :| FirstAt(seen, id, k);
      j := k;
    }
  }

  /** The first PDO of a device in a snapshot: on no earlier channel, nowhere before on its own. */
  predicate FirstInSnapshot(b: Batches, id: UInt32, c: nat, j: nat) {
    c < |b| && FirstInQueue(b[c], id, j) && forall d :: 0 <= d < c ==> !InQueue(b[d], id)
  }

  lemma {:induction false} FirstInChannels(b: Batches, id: UInt32, c: nat) returns (d: nat, j: nat)
    requires c <= |CHANNELS|
    ensures FirstSighting(SightingsIn(b, c), id).None? <==> forall e :: 0 <= e < c ==> !InQueue(b[e], id)
    ensures FirstSighting(SightingsIn(b, c), id).Some? ==>
              && d < c && FirstInSnapshot(b, id, d, j)
              && FirstSighting(SightingsIn(b, c), id) == Some(Sighting(CHANNELS[d], b[d][j]))
  {
    d, j := 0, 0;
    if c > 0 {
      d, j := FirstInChannels(b, id, c - 1);
      var i := FirstInTagged(CHANNELS[c - 1], b[c - 1], id);
      FirstSightingConcat(SightingsIn(b, c - 1), Tagged(CHANNELS[c - 1], b[c - 1]), id);
      if FirstSighting(SightingsIn(b, c - 1), id).None? {
        d, j := c - 1, i;
      }
    }
  }

  lemma FirstInPoll(b: Batches, id: UInt32) returns (c: nat, j: nat)
    ensures FirstSighting(SightingsIn(b, |CHANNELS|), id).Some? <==> InSnapshot(b, id)
    ensures InSnapshot(b, id) ==>
              && FirstInSnapshot(b, id, c, j)
              && FirstSighting(SightingsIn(b, |CHANNELS|), id) == Some(Sighting(CHANNELS[c], b[c][j]))
  {
    c, j := FirstInChannels(b, id, |CHANNELS|);
  }

  /** Poll `k` shows the device for the first time, on channel `c` at position `j`. */
  ghost predicate FirstShown(stream: nat -> Batches, id: UInt32, k: nat, c: nat, j: nat) {
    FirstInSnapshot(stream(k), id, c, j) && forall l: nat :: l < k ==> !InSnapshot(stream(l), id)
  }

  ghost predicate Shown(stream: nat -> Batches, id: UInt32, n: nat) {
    exists k: nat :: k < n && InSnapshot(stream(k), id)
  }

  lemma ShownNext(stream: nat -> Batches, id: UInt32, n: nat)
    ensures Shown(stream, id, n + 1) <==> Shown(stream, id, n) || InSnapshot(stream(n), id)
  {
    if InSnapshot(stream(n), id) {
      assert Shown(stream, id, n + 1);
    }
  }

  /** The sighting is what poll `k` shows on channel `c` at position `j`, for the first time; none if no poll before
      `n` shows the device. */
  ghost predicate ComesFrom(s: Option<Sighting>, stream: nat -> Batches, id: UInt32, n: nat, k: nat, c: nat, j: nat) {
    && (s.Some? <==> Shown(stream, id, n))
    && (s.Some? ==> k < n && FirstShown(stream, id, k, c, j) && s == Some(Sighting(CHANNELS[c], stream(k)[c][j])))
  }

  lemma ShownHere(stream: nat -> Batches, id: UInt32, n: nat) returns (c: nat, j: nat)
    requires !Shown(stream, id, n)
    ensures ComesFrom(FirstSighting(SightingsIn(stream(n), |CHANNELS|), id), stream, id, n + 1, n, c, j)
  {
    c, j := FirstInPoll(stream(n), id);
    ShownNext(stream, id, n);
  }

  lemma {:induction false} FirstInStream(stream: nat -> Batches, id: UInt32, n: nat) returns (k: nat, c: nat, j: nat)
    ensures ComesFrom(FirstSighting(SightingsOf(stream, n), id), stream, id, n, k, c, j)
  {
    k, c, j := 0, 0, 0;
    if n > 0 {
      var seen, now := SightingsOf(stream, n - 1), SightingsIn(stream(n - 1), |CHANNELS|);
      k, c, j := FirstInStream(stream, id, n - 1);
      FirstSightingConcat(seen, now, id);
      if FirstSighting(seen, id).None? {
        k := n - 1;
        c, j := ShownHere(stream, id, k);
      } else {
        ShownNext(stream, id, n - 1);
      }
    }
  }

  /** What is in the map is what the queues showed: an entry for each requested ID that some header named in one
      of the polls, with the type, name and channel of the first PDO that did. */
  lemma EntriesAreFirstShown(ids: set<UInt32>, m: EcatMap, stream: nat -> Batches, n: nat, id: UInt32)
    returns (k: nat, c: nat, j: nat)
    requires Tells(ids, m, SightingsOf(stream, n))
    ensures id in m <==> id in ids && Shown(stream, id, n)
    ensures id in m ==>
              && k < n && FirstShown(stream, id, k, c, j)
              && var p := stream(k)[c][j];
                 && m[id].ecatId == id && m[id].ptype == p.ptype
                 && m[id].channel == [Imu, Motor, Gripper, Pump, PowerBoard, ForceTorque, Valve][c]
                 && m[id].name == if p.header.value.strId.Some? && p.header.value.strId.value != ""
                                  then p.header.value.strId.value else "ecat_" + ToDecimal(id)
  {
    k, c, j := FirstInStream(stream, id, n);
    if id in m {
      assert m[id] == MetadataOf(Sighting(CHANNELS[c], stream(k)[c][j]), id);
    }
  }

  // ---- the loop --------------------------------------------------------------------------------------

  /** Every requested ID has been sighted. */
  ghost predicate AllSeen(ids: set<UInt32>, seen: seq<Sighting>) {
    forall id :: id in ids ==> FirstSighting(seen, id).Some?
  }

  ghost predicate AllSeenBy(ids: set<UInt32>, stream: nat -> Batches, n: nat) {
    AllSeen(ids, SightingsOf(stream, n))
  }

  /** After `n` polls: the map is what they told, and none of those before had all the IDs. */
  ghost predicate Underway(ids: set<UInt32>, stream: nat -> Batches, m: EcatMap, n: nat) {
    && Tells(ids, m, SightingsOf(stream, n))
    && forall k: nat :: k < n ==> !AllSeenBy(ids, stream, k)
  }

  /** All have been sighted exactly if some header named each of them in one of the polls. */
  lemma AllSeenMeansShown(ids: set<UInt32>, stream: nat -> Batches, n: nat)
    ensures AllSeenBy(ids, stream, n) <==> forall id :: id in ids ==> Shown(stream, id, n)
  {
    forall id | id in ids ensures FirstSighting(SightingsOf(stream, n), id).Some? <==> Shown(stream, id, n) {
      var _, _, _ := FirstInStream(stream, id, n);
    }
  }

  lemma UnderwayCounts(ids: set<UInt32>, stream: nat -> Batches, m: EcatMap, n: nat)
    requires Underway(ids, stream, m, n)
    ensures |m| >= |ids| <==> m.Keys == ids
    ensures m.Keys == ids <==> AllSeenBy(ids, stream, n)
    ensures forall k: nat :: n <= k && AllSeenBy(ids, stream, n) ==> AllSeenBy(ids, stream, k)
  {
    CompleteIff(ids, m, SightingsOf(stream, n));
    if |m| >= |ids| {
      Enough(ids, m, SightingsOf(stream, n));
    }
    forall k: nat | n <= k && AllSeenBy(ids, stream, n) ensures AllSeenBy(ids, stream, k) {
      SeenMonotone(stream, n, k);
    }
  }

  /** Discovery, watched for `limit` polls: the source's loop has no limit, and this is what it has done after
      any number of polls. It ends exactly when it holds the requested IDs, at the first poll by which all
      have been sighted, each entry as first sighted; without a healthy transport, at once with nothing. */
  method Discover(ids: set<UInt32>, isOk: bool, stream: nat -> Batches, limit: nat)
    returns (done: bool, m: EcatMap, polls: nat)
    ensures !isOk ==> done && m == map[] && polls == 0
    ensures isOk ==> polls <= limit && Underway(ids, stream, m, polls)
    ensures isOk ==> (done <==> m.Keys == ids)
    ensures isOk ==> (done <==> AllSeenBy(ids, stream, limit))
    ensures !done ==> polls == limit
  {
    done, m, polls := true, map[], 0;
    if !isOk {
      return;
    }
    while |m| < |ids| && polls < limit
      invariant polls <= limit && Underway(ids, stream, m, polls)
      decreases limit - polls
    {
      UnderwayCounts(ids, stream, m, polls);
      m := NextPoll(ids, m, stream, polls);
      polls := polls + 1;
    }
    UnderwayCounts(ids, stream, m, polls);
    done := |m| >= |ids|;
  }

  method NextPoll(ids: set<UInt32>, m: EcatMap, stream: nat -> Batches, polls: nat) returns (out: EcatMap)
    requires Underway(ids, stream, m, polls) && !AllSeenBy(ids, stream, polls)
    ensures Underway(ids, stream, out, polls + 1)
  {
    out := DiscoverOnce(ids, m, stream(polls), SightingsOf(stream, polls));
  }

  lemma SameSize<T>(a: set<T>, b: set<T>)
    requires a <= b && |a| >= |b|
    ensures a == b
  {
    assert b == a + (b - a);
    assert |b| == |a| + |b - a|;
  }

  lemma CompleteIff(ids: set<UInt32>, m: EcatMap, seen: seq<Sighting>)
    requires Tells(ids, m, seen)
    ensures AllSeen(ids, seen) <==> m.Keys == ids
  {
  }

  lemma Enough(ids: set<UInt32>, m: EcatMap, seen: seq<Sighting>)
    requires Tells(ids, m, seen) && |m| >= |ids|
    ensures m.Keys == ids
  {
    assert m.Keys <= ids;
    assert |m.Keys| == |m|;
    SameSize(m.Keys, ids);
  }

  lemma {:induction false} SeenMonotone(stream: nat -> Batches, n: nat, k: nat)
    requires n <= k
    ensures forall id: UInt32 :: FirstSighting(SightingsOf(stream, n), id).Some? ==>
              FirstSighting(SightingsOf(stream, k), id) == FirstSighting(SightingsOf(stream, n), id)
  {
    if n < k {
      SeenMonotone(stream, n, k - 1);
      forall id: UInt32
        ensures FirstSighting(SightingsOf(stream, k - 1), id).Some? ==>
                  FirstSighting(SightingsOf(stream, k), id) == FirstSighting(SightingsOf(stream, k - 1), id)
      {
        FirstSightingStays(SightingsOf(stream, k - 1), SightingsIn(stream(k - 1), |CHANNELS|), id);
      }
    }
  }

  ghost predicate EventuallySeen(stream: nat -> Batches, id: UInt32) {
    exists n: nat :: FirstSighting(SightingsOf(stream, n), id).Some?
  }

  /** If every requested ID is seen sooner or later, there is one poll by which all have been. */
  lemma {:induction false} EventuallyAllSeen(ids: set<UInt32>, stream: nat -> Batches) returns (bound: nat)
    requires forall id :: id in ids ==> EventuallySeen(stream, id)
    ensures AllSeen(ids, SightingsOf(stream, bound))
    decreases |ids|
  {
    if ids == {} {
      bound := 0;
    } else {
      var id :| id in ids;
      assert EventuallySeen(stream, id);
      var rest := EventuallyAllSeen(ids - {id}, stream);
      var n: nat :| FirstSighting(SightingsOf(stream, n), id).Some?;
      bound := if rest < n then n else rest;
      SeenMonotone(stream, rest, bound);
      SeenMonotone(stream, n, bound);
    }
  }

  /** Discovery ends if and only if every requested ID is seen sooner or later. */
  lemma DiscoveryEndsIff(ids: set<UInt32>, stream: nat -> Batches)
    ensures (exists n: nat :: AllSeenBy(ids, stream, n)) <==> forall id :: id in ids ==> EventuallySeen(stream, id)
  {
    if forall id :: id in ids ==> EventuallySeen(stream, id) {
      var bound := EventuallyAllSeen(ids, stream);
      assert AllSeenBy(ids, stream, bound);
    }
    if n: nat :| AllSeenBy(ids, stream, n) {
      forall id | id in ids ensures EventuallySeen(stream, id) {
        assert FirstSighting(SightingsOf(stream, n), id).Some?;
      }
    }
  }

  /** Polling only adds: no entry is changed once set, no requested ID is missing again. */
  lemma EntriesNeverChange(ids: set<UInt32>, early: EcatMap, late: EcatMap, stream: nat -> Batches, n: nat, k: nat)
    requires n <= k && Tells(ids, early, SightingsOf(stream, n)) && Tells(ids, late, SightingsOf(stream, k))
    ensures early.Keys <= late.Keys <= ids
    ensures forall id :: id in early ==> late[id] == early[id]
    ensures |ids - late.Keys| <= |ids - early.Keys|
  {
    SeenMonotone(stream, n, k);
    forall id | id in early ensures id in late && late[id] == early[id] {
      assert FirstSighting(SightingsOf(stream, n), id).Some?;
    }
    assert early.Keys <= late.Keys;
    SubsetSize(ids - late.Keys, ids - early.Keys);
  }

  lemma SubsetSize<T>(a: set<T>, b: set<T>)
    requires a <= b
    ensures |a| <= |b|
  {
    assert b == a + (b - a);
  }

  /** The discovered type, or unspecified for an unknown ID. */
  function ResolveType(m: EcatMap, id: UInt32): PdoType {
    if id in m then m[id].ptype else Unspecified
  }
}
