/**
 * The Zenoh receive queue: a transport thread appends decoded samples, dropping the
 * oldest beyond the depth; the adapter thread swaps the queue out and delivers it.
 * Both hold one mutex, so an interleaving is a sequence of `OnSample` and `Swap`.
 */
module ZenohSubscriber {
  import opened Wrappers

  datatype Event<Message> = Sample(decoded: Option<Message>) | Poll

  function Min(a: int, b: int): int { if a < b then a else b }

  /** At most `depth` elements from the end. */
  function Newest<T>(depth: nat, s: seq<T>): (r: seq<T>)
    ensures |r| == if depth < |s| then depth else |s|
  {
    if depth == 0 || |s| == 0 then []
    else
      var n := |s| - 1;
      var before := Newest(depth - 1, s[..n]);
      assert |before| == if depth - 1 < n then depth - 1 else n;
      before + [s[n]]
  }

  lemma SuffixPush<T>(s: seq<T>, from: nat)
    requires from < |s|
    ensures s[from..] == s[..|s| - 1][from..] + [s[|s| - 1]]
  {
    var n := |s| - 1;
    var rest := s[..n][from..];
    var whole := rest + [s[n]];
    assert |rest| == n - from && whole[|rest|] == s[n];
    forall i | 0 <= i < |s[from..]| ensures s[from..][i] == whole[i] {
      if i < |rest| {
        assert whole[i] == rest[i] == s[from + i];
      }
    }
  }

  lemma {:induction false} NewestIsSuffix<T>(depth: nat, s: seq<T>)
    ensures Newest(depth, s) == s[|s| - Min(depth, |s|)..]
  {
    if depth > 0 && |s| > 0 {
      var n := |s| - 1;
      var from := n - |Newest(depth - 1, s[..n])|;
      NewestIsSuffix(depth - 1, s[..n]);
      SuffixPush(s, from);
    }
  }

  /** Samples that decoded, in order of arrival. */
  function AcceptedSamples<T>(events: seq<Event<T>>): seq<T> {
    if events == [] then []
    else
      var before := AcceptedSamples(events[..|events| - 1]);
      match events[|events| - 1]
      case Poll => before
      case Sample(m) => if m.Some? then before + [m.value] else before
  }

  /** Those accepted since the last poll. */
  function SinceLastPoll<T>(events: seq<Event<T>>): seq<T> {
    if events == [] then []
    else
      match events[|events| - 1]
      case Poll => []
      case Sample(m) =>
        var before := SinceLastPoll(events[..|events| - 1]);
        if m.Some? then before + [m.value] else before
  }

  /** For each poll, those accepted between the poll before it and itself. */
  function Segments<T>(events: seq<Event<T>>): seq<seq<T>> {
    if events == [] then []
    else
      var before := events[..|events| - 1];
      match events[|events| - 1]
      case Poll => Segments(before) + [SinceLastPoll(before)]
      case Sample(_) => Segments(before)
  }

  function NewestOfEach<T>(depth: nat, segments: seq<seq<T>>): seq<seq<T>> {
    if segments == [] then []
    else NewestOfEach(depth, segments[..|segments| - 1]) + [Newest(depth, segments[|segments| - 1])]
  }

  function Flatten<T>(ss: seq<seq<T>>): seq<T> {
    if ss == [] then [] else Flatten(ss[..|ss| - 1]) + ss[|ss| - 1]
  }

  lemma EventsPush<T>(events: seq<Event<T>>, e: Event<T>)
    ensures var n := events + [e];
            match e
            case Poll =>
              && SinceLastPoll(n) == [] && Segments(n) == Segments(events) + [SinceLastPoll(events)]
              && AcceptedSamples(n) == AcceptedSamples(events)
            case Sample(m) =>
              && Segments(n) == Segments(events)
              && SinceLastPoll(n) == (if m.Some? then SinceLastPoll(events) + [m.value] else SinceLastPoll(events))
              && AcceptedSamples(n) ==
                 if m.Some? then AcceptedSamples(events) + [m.value] else AcceptedSamples(events)
  {
    assert (events + [e])[..|events|] == events;
  }

  lemma SegmentsPush<T>(depth: nat, segments: seq<seq<T>>, s: seq<T>)
    ensures Flatten(segments + [s]) == Flatten(segments) + s
    ensures NewestOfEach(depth, segments + [s]) == NewestOfEach(depth, segments) + [Newest(depth, s)]
  {
    assert (segments + [s])[..|segments|] == segments;
  }

  /** The queue is the newest samples since the last poll, each poll took the newest of its segment, and
      accepted = taken + pending + dropped. */
  ghost predicate Holds<T>(depth: nat, events: seq<Event<T>>, pending: seq<T>, taken: seq<seq<T>>, dropped: nat) {
    && pending == Newest(depth, SinceLastPoll(events))
    && taken == NewestOfEach(depth, Segments(events))
    && |AcceptedSamples(events)| == |Flatten(taken)| + |pending| + dropped
  }

  lemma NewestAll<T>(depth: nat, s: seq<T>)
    requires |s| <= depth
    ensures Newest(depth, s) == s
  {
    NewestIsSuffix(depth, s);
  }

  lemma NewestPush<T>(depth: nat, s: seq<T>, m: T)
    requires depth >= 1
    ensures Newest(depth, s + [m]) == Newest(depth - 1, s) + [m]
  {
    assert (s + [m])[..|s|] == s;
  }

  lemma NewestCapped<T>(depth: nat, s: seq<T>)
    ensures Newest(Min(depth, |s|), s) == Newest(depth, s)
  {
    NewestIsSuffix(depth, s);
    NewestIsSuffix(Min(depth, |s|), s);
  }

  lemma NewestTail<T>(n: nat, s: seq<T>)
    requires 0 < n <= |s|
    ensures Newest(n, s)[1..] == Newest(n - 1, s)
  {
    NewestIsSuffix(n, s);
    NewestIsSuffix(n - 1, s);
  }

  lemma HoldsAfterPoll<T>(depth: nat, events: seq<Event<T>>, pending: seq<T>, taken: seq<seq<T>>, dropped: nat)
    requires Holds(depth, events, pending, taken, dropped)
    ensures Holds(depth, events + [Poll], [], taken + [pending], dropped)
  {
    EventsPush(events, Poll);
    SegmentsPush(depth, Segments(events), SinceLastPoll(events));
    SegmentsPush(depth, taken, pending);
  }

  lemma HoldsAfterRejected<T>(depth: nat, events: seq<Event<T>>, pending: seq<T>, taken: seq<seq<T>>, dropped: nat)
    requires Holds(depth, events, pending, taken, dropped)
    ensures Holds(depth, events + [Sample(None)], pending, taken, dropped)
  {
    EventsPush(events, Sample(None));
  }

  /** Dropping from the front until there is room, then appending, keeps exactly the newest. */
  lemma HoldsAfterSample<T>(depth: nat, events: seq<Event<T>>, pending: seq<T>, taken: seq<seq<T>>, dropped: nat,
                            m: T, left: seq<T>, dropsNow: nat)
    requires depth >= 1 && Holds(depth, events, pending, taken, dropped)
    requires left == Newest(depth - 1, SinceLastPoll(events))
    requires |left| + dropsNow == |pending| + dropped
    ensures Holds(depth, events + [Sample(Some(m))], left + [m], taken, dropsNow)
  {
    EventsPush(events, Sample(Some(m)));
    NewestPush(depth, SinceLastPoll(events), m);
  }

  class Subscriber<Payload, Message> {
    const deserializer: Payload -> Option<Message>
    const hasCallback: bool
    const historyDepth: nat
    var pending: seq<Message>
    var droppedSamples: nat
    // What happened so far, and what each poll took.
    ghost var events: seq<Event<Message>>
    ghost var taken: seq<seq<Message>>

    ghost predicate Valid()
      reads this
    {
      historyDepth >= 1 && Holds(historyDepth, events, pending, taken, droppedSamples)
    }

    constructor (deserializer: Payload -> Option<Message>, hasCallback: bool, historyDepth: nat)
      ensures Valid() && events == [] && this.historyDepth == (if historyDepth < 1 then 1 else historyDepth)
      ensures this.deserializer == deserializer && this.hasCallback == hasCallback
    {
      this.deserializer, this.hasCallback := deserializer, hasCallback;
      this.historyDepth := if historyDepth < 1 then 1 else historyDepth;
      pending, droppedSamples := [], 0;
      events, taken := [], [];
    }

    /** The transport's callback. */
    method OnSample(payload: Payload)
      requires Valid()
      modifies this
      ensures Valid() && events == old(events) + [Sample(deserializer(payload))]
      ensures taken == old(taken) && |pending| <= historyDepth
    {
      var message := deserializer(payload);
      if message.None? {
        HoldsAfterRejected(historyDepth, events, pending, taken, droppedSamples);
        events := events + [Sample(None)];
        return;
      }
      Accept(message.value);
    }

    /** A decoded sample, with the mutex held. */
    method Accept(message: Message)
      requires Valid()
      modifies this
      ensures Valid() && events == old(events) + [Sample(Some(message))]
      ensures taken == old(taken) && |pending| <= historyDepth
    {
      ghost var before, dropped := pending, droppedSamples;
      MakeRoom(SinceLastPoll(events));
      HoldsAfterSample(historyDepth, events, before, taken, dropped, message, pending, droppedSamples);
      pending := pending + [message];
      events := events + [Sample(Some(message))];
    }

    /** Drop from the front until there is room for one more. */
    method MakeRoom(ghost s: seq<Message>)
      requires historyDepth >= 1 && pending == Newest(historyDepth, s)
      modifies `pending, `droppedSamples
      ensures pending == Newest(historyDepth - 1, s)
      ensures |pending| + droppedSamples == |old(pending)| + old(droppedSamples)
    {
      NewestCapped(historyDepth, s);
      while |pending| >= historyDepth
        invariant |pending| <= |s| && pending == Newest(|pending|, s)
        invariant Min(historyDepth - 1, |old(pending)|) <= |pending|
        invariant |pending| + droppedSamples == |old(pending)| + old(droppedSamples)
        decreases |pending|
      {
        NewestTail(|pending|, s);
        pending := pending[1..];
        droppedSamples := droppedSamples + 1;
      }
      NewestCapped(historyDepth - 1, s);
    }

    /** The locked part of a poll: the queue is swapped for an empty one. */
    method Swap() returns (batch: seq<Message>)
      requires Valid()
      modifies this
      ensures Valid() && events == old(events) + [Poll]
      ensures batch == Newest(historyDepth, SinceLastPoll(old(events))) && taken == old(taken) + [batch]
      ensures pending == [] && droppedSamples == old(droppedSamples)
    {
      HoldsAfterPoll(historyDepth, events, pending, taken, droppedSamples);
      batch, pending := pending, [];
      events := events + [Poll];
      taken := taken + [batch];
    }

    /** A poll: everything swapped out goes to the callback, in order; a throwing callback loses only
        its own message. */
    method SpinOnce() returns (called: seq<Message>)
      requires Valid()
      modifies this
      ensures Valid() && events == old(events) + [Poll]
      ensures taken == old(taken) + [Newest(historyDepth, SinceLastPoll(old(events)))]
      ensures called == if hasCallback then Newest(historyDepth, SinceLastPoll(old(events))) else []
    {
      var batch := Swap();
      called := [];
      for i := 0 to |batch|
        invariant called == if hasCallback then batch[..i] else []
      {
        if hasCallback {
          called := called + [batch[i]];
        }
      }
    }
  }

  // ---- what any interleaving guarantees ---------------------------------------------------------

  /** The segments and the samples still pending are the accepted samples, in order, cut at the polls. */
  lemma {:induction false} SegmentsPartition<T>(events: seq<Event<T>>)
    ensures Flatten(Segments(events)) + SinceLastPoll(events) == AcceptedSamples(events)
  {
    if events != [] {
      var n := |events| - 1;
      SegmentsPartition(events[..n]);
      if events[n].Poll? {
        assert Segments(events)[..|Segments(events)| - 1] == Segments(events[..n]);
      } else {
        assert events == events[..n] + [events[n]];
        EventsPush(events[..n], events[n]);
      }
    }
  }

  predicate WithinDepth<T>(depth: nat, segments: seq<seq<T>>) {
    forall i :: 0 <= i < |segments| ==> |segments[i]| <= depth
  }

  lemma WithinDepthPush<T>(depth: nat, segments: seq<seq<T>>, s: seq<T>)
    ensures WithinDepth(depth, segments + [s]) <==> WithinDepth(depth, segments) && |s| <= depth
  {
    var all := segments + [s];
    assert forall i :: 0 <= i < |segments| ==> all[i] == segments[i];
    assert all[|segments|] == s;
  }

  lemma {:induction false} TakenNoLonger<T>(depth: nat, segments: seq<seq<T>>)
    ensures |Flatten(NewestOfEach(depth, segments))| <= |Flatten(segments)|
    ensures |Flatten(NewestOfEach(depth, segments))| == |Flatten(segments)| <==> WithinDepth(depth, segments)
    ensures WithinDepth(depth, segments) ==> NewestOfEach(depth, segments) == segments
  {
    if segments != [] {
      var n := |segments| - 1;
      var before, last := segments[..n], segments[n];
      TakenNoLonger(depth, before);
      assert segments == before + [last];
      SegmentsPush(depth, before, last);
      SegmentsPush(depth, NewestOfEach(depth, before), Newest(depth, last));
      if |last| <= depth {
        NewestAll(depth, last);
      }
      WithinDepthPush(depth, before, last);
    }
  }

  /** Nothing has been dropped exactly while no two consecutive polls were more than the depth apart; and
      then what the polls took, followed by what is pending, is every accepted sample in order. */
  lemma NothingDroppedIff<P, T>(s: Subscriber<P, T>)
    requires s.Valid()
    ensures s.droppedSamples == 0 <==>
            WithinDepth(s.historyDepth, Segments(s.events)) && |SinceLastPoll(s.events)| <= s.historyDepth
    ensures s.droppedSamples == 0 ==> Flatten(s.taken) + s.pending == AcceptedSamples(s.events)
  {
    SegmentsPartition(s.events);
    if |SinceLastPoll(s.events)| <= s.historyDepth {
      NewestAll(s.historyDepth, SinceLastPoll(s.events));
    }
    TakenNoLonger(s.historyDepth, Segments(s.events));
  }
}
