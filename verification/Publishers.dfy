/**
 * The publishers behind the adapter: begin a cycle, consume PDOs, end the cycle.
 * A DDS publisher folds PDOs into one message as they come; a Zenoh bridge
 * collects them and serializes at the end. One class models both concrete types,
 * selected by `backend`, so the adapter can call either through one interface.
 */
module Publishers {
  import opened Wrappers
  import opened Pdos
  import opened Messages
  import DdsAssembler
  import ZenohAssembler

  datatype Backend = Dds(names: map<UInt32, string>) | ZenohCdr | ZenohProtobuf

  /** A message under construction and the PDO its header was last taken from. */
  datatype Message = Message(stampedBy: Option<Pdo>, columns: Columns)

  /** What is handed to a writer: an aggregate message, or one PDO as a Protobuf frame. */
  datatype Output = Wrote(message: Message) | Frame(pdo: Pdo)

  /** What an output says: a message read row by row, or the PDO itself. */
  datatype Report = Rows(stampedBy: Option<Pdo>, entries: seq<Entry>) | FrameOf(pdo: Pdo)

  /** The output carries exactly the report: aligned columns whose i-th row is entry i. */
  predicate Shows(kind: Kind, o: Output, r: Report) {
    match r
    case Rows(stampedBy, entries) =>
      o.Wrote? && o.message.stampedBy == stampedBy && HoldsRows(kind, o.message.columns, entries)
    case FrameOf(p) => o == Frame(p)
  }

  predicate ShowsAll(kind: Kind, os: seq<Output>, rs: seq<Report>) {
    |os| == |rs| && forall i :: 0 <= i < |os| ==> Shows(kind, os[i], rs[i])
  }

  datatype Call = Begin | Consume(pdo: Pdo) | End(valid: bool)

  /** The row a PDO contributes and the name it gets: each backend by its own assembler. */
  function EntryOf(backend: Backend, kind: Kind, p: Pdo): (e: Option<Entry>)
    ensures e.Some? ==> Fits(kind, e.value.row)
  {
    match backend
    case Dds(names) => (
      match DdsAssembler.RowOf(kind, p)
      case None => None
      case Some(row) => Some(Entry(DdsAssembler.NameOf(names, p), row)))
    case _ => ZenohAssembler.EntryOf(kind, p)
  }

  function EntryFn(backend: Backend, kind: Kind): Pdo -> Option<Entry> {
    p => EntryOf(backend, kind, p)
  }

  /** The rows of a cycle: one per accepted PDO, in the order consumed. */
  function EntriesOf(backend: Backend, kind: Kind, ps: seq<Pdo>): seq<Entry> {
    Collect(EntryFn(backend, kind), ps)
  }

  function Accepted(backend: Backend, kind: Kind, ps: seq<Pdo>): seq<Pdo> {
    Kept(EntryFn(backend, kind), ps)
  }

  function LastOf<T>(s: seq<T>): Option<T> {
    if s == [] then None else Some(s[|s| - 1])
  }

  function ReportOf(backend: Backend, kind: Kind, ps: seq<Pdo>): Report {
    Rows(LastOf(Accepted(backend, kind, ps)), EntriesOf(backend, kind, ps))
  }

  /** The aggregate serializer needs a stamped header on every PDO, besides an accepted type. */
  predicate Serializable(kind: Kind, p: Pdo) {
    && p.header.Some? && p.header.value.stamp.Some?
    && ZenohAssembler.EntryOf(kind, p).Some?
  }

  predicate AllSerializable(kind: Kind, ps: seq<Pdo>) {
    forall i :: 0 <= i < |ps| ==> Serializable(kind, ps[i])
  }

  /** What a complete, valid cycle over `ps` reports. */
  function CycleReport(backend: Backend, kind: Kind, ps: seq<Pdo>): seq<Report> {
    match backend
    case Dds(_) =>
      if EntriesOf(backend, kind, ps) == [] then [] else [ReportOf(backend, kind, ps)]
    case ZenohCdr =>
      if ps != [] && AllSerializable(kind, ps) then [ReportOf(backend, kind, ps)] else []
    case ZenohProtobuf => seq(|ps|, i requires 0 <= i < |ps| => FrameOf(ps[i]))
  }

  /** The PDOs consumed since the last `Begin`. */
  function Consumed(calls: seq<Call>): seq<Pdo> {
    if calls == [] then []
    else
      match calls[|calls| - 1]
      case Begin => []
      case Consume(p) => Consumed(calls[..|calls| - 1]) + [p]
      case End(_) => Consumed(calls[..|calls| - 1])
  }

  /** Everything reported over a whole sequence of calls. */
  function Reports(backend: Backend, kind: Kind, calls: seq<Call>): seq<Report> {
    if calls == [] then []
    else
      var before := calls[..|calls| - 1];
      if calls[|calls| - 1] == End(true) then
        Reports(backend, kind, before) + CycleReport(backend, kind, Consumed(before))
      else Reports(backend, kind, before)
  }

  lemma CallsPush(backend: Backend, kind: Kind, calls: seq<Call>, c: Call)
    ensures Consumed(calls + [c]) ==
            match c { case Begin => [] case Consume(p) => Consumed(calls) + [p] case End(_) => Consumed(calls) }
    ensures Reports(backend, kind, calls + [c]) ==
            if c == End(true) then Reports(backend, kind, calls) + CycleReport(backend, kind, Consumed(calls))
            else Reports(backend, kind, calls)
  {
    assert (calls + [c])[..|calls|] == calls;
  }

  /** Entry i of a report is the i-th accepted PDO's row; rejected PDOs leave no trace; the header is
      the last accepted PDO's. */
  lemma EntriesAreAcceptedPdos(backend: Backend, kind: Kind, ps: seq<Pdo>)
    ensures var accepted, r := Accepted(backend, kind, ps), ReportOf(backend, kind, ps);
            && |r.entries| == |accepted| <= |ps|
            && (forall i :: 0 <= i < |accepted| ==> EntryOf(backend, kind, accepted[i]) == Some(r.entries[i]))
            && (forall p :: p in accepted <==> p in ps && EntryOf(backend, kind, p).Some?)
            && r.stampedBy == LastOf(accepted)
  {
    CollectKept(EntryFn(backend, kind), ps);
    forall p ensures p in Accepted(backend, kind, ps) <==> p in ps && EntryOf(backend, kind, p).Some? {
      KeptFrom(EntryFn(backend, kind), ps, p);
    }
  }

  /** One more PDO in the report: its row at the end, or nothing at all. */
  lemma ReportPush(backend: Backend, kind: Kind, ps: seq<Pdo>, p: Pdo)
    ensures ReportOf(backend, kind, ps + [p]) ==
            match EntryOf(backend, kind, p)
            case None => ReportOf(backend, kind, ps)
            case Some(e) => Rows(Some(p), EntriesOf(backend, kind, ps) + [e])
  {
    CollectPush(EntryFn(backend, kind), ps, p);
  }

  lemma AllSerializablePush(kind: Kind, ps: seq<Pdo>, p: Pdo)
    ensures AllSerializable(kind, ps + [p]) <==> AllSerializable(kind, ps) && Serializable(kind, p)
  {
    var next := ps + [p];
    assert next[|ps|] == p;
    assert forall i :: 0 <= i < |ps| ==> next[i] == ps[i];
  }

  /** Serializable PDOs all become rows. */
  lemma SerializableRows(kind: Kind, ps: seq<Pdo>)
    requires AllSerializable(kind, ps)
    ensures Accepted(ZenohCdr, kind, ps) == ps
  {
    var f := EntryFn(ZenohCdr, kind);
    forall i | 0 <= i < |ps| ensures f(ps[i]).Some? {
      assert Serializable(kind, ps[i]);
    }
    KeptAll(f, ps);
  }

  /** One PDO of an aggregate. */
  method AppendNext(kind: Kind, columns: Columns, p: Pdo, ghost done: seq<Pdo>) returns (ok: bool, out: Columns)
    requires AllSerializable(kind, done) && HoldsRows(kind, columns, EntriesOf(ZenohCdr, kind, done))
    ensures ok <==> Serializable(kind, p)
    ensures ok ==> AllSerializable(kind, done + [p]) && HoldsRows(kind, out, EntriesOf(ZenohCdr, kind, done + [p]))
  {
    if p.header.None? || p.header.value.stamp.None? {
      return false, columns;
    }
    ReportPush(ZenohCdr, kind, done, p);
    AllSerializablePush(kind, done, p);
    ok, out := ZenohAssembler.Append(kind, columns, p);
  }

  /** Aggregate serialization: all PDOs or nothing. */
  method SerializeAggregate(kind: Kind, pdos: seq<Pdo>) returns (payload: Option<Message>)
    ensures payload.Some? <==> pdos != [] && AllSerializable(kind, pdos)
    ensures payload.Some? <==> pdos != [] && forall i :: 0 <= i < |pdos| ==>
              pdos[i].header.Some? && pdos[i].header.value.stamp.Some? && EntryOf(ZenohCdr, kind, pdos[i]).Some?
    ensures payload.Some? ==> Shows(kind, Wrote(payload.value), ReportOf(ZenohCdr, kind, pdos))
                              && payload.value.stampedBy == Some(pdos[|pdos| - 1])
  {
    if pdos == [] {
      return None;
    }
    var columns := EmptyColumns(kind);
    ghost var done := [];
    for i := 0 to |pdos|
      invariant done == pdos[..i] && AllSerializable(kind, done)
      invariant HoldsRows(kind, columns, EntriesOf(ZenohCdr, kind, done))
    {
      if AllSerializable(kind, pdos) { assert Serializable(kind, pdos[i]); }
      var ok;
      ok, columns := AppendNext(kind, columns, pdos[i], done);
      if !ok {
        return None;
      }
      done := done + [pdos[i]];
    }
    assert done == pdos;
    SerializableRows(kind, pdos);
    return Some(Message(Some(pdos[|pdos| - 1]), columns));
  }

  class Publisher {
    const kind: Kind
    const backend: Backend
    // DDS: the message being assembled and whether any PDO contributed to it.
    var message: Message
    var hasUpdate: bool
    // Zenoh: the PDOs collected this cycle.
    var messages: seq<Pdo>
    // Everything handed to the writer so far.
    var written: seq<Output>
    ghost var calls: seq<Call>

    ghost predicate Valid()
      reads this
    {
      && (backend.Dds? ==>
            && Shows(kind, Wrote(message), ReportOf(backend, kind, Consumed(calls)))
            && hasUpdate == (EntriesOf(backend, kind, Consumed(calls)) != []))
      && (!backend.Dds? ==> messages == Consumed(calls))
      && ShowsAll(kind, written, Reports(backend, kind, calls))
    }

    constructor (kind: Kind, backend: Backend)
      ensures Valid() && calls == [] && this.kind == kind && this.backend == backend
    {
      this.kind, this.backend := kind, backend;
      message, hasUpdate := Message(None, EmptyColumns(kind)), false;
      messages, written := [], [];
      calls := [];
    }

    method BeginCycle()
      requires Valid()
      modifies this
      ensures Valid() && calls == old(calls) + [Begin]
    {
      CallsPush(backend, kind, calls, Begin);
      calls := calls + [Begin];
      if backend.Dds? {
        message, hasUpdate := Message(None, EmptyColumns(kind)), false;
      } else {
        messages := [];
      }
    }

    method ConsumePdo(p: Pdo)
      requires Valid()
      modifies this
      ensures Valid() && calls == old(calls) + [Consume(p)]
    {
      CallsPush(backend, kind, calls, Consume(p));
      if backend.Dds? {
        Merge(p, Consumed(calls));
      } else {
        messages := messages + [p];
      }
      calls := calls + [Consume(p)];
    }

    /** DDS: convert the PDO and merge it into the message. */
    method Merge(p: Pdo, ghost ps: seq<Pdo>)
      requires backend.Dds? && Shows(kind, Wrote(message), ReportOf(backend, kind, ps))
      requires hasUpdate == (EntriesOf(backend, kind, ps) != [])
      modifies `message, `hasUpdate
      ensures Shows(kind, Wrote(message), ReportOf(backend, kind, ps + [p]))
      ensures hasUpdate == (EntriesOf(backend, kind, ps + [p]) != [])
    {
      ReportPush(backend, kind, ps, p);
      var ok, columns := DdsAssembler.Process(kind, message.columns, p, backend.names);
      if ok {
        message := Message(Some(p), columns);
        hasUpdate := true;
      }
    }

    method EndCycle(valid: bool)
      requires Valid()
      modifies this
      ensures Valid() && calls == old(calls) + [End(valid)]
    {
      ghost var ps, before := Consumed(calls), Reports(backend, kind, calls);
      CallsPush(backend, kind, calls, End(valid));
      if valid {
        match backend {
          case Dds(_) => WriteMessage(ps, before);
          case ZenohCdr => WritePayload(before);
          case ZenohProtobuf => WriteFrames(before);
        }
      }
      calls := calls + [End(valid)];
    }

    /** DDS: the message as assembled, if anything contributed to it. */
    method WriteMessage(ghost ps: seq<Pdo>, ghost before: seq<Report>)
      requires backend.Dds? && ShowsAll(kind, written, before)
      requires Shows(kind, Wrote(message), ReportOf(backend, kind, ps))
      requires hasUpdate == (EntriesOf(backend, kind, ps) != [])
      modifies `written
      ensures ShowsAll(kind, written, before + CycleReport(backend, kind, ps))
    {
      if hasUpdate {
        written := written + [Wrote(message)];
      }
    }

    /** Zenoh, CDR: one payload for all collected PDOs, or nothing. */
    method WritePayload(ghost before: seq<Report>)
      requires backend.ZenohCdr? && ShowsAll(kind, written, before)
      modifies `written
      ensures ShowsAll(kind, written, before + CycleReport(backend, kind, messages))
    {
      if messages != [] {
        var payload := SerializeAggregate(kind, messages);
        if payload.Some? {
          written := written + [Wrote(payload.value)];
        }
      }
    }

    /** Zenoh, Protobuf: a frame for each collected PDO. */
    method WriteFrames(ghost before: seq<Report>)
      requires backend.ZenohProtobuf? && ShowsAll(kind, written, before)
      modifies `written
      ensures ShowsAll(kind, written, before + CycleReport(backend, kind, messages))
    {
      ghost var report := CycleReport(backend, kind, messages);
      for i := 0 to |messages|
        invariant ShowsAll(kind, written, before + report[..i])
      {
        written := written + [Frame(messages[i])];
      }
      assert report[..|report|] == report;
    }
  }

  // ---- DDS and Zenoh compared -----------------------------------------------------------------

  predicate SameRows(a: seq<Entry>, b: seq<Entry>) {
    |a| == |b| && forall i :: 0 <= i < |a| ==> a[i].row == b[i].row
  }

  predicate HasValve(ps: seq<Pdo>) {
    exists i :: 0 <= i < |ps| && ps[i].ptype == RxHyqKnee
  }

  /** The two assemblers: what DDS takes, Zenoh takes as the same row; the one thing more that Zenoh takes
      is a valve in a joint state. */
  lemma SameRow(kind: Kind, p: Pdo)
    ensures DdsAssembler.RowOf(kind, p).Some? ==> ZenohAssembler.RowOf(kind, p) == DdsAssembler.RowOf(kind, p)
    ensures ZenohAssembler.RowOf(kind, p).Some? && DdsAssembler.RowOf(kind, p).None? <==>
            kind == JointState && p.ptype == RxHyqKnee
  {
  }

  /** The DDS publisher turns the same PDOs into the same rows, unless a joint state has a valve. */
  lemma DdsRows(kind: Kind, names: map<UInt32, string>, ps: seq<Pdo>)
    requires AllSerializable(kind, ps)
    ensures Accepted(Dds(names), kind, ps) == ps <==> !(kind == JointState && HasValve(ps))
    ensures |Accepted(Dds(names), kind, ps)| == |ps| <==> !(kind == JointState && HasValve(ps))
  {
    var f := EntryFn(Dds(names), kind);
    KeptAll(f, ps);
    forall i | 0 <= i < |ps|
      ensures f(ps[i]).Some? <==> !(kind == JointState && ps[i].ptype == RxHyqKnee)
    {
      assert Serializable(kind, ps[i]);
      SameRow(kind, ps[i]);
    }
  }

  lemma SameRowsWhenAllAccepted(kind: Kind, names: map<UInt32, string>, ps: seq<Pdo>)
    requires Accepted(Dds(names), kind, ps) == ps
    ensures SameRows(EntriesOf(Dds(names), kind, ps), EntriesOf(ZenohCdr, kind, ps))
  {
    var f, g := EntryFn(Dds(names), kind), EntryFn(ZenohCdr, kind);
    KeptAll(f, ps);
    forall i | 0 <= i < |ps| ensures g(ps[i]).Some? && g(ps[i]).value.row == f(ps[i]).value.row {
      SameRow(kind, ps[i]);
    }
    KeptAll(g, ps);
    CollectKept(f, ps);
    CollectKept(g, ps);
  }

  /** On one cycle's PDOs: if the Zenoh bridge writes a message, the DDS publisher writes one with the
      same rows and the same PDO behind its header, exactly unless a joint state contains a valve. */
  lemma BackendsAgree(kind: Kind, names: map<UInt32, string>, ps: seq<Pdo>)
    requires CycleReport(ZenohCdr, kind, ps) != []
    ensures CycleReport(ZenohCdr, kind, ps) == [ReportOf(ZenohCdr, kind, ps)]
    ensures !(kind == JointState && HasValve(ps)) <==>
            && CycleReport(Dds(names), kind, ps) == [ReportOf(Dds(names), kind, ps)]
            && SameRows(EntriesOf(Dds(names), kind, ps), EntriesOf(ZenohCdr, kind, ps))
    ensures !(kind == JointState && HasValve(ps)) ==>
              ReportOf(Dds(names), kind, ps).stampedBy == ReportOf(ZenohCdr, kind, ps).stampedBy
              == Some(ps[|ps| - 1])
  {
    SerializableRows(kind, ps);
    DdsRows(kind, names, ps);
    CollectKept(EntryFn(Dds(names), kind), ps);
    CollectKept(EntryFn(ZenohCdr, kind), ps);
    if !(kind == JointState && HasValve(ps)) {
      SameRowsWhenAllAccepted(kind, names, ps);
    }
  }

  lemma NothingOverDds(names: map<UInt32, string>, kind: Kind, p: Pdo)
    requires EntryOf(Dds(names), kind, p).None?
    ensures CycleReport(Dds(names), kind, [p]) == []
  {
    var f := EntryFn(Dds(names), kind);
    KeptAll(f, [p]);
    CollectKept(f, [p]);
    assert f([p][0]).None?;
  }

  /** The disagreement, on inputs: a joint state of a single stamped valve, whatever its ID, name, stamp and
      payload, is a message over Zenoh and nothing over DDS. */
  lemma ValveSplitsBackends(names: map<UInt32, string>, valve: Pdo)
    requires valve.ptype == RxHyqKnee && valve.header.Some? && valve.header.value.stamp.Some?
    ensures |CycleReport(ZenohCdr, JointState, [valve])| == 1
    ensures CycleReport(Dds(names), JointState, [valve]) == []
  {
    assert Serializable(JointState, valve);
    NothingOverDds(names, JointState, valve);
  }
}
