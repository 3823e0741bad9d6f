/**
 * What a message says, column by column: every column of a row holds the field of that name
 * in the payload of the PDO behind the row, a field the device does not report holds its default,
 * and so does every field of a payload that is missing.
 */
module MessageContents {
  import opened Wrappers
  import opened Pdos
  import opened Messages
  import opened Publishers
  import opened Decimal

  /** Row `i` of a motor state is what a CIA402 drive reported. */
  predicate ShowsCia402(m: MotorColumns, i: nat, p: Pdo)
    requires m.Aligned() && i < |m.name|
  {
    var pb := if p.payload.Cia402RxPdo? then p.payload.cia402Rx
              else Cia402Rx(0, 0, 0.0, 0.0, 0.0, 0.0, 0.0, 0.0, 0.0, 0.0, 0.0, 0.0, 0.0, 0.0, 0, 0, "");
    && m.statusword[i] == pb.statusword && m.modesOfOp[i] == pb.modesOfOp
    && m.motorPos[i] == pb.motorPos && m.motorVel[i] == pb.motorVel
    && m.linkPos[i] == pb.linkPos && m.linkVel[i] == pb.linkVel
    && m.current[i] == pb.current && m.torque[i] == pb.torque
    && m.demandedPos[i] == pb.demandedPos && m.demandedVel[i] == pb.demandedVel
    && m.demandedTorque[i] == pb.demandedTorque && m.demandedCurrent[i] == pb.demandedCurrent
    && m.controlEffort[i] == pb.controlEffort && m.motorTemp[i] == pb.motorTemp
    && m.driveTemp[i] == pb.driveTemp && m.errorCode[i] == pb.errorCode
    && m.errorReport[i] == pb.errorReport && m.fault[i] == 0 && m.rtt[i] == 0
  }

  predicate ShowsXtMotor(m: MotorColumns, i: nat, p: Pdo)
    requires m.Aligned() && i < |m.name|
  {
    var pb := if p.payload.MotorXtRxPdo? then p.payload.motorXtRx
              else MotorXtRx(0.0, 0.0, 0.0, 0.0, 0.0, 0.0, 0, 0);
    && m.motorPos[i] == pb.motorPos && m.motorVel[i] == pb.motorVel
    && m.linkPos[i] == pb.linkPos && m.linkVel[i] == pb.linkVel
    && m.torque[i] == pb.torque && m.motorTemp[i] == pb.motorTemp
    && m.fault[i] == pb.fault && m.rtt[i] == pb.rtt
    && NoDriveState(m, i)
  }

  predicate ShowsLegacyMotor(m: MotorColumns, i: nat, p: Pdo)
    requires m.Aligned() && i < |m.name|
  {
    var pb := if p.payload.MotorRxPdo? then p.payload.motorRx else MotorRx(0.0, 0.0, 0.0, 0, 0);
    && m.motorPos[i] == pb.motorPos && m.linkPos[i] == pb.linkPos && m.torque[i] == pb.torque
    && m.fault[i] == pb.fault && m.rtt[i] == pb.rtt
    && m.motorVel[i] == m.linkVel[i] == m.motorTemp[i] == 0.0
    && NoDriveState(m, i)
  }

  /** The columns only a CIA402 drive fills. */
  predicate NoDriveState(m: MotorColumns, i: nat)
    requires m.Aligned() && i < |m.name|
  {
    && m.statusword[i] == m.modesOfOp[i] == m.driveTemp[i] == m.errorCode[i] == 0 && m.errorReport[i] == ""
    && m.current[i] == m.demandedPos[i] == m.demandedVel[i] == m.demandedTorque[i] == m.demandedCurrent[i]
       == m.controlEffort[i] == 0.0
  }

  predicate ShowsMotor(m: MotorColumns, i: nat, p: Pdo)
    requires m.Aligned() && i < |m.name|
  {
    || (p.ptype == RxCia402 && ShowsCia402(m, i, p))
    || (p.ptype == RxXtMotor && ShowsXtMotor(m, i, p))
    || (p.ptype == RxMotor && ShowsLegacyMotor(m, i, p))
  }

  predicate ShowsValve(m: ValveColumns, i: nat, p: Pdo)
    requires m.Aligned() && i < |m.name|
  {
    var pb := if p.payload.HyqKneeRxPdo? then p.payload.hyqKneeRx
              else HyqKneeRx(0.0, 0.0, 0.0, 0.0, 0.0, 0.0, 0, 0, 0, 0.0, 0.0, 0.0, 0.0);
    && p.ptype == RxHyqKnee
    && m.force[i] == pb.force && m.pressure1[i] == pb.pressure1 && m.pressure2[i] == pb.pressure2
    && m.encoderPosition[i] == pb.encoderPosition && m.current[i] == pb.current
    && m.temperature[i] == pb.temperature && m.fault[i] == pb.fault && m.rtt[i] == pb.rtt
    && m.opIdxAck[i] == pb.opIdxAck && m.aux[i] == pb.aux && m.currentRefFb[i] == pb.currentRefFb
    && m.positionRefFb[i] == pb.positionRefFb && m.forceRefFb[i] == pb.forceRefFb
  }

  predicate ShowsGripper(m: GripperColumns, i: nat, p: Pdo)
    requires m.Aligned() && i < |m.name|
  {
    var pb := if p.payload.GripperRxPdo? then p.payload.gripperRx else GripperRx(0, 0.0, 0.0, 0.0, 0.0, 0);
    && p.ptype == RxGripper
    && m.statusword[i] == pb.statusword && m.motorPos[i] == pb.motorPos && m.linkPos[i] == pb.linkPos
    && m.demandedPos[i] == pb.demandedPos && m.demandedVel[i] == pb.demandedVel && m.errorCode[i] == pb.errorCode
  }

  /** Row `i` of a joint state: the link side of a motor, the opening of a gripper, the force of a valve. */
  predicate ShowsJoint(m: JointColumns, i: nat, p: Pdo)
    requires m.Aligned() && i < |m.name|
  {
    match p.ptype
    case RxCia402 =>
      && m.position[i] == (if p.payload.Cia402RxPdo? then p.payload.cia402Rx.linkPos else 0.0)
      && m.velocity[i] == (if p.payload.Cia402RxPdo? then p.payload.cia402Rx.linkVel else 0.0)
      && m.effort[i] == (if p.payload.Cia402RxPdo? then p.payload.cia402Rx.torque else 0.0)
    case RxXtMotor =>
      && m.position[i] == (if p.payload.MotorXtRxPdo? then p.payload.motorXtRx.linkPos else 0.0)
      && m.velocity[i] == (if p.payload.MotorXtRxPdo? then p.payload.motorXtRx.linkVel else 0.0)
      && m.effort[i] == (if p.payload.MotorXtRxPdo? then p.payload.motorXtRx.torque else 0.0)
    case RxMotor =>
      && m.position[i] == (if p.payload.MotorRxPdo? then p.payload.motorRx.linkPos else 0.0)
      && m.velocity[i] == 0.0
      && m.effort[i] == (if p.payload.MotorRxPdo? then p.payload.motorRx.torque else 0.0)
    case RxGripper =>
      && m.position[i] == (if p.payload.GripperRxPdo? then p.payload.gripperRx.linkPos else 0.0)
      && m.velocity[i] == m.effort[i] == 0.0
    case RxHyqKnee =>
      && m.position[i] == m.velocity[i] == 0.0
      && m.effort[i] == (if p.payload.HyqKneeRxPdo? then p.payload.hyqKneeRx.force else 0.0)
    case _ => false
  }

  /** The name a row goes by: over DDS the one configured for the index in the PDO's header, taken as unsigned and
      as zero if missing, or one made from it; over Zenoh the identifier the PDO carries. */
  predicate Named(backend: Backend, name: string, p: Pdo) {
    if backend.Dds? then
      var index := if p.header.Some? && p.header.value.index.Some? then p.header.value.index.value else 0;
      var id := if index < 0 then index + 0x1_0000_0000 else index;
      name == if id in backend.names then backend.names[id] else "ecat_" + ToDecimal(id)
    else
      name == if p.header.Some? && p.header.value.strId.Some? then p.header.value.strId.value else ""
  }

  /** Row `i` of the message is a PDO's: its name and, column by column, its payload. */
  predicate RowShows(backend: Backend, kind: Kind, m: Columns, i: nat, p: Pdo) {
    match m
    case Joints(c) =>
      kind == JointState && c.Aligned() && i < |c.name| && Named(backend, c.name[i], p) && ShowsJoint(c, i, p)
    case Motors(c) =>
      kind == MotorState && c.Aligned() && i < |c.name| && Named(backend, c.name[i], p) && ShowsMotor(c, i, p)
    case Valves(c) =>
      kind == ValveState && c.Aligned() && i < |c.name| && Named(backend, c.name[i], p) && ShowsValve(c, i, p)
    case Grippers(c) =>
      kind == GripperState && c.Aligned() && i < |c.name| && Named(backend, c.name[i], p) && ShowsGripper(c, i, p)
  }

  lemma NamesShown(backend: Backend, kind: Kind, p: Pdo)
    requires EntryOf(backend, kind, p).Some?
    ensures Named(backend, EntryOf(backend, kind, p).value.name, p)
  {
  }

  lemma MotorShown(backend: Backend, m: MotorColumns, i: nat, p: Pdo)
    requires m.Aligned() && i < |m.name| && EntryOf(backend, MotorState, p) == Some(m.Entries()[i])
    ensures ShowsMotor(m, i, p)
  {
    assert m.Entries()[i].row == OfMotor(m.RowAt(i));
  }

  lemma JointShown(backend: Backend, m: JointColumns, i: nat, p: Pdo)
    requires m.Aligned() && i < |m.name| && EntryOf(backend, JointState, p) == Some(m.Entries()[i])
    ensures ShowsJoint(m, i, p)
  {
    assert m.Entries()[i].row == OfJoint(m.RowAt(i));
  }

  lemma ValveShown(backend: Backend, m: ValveColumns, i: nat, p: Pdo)
    requires m.Aligned() && i < |m.name| && EntryOf(backend, ValveState, p) == Some(m.Entries()[i])
    ensures ShowsValve(m, i, p)
  {
    assert m.Entries()[i].row == OfValve(m.RowAt(i));
  }

  lemma GripperShown(backend: Backend, m: GripperColumns, i: nat, p: Pdo)
    requires m.Aligned() && i < |m.name| && EntryOf(backend, GripperState, p) == Some(m.Entries()[i])
    ensures ShowsGripper(m, i, p)
  {
    assert m.Entries()[i].row == OfGripper(m.RowAt(i));
  }

  /** The columns of a message, whichever backend assembled it, against the PDOs it was assembled from. */
  lemma EntryIsRow(backend: Backend, kind: Kind, m: Columns, entries: seq<Entry>, i: nat, p: Pdo)
    requires HoldsRows(kind, m, entries) && i < |entries| && EntryOf(backend, kind, p) == Some(entries[i])
    ensures RowShows(backend, kind, m, i, p)
  {
    NamesShown(backend, kind, p);
    match m {
      case Joints(c) => JointShown(backend, c, i, p);
      case Motors(c) => MotorShown(backend, c, i, p);
      case Valves(c) => ValveShown(backend, c, i, p);
      case Grippers(c) => GripperShown(backend, c, i, p);
    }
  }

  /** A message holds one row for each accepted PDO of its cycle, in the order consumed: the name and every
      column of row i are those of the i-th accepted PDO. */
  lemma ColumnsShowPayloads(backend: Backend, kind: Kind, m: Columns, ps: seq<Pdo>)
    requires HoldsRows(kind, m, EntriesOf(backend, kind, ps))
    ensures var accepted := Accepted(backend, kind, ps);
            && |Entries(m)| == |accepted|
            && forall i :: 0 <= i < |accepted| ==> RowShows(backend, kind, m, i, accepted[i])
  {
    EntriesAreAcceptedPdos(backend, kind, ps);
    var accepted := Accepted(backend, kind, ps);
    forall i | 0 <= i < |accepted| ensures RowShows(backend, kind, m, i, accepted[i]) {
      EntryIsRow(backend, kind, m, EntriesOf(backend, kind, ps), i, accepted[i]);
    }
  }

  /** Which types each topic takes: motors, valves and grippers their own; joint states all of these, but over
      DDS no valves. */
  lemma AcceptedTypes(backend: Backend, kind: Kind, p: Pdo)
    ensures EntryOf(backend, kind, p).Some? <==>
            match kind
            case MotorState => p.ptype == RxCia402 || p.ptype == RxXtMotor || p.ptype == RxMotor
            case ValveState => p.ptype == RxHyqKnee
            case GripperState => p.ptype == RxGripper
            case JointState =>
              || p.ptype == RxCia402 || p.ptype == RxXtMotor || p.ptype == RxMotor || p.ptype == RxGripper
              || (p.ptype == RxHyqKnee && !backend.Dds?)
  {
  }
}
