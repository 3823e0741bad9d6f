/**
 * Struct-of-arrays messages. A row is one device's values; a message keeps one
 * column per field, and its columns stay aligned only if every converter appends
 * to every one of them. Converters append column by column, as the source does.
 */
module Messages {
  import opened Wrappers
  import opened Pdos

  /** One device's contribution to a message, with its name. */
  datatype Row =
    | OfJoint(joint: JointRow)
    | OfMotor(motor: MotorRow)
    | OfValve(valve: ValveRow)
    | OfGripper(gripper: GripperRow)

  datatype Entry = Entry(name: string, row: Row)

  datatype MotorRow = MotorRow(
    statusword: int, modesOfOp: int, motorPos: real, motorVel: real, linkPos: real, linkVel: real,
    current: real, torque: real, demandedPos: real, demandedVel: real, demandedTorque: real,
    demandedCurrent: real, controlEffort: real, motorTemp: real, driveTemp: int, errorCode: int,
    errorReport: string, fault: int, rtt: int)

  datatype MotorColumns = MotorColumns(
    name: seq<string>,
    statusword: seq<int>, modesOfOp: seq<int>, motorPos: seq<real>, motorVel: seq<real>,
    linkPos: seq<real>, linkVel: seq<real>, current: seq<real>, torque: seq<real>, demandedPos: seq<real>,
    demandedVel: seq<real>, demandedTorque: seq<real>, demandedCurrent: seq<real>,
    controlEffort: seq<real>, motorTemp: seq<real>, driveTemp: seq<int>, errorCode: seq<int>,
    errorReport: seq<string>, fault: seq<int>, rtt: seq<int>)
  {
    predicate Aligned() {
      |name| == |statusword| == |modesOfOp| == |motorPos| == |motorVel| == |linkPos| == |linkVel| ==
      |current| == |torque| == |demandedPos| == |demandedVel| == |demandedTorque| == |demandedCurrent| ==
      |controlEffort| == |motorTemp| == |driveTemp| == |errorCode| == |errorReport| == |fault| == |rtt|
    }

    function RowAt(i: nat): MotorRow
      requires Aligned() && i < |name|
    {
      MotorRow(
        statusword[i], modesOfOp[i], motorPos[i], motorVel[i], linkPos[i], linkVel[i], current[i],
        torque[i], demandedPos[i], demandedVel[i], demandedTorque[i], demandedCurrent[i], controlEffort[i],
        motorTemp[i], driveTemp[i], errorCode[i], errorReport[i], fault[i], rtt[i])
    }

    /** The message read row by row. */
    function Entries(): seq<Entry>
      requires Aligned()
    {
      seq(|name|, i requires 0 <= i < |name| => Entry(name[i], OfMotor(RowAt(i))))
    }

    /** Every value column extended by one row's field; the name column is pushed separately. */
    function PushValues(r: MotorRow): MotorColumns {
      MotorColumns(
        name,
        statusword + [r.statusword], modesOfOp + [r.modesOfOp], motorPos + [r.motorPos],
        motorVel + [r.motorVel], linkPos + [r.linkPos], linkVel + [r.linkVel], current + [r.current],
        torque + [r.torque], demandedPos + [r.demandedPos], demandedVel + [r.demandedVel],
        demandedTorque + [r.demandedTorque], demandedCurrent + [r.demandedCurrent],
        controlEffort + [r.controlEffort], motorTemp + [r.motorTemp], driveTemp + [r.driveTemp],
        errorCode + [r.errorCode], errorReport + [r.errorReport], fault + [r.fault], rtt + [r.rtt])
    }

    function PushName(s: string): MotorColumns {
      this.(name := name + [s])
    }

    lemma Pushed(s: string, r: MotorRow)
      requires Aligned()
      ensures PushValues(r).PushName(s).Aligned()
      ensures PushValues(r).PushName(s).Entries() == Entries() + [Entry(s, OfMotor(r))]
    {
      var d := PushValues(r).PushName(s);
      assert d.RowAt(|name|) == r;
      assert forall i :: 0 <= i < |name| ==> d.RowAt(i) == RowAt(i);
    }
  }

  datatype JointRow = JointRow(
    position: real, velocity: real, effort: real)

  datatype JointColumns = JointColumns(
    name: seq<string>,
    position: seq<real>, velocity: seq<real>, effort: seq<real>)
  {
    predicate Aligned() {
      |name| == |position| == |velocity| == |effort|
    }

    function RowAt(i: nat): JointRow
      requires Aligned() && i < |name|
    {
      JointRow(
        position[i], velocity[i], effort[i])
    }

    /** The message read row by row. */
    function Entries(): seq<Entry>
      requires Aligned()
    {
      seq(|name|, i requires 0 <= i < |name| => Entry(name[i], OfJoint(RowAt(i))))
    }

    /** Every value column extended by one row's field; the name column is pushed separately. */
    function PushValues(r: JointRow): JointColumns {
      JointColumns(
        name,
        position + [r.position], velocity + [r.velocity], effort + [r.effort])
    }

    function PushName(s: string): JointColumns {
      this.(name := name + [s])
    }

    lemma Pushed(s: string, r: JointRow)
      requires Aligned()
      ensures PushValues(r).PushName(s).Aligned()
      ensures PushValues(r).PushName(s).Entries() == Entries() + [Entry(s, OfJoint(r))]
    {
      var d := PushValues(r).PushName(s);
      assert d.RowAt(|name|) == r;
      assert forall i :: 0 <= i < |name| ==> d.RowAt(i) == RowAt(i);
    }
  }

  datatype ValveRow = ValveRow(
    force: real, pressure1: real, pressure2: real, encoderPosition: real, current: real, temperature: real,
    fault: int, rtt: int, opIdxAck: int, aux: real, currentRefFb: real, positionRefFb: real,
    forceRefFb: real)

  datatype ValveColumns = ValveColumns(
    name: seq<string>,
    force: seq<real>, pressure1: seq<real>, pressure2: seq<real>, encoderPosition: seq<real>,
    current: seq<real>, temperature: seq<real>, fault: seq<int>, rtt: seq<int>, opIdxAck: seq<int>,
    aux: seq<real>, currentRefFb: seq<real>, positionRefFb: seq<real>, forceRefFb: seq<real>)
  {
    predicate Aligned() {
      |name| == |force| == |pressure1| == |pressure2| == |encoderPosition| == |current| == |temperature| ==
      |fault| == |rtt| == |opIdxAck| == |aux| == |currentRefFb| == |positionRefFb| == |forceRefFb|
    }

    function RowAt(i: nat): ValveRow
      requires Aligned() && i < |name|
    {
      ValveRow(
        force[i], pressure1[i], pressure2[i], encoderPosition[i], current[i], temperature[i], fault[i],
        rtt[i], opIdxAck[i], aux[i], currentRefFb[i], positionRefFb[i], forceRefFb[i])
    }

    /** The message read row by row. */
    function Entries(): seq<Entry>
      requires Aligned()
    {
      seq(|name|, i requires 0 <= i < |name| => Entry(name[i], OfValve(RowAt(i))))
    }

    /** Every value column extended by one row's field; the name column is pushed separately. */
    function PushValues(r: ValveRow): ValveColumns {
      ValveColumns(
        name,
        force + [r.force], pressure1 + [r.pressure1], pressure2 + [r.pressure2],
        encoderPosition + [r.encoderPosition], current + [r.current], temperature + [r.temperature],
        fault + [r.fault], rtt + [r.rtt], opIdxAck + [r.opIdxAck], aux + [r.aux],
        currentRefFb + [r.currentRefFb], positionRefFb + [r.positionRefFb], forceRefFb + [r.forceRefFb])
    }

    function PushName(s: string): ValveColumns {
      this.(name := name + [s])
    }

    lemma Pushed(s: string, r: ValveRow)
      requires Aligned()
      ensures PushValues(r).PushName(s).Aligned()
      ensures PushValues(r).PushName(s).Entries() == Entries() + [Entry(s, OfValve(r))]
    {
      var d := PushValues(r).PushName(s);
      assert d.RowAt(|name|) == r;
      assert forall i :: 0 <= i < |name| ==> d.RowAt(i) == RowAt(i);
    }
  }

  datatype GripperRow = GripperRow(
    statusword: int, motorPos: real, linkPos: real, demandedPos: real, demandedVel: real, errorCode: int)

  datatype GripperColumns = GripperColumns(
    name: seq<string>,
    statusword: seq<int>, motorPos: seq<real>, linkPos: seq<real>, demandedPos: seq<real>,
    demandedVel: seq<real>, errorCode: seq<int>)
  {
    predicate Aligned() {
      |name| == |statusword| == |motorPos| == |linkPos| == |demandedPos| == |demandedVel| == |errorCode|
    }

    function RowAt(i: nat): GripperRow
      requires Aligned() && i < |name|
    {
      GripperRow(
        statusword[i], motorPos[i], linkPos[i], demandedPos[i], demandedVel[i], errorCode[i])
    }

    /** The message read row by row. */
    function Entries(): seq<Entry>
      requires Aligned()
    {
      seq(|name|, i requires 0 <= i < |name| => Entry(name[i], OfGripper(RowAt(i))))
    }

    /** Every value column extended by one row's field; the name column is pushed separately. */
    function PushValues(r: GripperRow): GripperColumns {
      GripperColumns(
        name,
        statusword + [r.statusword], motorPos + [r.motorPos], linkPos + [r.linkPos],
        demandedPos + [r.demandedPos], demandedVel + [r.demandedVel], errorCode + [r.errorCode])
    }

    function PushName(s: string): GripperColumns {
      this.(name := name + [s])
    }

    lemma Pushed(s: string, r: GripperRow)
      requires Aligned()
      ensures PushValues(r).PushName(s).Aligned()
      ensures PushValues(r).PushName(s).Entries() == Entries() + [Entry(s, OfGripper(r))]
    {
      var d := PushValues(r).PushName(s);
      assert d.RowAt(|name|) == r;
      assert forall i :: 0 <= i < |name| ==> d.RowAt(i) == RowAt(i);
    }
  }

  // Rows, field by field; a field the device does not report takes its default.

  function Cia402Row(pb: Cia402Rx): MotorRow {
    MotorRow(
      statusword := pb.statusword, modesOfOp := pb.modesOfOp, motorPos := pb.motorPos,
      motorVel := pb.motorVel, linkPos := pb.linkPos, linkVel := pb.linkVel, current := pb.current,
      torque := pb.torque, demandedPos := pb.demandedPos, demandedVel := pb.demandedVel,
      demandedTorque := pb.demandedTorque, demandedCurrent := pb.demandedCurrent,
      controlEffort := pb.controlEffort, motorTemp := pb.motorTemp, driveTemp := pb.driveTemp,
      errorCode := pb.errorCode, errorReport := pb.errorReport, fault := 0, rtt := 0)
  }

  function MotorXtRow(pb: MotorXtRx): MotorRow {
    MotorRow(
      statusword := 0, modesOfOp := 0, motorPos := pb.motorPos, motorVel := pb.motorVel,
      linkPos := pb.linkPos, linkVel := pb.linkVel, current := 0.0, torque := pb.torque,
      demandedPos := 0.0, demandedVel := 0.0, demandedTorque := 0.0, demandedCurrent := 0.0,
      controlEffort := 0.0, motorTemp := pb.motorTemp, driveTemp := 0, errorCode := 0, errorReport := "",
      fault := pb.fault, rtt := pb.rtt)
  }

  function LegacyMotorRow(pb: MotorRx): MotorRow {
    MotorRow(
      statusword := 0, modesOfOp := 0, motorPos := pb.motorPos, motorVel := 0.0, linkPos := pb.linkPos,
      linkVel := 0.0, current := 0.0, torque := pb.torque, demandedPos := 0.0, demandedVel := 0.0,
      demandedTorque := 0.0, demandedCurrent := 0.0, controlEffort := 0.0, motorTemp := 0.0,
      driveTemp := 0, errorCode := 0, errorReport := "", fault := pb.fault, rtt := pb.rtt)
  }

  function KneeRow(pb: HyqKneeRx): ValveRow {
    ValveRow(
      force := pb.force, pressure1 := pb.pressure1, pressure2 := pb.pressure2,
      encoderPosition := pb.encoderPosition, current := pb.current, temperature := pb.temperature,
      fault := pb.fault, rtt := pb.rtt, opIdxAck := pb.opIdxAck, aux := pb.aux,
      currentRefFb := pb.currentRefFb, positionRefFb := pb.positionRefFb, forceRefFb := pb.forceRefFb)
  }

  function GripRow(pb: GripperRx): GripperRow {
    GripperRow(
      statusword := pb.statusword, motorPos := pb.motorPos, linkPos := pb.linkPos,
      demandedPos := pb.demandedPos, demandedVel := pb.demandedVel, errorCode := pb.errorCode)
  }

  // Converters: the columns are appended in the source's order.

  method AppendCia402(m: MotorColumns, pb: Cia402Rx) returns (out: MotorColumns)
    ensures out == m.PushValues(Cia402Row(pb))
    ensures out == MotorColumns(
      name := m.name, statusword := m.statusword + [pb.statusword], modesOfOp := m.modesOfOp + [pb.modesOfOp],
      motorPos := m.motorPos + [pb.motorPos], motorVel := m.motorVel + [pb.motorVel],
      linkPos := m.linkPos + [pb.linkPos], linkVel := m.linkVel + [pb.linkVel], current := m.current + [pb.current],
      torque := m.torque + [pb.torque], demandedPos := m.demandedPos + [pb.demandedPos],
      demandedVel := m.demandedVel + [pb.demandedVel], demandedTorque := m.demandedTorque + [pb.demandedTorque],
      demandedCurrent := m.demandedCurrent + [pb.demandedCurrent],
      controlEffort := m.controlEffort + [pb.controlEffort], motorTemp := m.motorTemp + [pb.motorTemp],
      driveTemp := m.driveTemp + [pb.driveTemp], errorCode := m.errorCode + [pb.errorCode],
      errorReport := m.errorReport + [pb.errorReport], fault := m.fault + [0], rtt := m.rtt + [0])
  {
    out := m;
    out := out.(statusword := out.statusword + [pb.statusword]);
    out := out.(modesOfOp := out.modesOfOp + [pb.modesOfOp]);
    out := out.(motorPos := out.motorPos + [pb.motorPos]);
    out := out.(motorVel := out.motorVel + [pb.motorVel]);
    out := out.(linkPos := out.linkPos + [pb.linkPos]);
    out := out.(linkVel := out.linkVel + [pb.linkVel]);
    out := out.(current := out.current + [pb.current]);
    out := out.(torque := out.torque + [pb.torque]);
    out := out.(demandedPos := out.demandedPos + [pb.demandedPos]);
    out := out.(demandedVel := out.demandedVel + [pb.demandedVel]);
    out := out.(demandedTorque := out.demandedTorque + [pb.demandedTorque]);
    out := out.(demandedCurrent := out.demandedCurrent + [pb.demandedCurrent]);
    out := out.(controlEffort := out.controlEffort + [pb.controlEffort]);
    out := out.(motorTemp := out.motorTemp + [pb.motorTemp]);
    out := out.(driveTemp := out.driveTemp + [pb.driveTemp]);
    out := out.(errorCode := out.errorCode + [pb.errorCode]);
    out := out.(errorReport := out.errorReport + [pb.errorReport]);
    out := out.(fault := out.fault + [0]);
    out := out.(rtt := out.rtt + [0]);
  }

  method AppendMotorXt(m: MotorColumns, pb: MotorXtRx) returns (out: MotorColumns)
    ensures out == m.PushValues(MotorXtRow(pb))
    ensures out == MotorColumns(
      name := m.name, statusword := m.statusword + [0], modesOfOp := m.modesOfOp + [0],
      motorPos := m.motorPos + [pb.motorPos], motorVel := m.motorVel + [pb.motorVel],
      linkPos := m.linkPos + [pb.linkPos], linkVel := m.linkVel + [pb.linkVel], current := m.current + [0.0],
      torque := m.torque + [pb.torque], demandedPos := m.demandedPos + [0.0], demandedVel := m.demandedVel + [0.0],
      demandedTorque := m.demandedTorque + [0.0], demandedCurrent := m.demandedCurrent + [0.0],
      controlEffort := m.controlEffort + [0.0], motorTemp := m.motorTemp + [pb.motorTemp],
      driveTemp := m.driveTemp + [0], errorCode := m.errorCode + [0], errorReport := m.errorReport + [""],
      fault := m.fault + [pb.fault], rtt := m.rtt + [pb.rtt])
  {
    out := m;
    out := out.(motorPos := out.motorPos + [pb.motorPos]);
    out := out.(linkPos := out.linkPos + [pb.linkPos]);
    out := out.(motorVel := out.motorVel + [pb.motorVel]);
    out := out.(linkVel := out.linkVel + [pb.linkVel]);
    out := out.(torque := out.torque + [pb.torque]);
    out := out.(motorTemp := out.motorTemp + [pb.motorTemp]);
    out := out.(fault := out.fault + [pb.fault]);
    out := out.(rtt := out.rtt + [pb.rtt]);
    out := out.(statusword := out.statusword + [0]);
    out := out.(modesOfOp := out.modesOfOp + [0]);
    out := out.(current := out.current + [0.0]);
    out := out.(demandedPos := out.demandedPos + [0.0]);
    out := out.(demandedVel := out.demandedVel + [0.0]);
    out := out.(demandedTorque := out.demandedTorque + [0.0]);
    out := out.(demandedCurrent := out.demandedCurrent + [0.0]);
    out := out.(controlEffort := out.controlEffort + [0.0]);
    out := out.(driveTemp := out.driveTemp + [0]);
    out := out.(errorCode := out.errorCode + [0]);
    out := out.(errorReport := out.errorReport + [""]);
  }

  method AppendLegacyMotor(m: MotorColumns, pb: MotorRx) returns (out: MotorColumns)
    ensures out == m.PushValues(LegacyMotorRow(pb))
    ensures out == MotorColumns(
      name := m.name, statusword := m.statusword + [0], modesOfOp := m.modesOfOp + [0],
      motorPos := m.motorPos + [pb.motorPos], motorVel := m.motorVel + [0.0], linkPos := m.linkPos + [pb.linkPos],
      linkVel := m.linkVel + [0.0], current := m.current + [0.0], torque := m.torque + [pb.torque],
      demandedPos := m.demandedPos + [0.0], demandedVel := m.demandedVel + [0.0],
      demandedTorque := m.demandedTorque + [0.0], demandedCurrent := m.demandedCurrent + [0.0],
      controlEffort := m.controlEffort + [0.0], motorTemp := m.motorTemp + [0.0], driveTemp := m.driveTemp + [0],
      errorCode := m.errorCode + [0], errorReport := m.errorReport + [""], fault := m.fault + [pb.fault],
      rtt := m.rtt + [pb.rtt])
  {
    out := m;
    out := out.(motorPos := out.motorPos + [pb.motorPos]);
    out := out.(linkPos := out.linkPos + [pb.linkPos]);
    out := out.(torque := out.torque + [pb.torque]);
    out := out.(fault := out.fault + [pb.fault]);
    out := out.(rtt := out.rtt + [pb.rtt]);
    out := out.(motorVel := out.motorVel + [0.0]);
    out := out.(linkVel := out.linkVel + [0.0]);
    out := out.(motorTemp := out.motorTemp + [0.0]);
    out := out.(statusword := out.statusword + [0]);
    out := out.(modesOfOp := out.modesOfOp + [0]);
    out := out.(current := out.current + [0.0]);
    out := out.(demandedPos := out.demandedPos + [0.0]);
    out := out.(demandedVel := out.demandedVel + [0.0]);
    out := out.(demandedTorque := out.demandedTorque + [0.0]);
    out := out.(demandedCurrent := out.demandedCurrent + [0.0]);
    out := out.(controlEffort := out.controlEffort + [0.0]);
    out := out.(driveTemp := out.driveTemp + [0]);
    out := out.(errorCode := out.errorCode + [0]);
    out := out.(errorReport := out.errorReport + [""]);
  }

  method AppendKnee(m: ValveColumns, pb: HyqKneeRx) returns (out: ValveColumns)
    ensures out == m.PushValues(KneeRow(pb))
    ensures out == ValveColumns(
      name := m.name, force := m.force + [pb.force], pressure1 := m.pressure1 + [pb.pressure1],
      pressure2 := m.pressure2 + [pb.pressure2], encoderPosition := m.encoderPosition + [pb.encoderPosition],
      current := m.current + [pb.current], temperature := m.temperature + [pb.temperature],
      fault := m.fault + [pb.fault], rtt := m.rtt + [pb.rtt], opIdxAck := m.opIdxAck + [pb.opIdxAck],
      aux := m.aux + [pb.aux], currentRefFb := m.currentRefFb + [pb.currentRefFb],
      positionRefFb := m.positionRefFb + [pb.positionRefFb], forceRefFb := m.forceRefFb + [pb.forceRefFb])
  {
    out := m;
    out := out.(force := out.force + [pb.force]);
    out := out.(pressure1 := out.pressure1 + [pb.pressure1]);
    out := out.(pressure2 := out.pressure2 + [pb.pressure2]);
    out := out.(encoderPosition := out.encoderPosition + [pb.encoderPosition]);
    out := out.(current := out.current + [pb.current]);
    out := out.(temperature := out.temperature + [pb.temperature]);
    out := out.(fault := out.fault + [pb.fault]);
    out := out.(rtt := out.rtt + [pb.rtt]);
    out := out.(opIdxAck := out.opIdxAck + [pb.opIdxAck]);
    out := out.(aux := out.aux + [pb.aux]);
    out := out.(currentRefFb := out.currentRefFb + [pb.currentRefFb]);
    out := out.(positionRefFb := out.positionRefFb + [pb.positionRefFb]);
    out := out.(forceRefFb := out.forceRefFb + [pb.forceRefFb]);
  }

  method AppendGripper(m: GripperColumns, pb: GripperRx) returns (out: GripperColumns)
    ensures out == m.PushValues(GripRow(pb))
    ensures out == GripperColumns(
      name := m.name, statusword := m.statusword + [pb.statusword], motorPos := m.motorPos + [pb.motorPos],
      linkPos := m.linkPos + [pb.linkPos], demandedPos := m.demandedPos + [pb.demandedPos],
      demandedVel := m.demandedVel + [pb.demandedVel], errorCode := m.errorCode + [pb.errorCode])
  {
    out := m;
    out := out.(statusword := out.statusword + [pb.statusword]);
    out := out.(motorPos := out.motorPos + [pb.motorPos]);
    out := out.(linkPos := out.linkPos + [pb.linkPos]);
    out := out.(demandedPos := out.demandedPos + [pb.demandedPos]);
    out := out.(demandedVel := out.demandedVel + [pb.demandedVel]);
    out := out.(errorCode := out.errorCode + [pb.errorCode]);
  }

  method AppendJoint(m: JointColumns, position: real, velocity: real, effort: real) returns (out: JointColumns)
    ensures out == m.PushValues(JointRow(position, velocity, effort))
    ensures out == JointColumns(
      name := m.name, position := m.position + [position], velocity := m.velocity + [velocity],
      effort := m.effort + [effort])
  {
    out := m;
    out := out.(position := out.position + [position]);
    out := out.(velocity := out.velocity + [velocity]);
    out := out.(effort := out.effort + [effort]);
  }

  /** Which aggregate message a topic carries. */
  datatype Kind = JointState | MotorState | ValveState | GripperState

  datatype Columns =
    | Joints(joints: JointColumns)
    | Motors(motors: MotorColumns)
    | Valves(valves: ValveColumns)
    | Grippers(grippers: GripperColumns)

  predicate Fits(kind: Kind, r: Row) {
    match kind
    case JointState => r.OfJoint?
    case MotorState => r.OfMotor?
    case ValveState => r.OfValve?
    case GripperState => r.OfGripper?
  }

  function EmptyColumns(kind: Kind): Columns {
    match kind
    case JointState => Joints(JointColumns([], [], [], []))
    case MotorState => Motors(MotorColumns(
        [], [], [], [], [], [], [], [], [], [], [], [], [], [], [], [], [], [], [], []))
    case ValveState => Valves(ValveColumns([], [], [], [], [], [], [], [], [], [], [], [], [], []))
    case GripperState => Grippers(GripperColumns([], [], [], [], [], [], []))
  }

  predicate Aligned(m: Columns) {
    match m
    case Joints(c) => c.Aligned()
    case Motors(c) => c.Aligned()
    case Valves(c) => c.Aligned()
    case Grippers(c) => c.Aligned()
  }

  function Entries(m: Columns): seq<Entry>
    requires Aligned(m)
  {
    match m
    case Joints(c) => c.Entries()
    case Motors(c) => c.Entries()
    case Valves(c) => c.Entries()
    case Grippers(c) => c.Entries()
  }

  predicate OfKind(m: Columns, kind: Kind) {
    match kind
    case JointState => m.Joints?
    case MotorState => m.Motors?
    case ValveState => m.Valves?
    case GripperState => m.Grippers?
  }

  /** A message of this kind whose columns are aligned and whose rows are `entries`. */
  predicate HoldsRows(kind: Kind, m: Columns, entries: seq<Entry>) {
    OfKind(m, kind) && Aligned(m) && Entries(m) == entries
  }
}
