/** The appenders of the Zenoh CDR serializers: which PDO types each takes, and the row it appends. */
module ZenohAssembler {
  import opened Wrappers
  import opened Pdos
  import opened Messages

  /** The row a PDO contributes, if the serializer takes its type. */
  function RowOf(kind: Kind, p: Pdo): (r: Option<Row>)
    ensures r.Some? ==> Fits(kind, r.value)
  {
    match (kind, p.ptype)
    case (JointState, RxCia402) =>
      var pb := GetCia402Rx(p);
      Some(OfJoint(JointRow(position := pb.linkPos, velocity := pb.linkVel, effort := pb.torque)))
    case (JointState, RxXtMotor) =>
      var pb := GetMotorXtRx(p);
      Some(OfJoint(JointRow(position := pb.linkPos, velocity := pb.linkVel, effort := pb.torque)))
    case (JointState, RxMotor) =>
      var pb := GetMotorRx(p);
      Some(OfJoint(JointRow(position := pb.linkPos, velocity := 0.0, effort := pb.torque)))
    case (JointState, RxGripper) =>
      Some(OfJoint(JointRow(position := GetGripperRx(p).linkPos, velocity := 0.0, effort := 0.0)))
    case (JointState, RxHyqKnee) =>
      Some(OfJoint(JointRow(position := 0.0, velocity := 0.0, effort := GetHyqKneeRx(p).force)))
    case (MotorState, RxCia402) => Some(OfMotor(Cia402Row(GetCia402Rx(p))))
    case (MotorState, RxXtMotor) => Some(OfMotor(MotorXtRow(GetMotorXtRx(p))))
    case (MotorState, RxMotor) => Some(OfMotor(LegacyMotorRow(GetMotorRx(p))))
    case (ValveState, RxHyqKnee) => Some(OfValve(KneeRow(GetHyqKneeRx(p))))
    case (GripperState, RxGripper) => Some(OfGripper(GripRow(GetGripperRx(p))))
    case _ => None
  }

  /** The entry a PDO adds: its row under the identifier it carries itself. */
  function EntryOf(kind: Kind, p: Pdo): Option<Entry> {
    if RowOf(kind, p).Some? then Some(Entry(StrIdOf(p), RowOf(kind, p).value)) else None
  }

  method AppendToJoints(m: JointColumns, p: Pdo) returns (ok: bool, out: JointColumns)
    requires m.Aligned()
    ensures ok == EntryOf(JointState, p).Some?
    ensures ok ==> out.Aligned() && out.Entries() == m.Entries() + [EntryOf(JointState, p).value]
  {
    ok, out := true, m;
    match p.ptype {
      case RxCia402 =>
        var pb := GetCia402Rx(p);
        out := AppendJoint(out, pb.linkPos, pb.linkVel, pb.torque);
      case RxXtMotor =>
        var pb := GetMotorXtRx(p);
        out := AppendJoint(out, pb.linkPos, pb.linkVel, pb.torque);
      case RxMotor =>
        var pb := GetMotorRx(p);
        out := AppendJoint(out, pb.linkPos, 0.0, pb.torque);
      case RxGripper =>
        var pb := GetGripperRx(p);
        out := AppendJoint(out, pb.linkPos, 0.0, 0.0);
      case RxHyqKnee =>
        var pb := GetHyqKneeRx(p);
        out := AppendJoint(out, 0.0, 0.0, pb.force);
      case _ => return false, m;
    }
    m.Pushed(StrIdOf(p), RowOf(JointState, p).value.joint);
    out := out.PushName(StrIdOf(p));
  }

  method AppendToMotors(m: MotorColumns, p: Pdo) returns (ok: bool, out: MotorColumns)
    requires m.Aligned()
    ensures ok == EntryOf(MotorState, p).Some?
    ensures ok ==> out.Aligned() && out.Entries() == m.Entries() + [EntryOf(MotorState, p).value]
  {
    ok, out := true, m;
    match p.ptype {
      case RxCia402 => out := AppendCia402(out, GetCia402Rx(p));
      case RxXtMotor => out := AppendMotorXt(out, GetMotorXtRx(p));
      case RxMotor => out := AppendLegacyMotor(out, GetMotorRx(p));
      case _ => return false, m;
    }
    m.Pushed(StrIdOf(p), RowOf(MotorState, p).value.motor);
    out := out.PushName(StrIdOf(p));
  }

  /** One PDO: its row under the identifier it carries itself, or a refusal. */
  method Append(kind: Kind, m: Columns, p: Pdo) returns (ok: bool, out: Columns)
    requires OfKind(m, kind) && Aligned(m)
    ensures ok == EntryOf(kind, p).Some?
    ensures ok ==> HoldsRows(kind, out, Entries(m) + [EntryOf(kind, p).value])
  {
    match kind {
      case JointState =>
        var c;
        ok, c := AppendToJoints(m.joints, p);
        out := Joints(c);
      case MotorState =>
        var c;
        ok, c := AppendToMotors(m.motors, p);
        out := Motors(c);
      case ValveState =>
        if p.ptype != RxHyqKnee { return false, m; }
        var c := AppendKnee(m.valves, GetHyqKneeRx(p));
        m.valves.Pushed(StrIdOf(p), KneeRow(GetHyqKneeRx(p)));
        ok, out := true, Valves(c.PushName(StrIdOf(p)));
      case GripperState =>
        if p.ptype != RxGripper { return false, m; }
        var c := AppendGripper(m.grippers, GetGripperRx(p));
        m.grippers.Pushed(StrIdOf(p), GripRow(GetGripperRx(p)));
        ok, out := true, Grippers(c.PushName(StrIdOf(p)));
    }
  }
}
