/** The DDS publishers' `process` overrides: which PDO types each takes, and the row it appends. */
module DdsAssembler {
  import opened Wrappers
  import opened Pdos
  import opened Messages
  import opened Decimal

  function JointRowOf(p: Pdo): Option<JointRow> {
    match p.ptype
    case RxCia402 =>
      var pb := GetCia402Rx(p);
      Some(JointRow(pb.linkPos, pb.linkVel, pb.torque))
    case RxXtMotor =>
      var pb := GetMotorXtRx(p);
      Some(JointRow(pb.linkPos, pb.linkVel, pb.torque))
    case RxMotor =>
      var pb := GetMotorRx(p);
      Some(JointRow(pb.linkPos, 0.0, pb.torque))
    case RxGripper => Some(JointRow(GetGripperRx(p).linkPos, 0.0, 0.0))
    case _ => None
  }

  function MotorRowOf(p: Pdo): Option<MotorRow> {
    match p.ptype
    case RxCia402 => Some(Cia402Row(GetCia402Rx(p)))
    case RxXtMotor => Some(MotorXtRow(GetMotorXtRx(p)))
    case RxMotor => Some(LegacyMotorRow(GetMotorRx(p)))
    case _ => None
  }

  /** The row a PDO contributes, if the publisher takes its type. */
  function RowOf(kind: Kind, p: Pdo): (r: Option<Row>)
    ensures r.Some? ==> Fits(kind, r.value)
  {
    match kind
    case JointState => if JointRowOf(p).Some? then Some(OfJoint(JointRowOf(p).value)) else None
    case MotorState => if MotorRowOf(p).Some? then Some(OfMotor(MotorRowOf(p).value)) else None
    case ValveState => if p.ptype.RxHyqKnee? then Some(OfValve(KneeRow(GetHyqKneeRx(p)))) else None
    case GripperState => if p.ptype.RxGripper? then Some(OfGripper(GripRow(GetGripperRx(p)))) else None
  }

  /** The name under which a row is published: configured, or generated from the index. */
  function NameOf(names: map<UInt32, string>, p: Pdo): string {
    ResolveName(ToUInt32(IndexOf(p)), names)
  }

  method ProcessJoint(m: JointColumns, p: Pdo, names: map<UInt32, string>) returns (ok: bool, out: JointColumns)
    requires m.Aligned()
    ensures ok == JointRowOf(p).Some? && (!ok ==> out == m)
    ensures ok ==> out.Aligned() &&
                   out.Entries() == m.Entries() + [Entry(NameOf(names, p), OfJoint(JointRowOf(p).value))]
  {
    ok, out := true, m;
    match p.ptype {
      case RxCia402 =>
        var pb := GetCia402Rx(p);
        out := AppendJoint(out, pb.linkPos, pb.linkVel, pb.torque);
      case RxXtMotor =>
        var pb := GetMotorXtRx(p);
        out := AppendJoint(out, pb.linkPos, pb.linkVel, pb.torque);
      case RxMotor =>
        var pb := GetMotorRx(p);
        out := AppendJoint(out, pb.linkPos, 0.0, pb.torque);
      case RxGripper =>
        var pb := GetGripperRx(p);
        out := AppendJoint(out, pb.linkPos, 0.0, 0.0);
      case _ => return false, m;
    }
    m.Pushed(NameOf(names, p), JointRowOf(p).value);
    out := out.PushName(ResolveName(ToUInt32(IndexOf(p)), names));
  }

  method ProcessMotor(m: MotorColumns, p: Pdo, names: map<UInt32, string>) returns (ok: bool, out: MotorColumns)
    requires m.Aligned()
    ensures ok == MotorRowOf(p).Some? && (!ok ==> out == m)
    ensures ok ==> out.Aligned() &&
                   out.Entries() == m.Entries() + [Entry(NameOf(names, p), OfMotor(MotorRowOf(p).value))]
  {
    ok, out := true, m;
    match p.ptype {
      case RxCia402 => out := AppendCia402(out, GetCia402Rx(p));
      case RxXtMotor => out := AppendMotorXt(out, GetMotorXtRx(p));
      case RxMotor => out := AppendLegacyMotor(out, GetMotorRx(p));
      case _ => return false, m;
    }
    m.Pushed(NameOf(names, p), MotorRowOf(p).value);
    out := out.PushName(ResolveName(ToUInt32(IndexOf(p)), names));
  }

  /** One PDO: its row under its name, or every column as it was. */
  method Process(kind: Kind, m: Columns, p: Pdo, names: map<UInt32, string>) returns (ok: bool, out: Columns)
    requires OfKind(m, kind) && Aligned(m)
    ensures ok == RowOf(kind, p).Some?
    ensures ok ==> HoldsRows(kind, out, Entries(m) + [Entry(NameOf(names, p), RowOf(kind, p).value)])
    ensures !ok ==> out == m
  {
    match kind {
      case JointState =>
        var c;
        ok, c := ProcessJoint(m.joints, p, names);
        out := Joints(c);
      case MotorState =>
        var c;
        ok, c := ProcessMotor(m.motors, p, names);
        out := Motors(c);
      case ValveState =>
        if p.ptype != RxHyqKnee { return false, m; }
        var c := AppendKnee(m.valves, GetHyqKneeRx(p));
        m.valves.Pushed(NameOf(names, p), KneeRow(GetHyqKneeRx(p)));
        ok, out := true, Valves(c.PushName(ResolveName(ToUInt32(IndexOf(p)), names)));
      case GripperState =>
        if p.ptype != RxGripper { return false, m; }
        var c := AppendGripper(m.grippers, GetGripperRx(p));
        m.grippers.Pushed(NameOf(names, p), GripRow(GetGripperRx(p)));
        ok, out := true, Grippers(c.PushName(ResolveName(ToUInt32(IndexOf(p)), names)));
    }
  }
}
