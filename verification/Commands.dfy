/**
 * Command messages and the transmit PDOs they become: CDR decoding (Zenoh) and the
 * conversion of motor batches by discovered type (DDS).
 */
module Commands {
  import opened Wrappers
  import opened Pdos
  import Discovery

  datatype MotorCommand = MotorCommand(
    ecatId: Int32, posRef: real, velRef: real, torRef: real, curRef: real,
    gain0: real, gain1: real, gain2: real, gain3: real, gain4: real,
    faultAck: int, ts: int, opIdxAux: int, aux: real)

  datatype ValveCommand = ValveCommand(
    ecatId: Int32, currentRef: real, positionRef: real, forceRef: real,
    gain0: real, gain1: real, gain2: real, gain3: real, gain4: real,
    faultAck: int, ts: int, opIdxAux: int, aux: real)

  datatype GripperCommand = GripperCommand(
    ecatId: Int32, targetPos: real, targetVel: real, targetTorque: real,
    gain0: real, gain1: real, gain2: real, gain3: real, gain4: real)

  datatype PumpCommand = PumpCommand(
    ecatId: Int32, pumpTarget: real, pressurePGain: real, pressureIGain: real, pressureDGain: real,
    pressureILimit: real, faultAck: int, solenoidOut: int, ts: int, opIdxAux: int, aux: real)

  /** A floating-point gain stored in an integer field: rounded toward zero. */
  function Truncate(x: real): int {
    if x >= 0.0 then x.Floor else -((-x).Floor)
  }

  lemma TruncateRounds(x: real)
    ensures x >= 0.0 ==> Truncate(x) as real <= x < Truncate(x) as real + 1.0
    ensures x <= 0.0 ==> Truncate(x) as real - 1.0 < x <= Truncate(x) as real
  {
  }

  function Addressed(ptype: PdoType, id: Int32, payload: Payload): Pdo {
    Pdo(ptype, Some(Header(Some(id), None, None)), payload)
  }

  function JointPdo(c: MotorCommand): Pdo {
    Addressed(TxCia402, c.ecatId, Cia402TxPdo(Cia402Tx(
      c.torRef, c.posRef, c.velRef, c.curRef, c.gain0, c.gain1, c.gain2, c.gain3, c.gain4)))
  }

  function MotorPdo(c: MotorCommand): Pdo {
    Addressed(TxMotor, c.ecatId, MotorTxPdo(MotorTx(
      c.posRef, c.faultAck, Truncate(c.gain0), Truncate(c.gain1), c.ts)))
  }

  function MotorXtPdo(c: MotorCommand): Pdo {
    Addressed(TxXtMotor, c.ecatId, MotorXtTxPdo(MotorXtTx(
      c.posRef, c.velRef, c.torRef, c.gain0, c.gain1, c.gain2, c.gain3, c.gain4,
      c.faultAck, c.ts, c.opIdxAux, c.aux)))
  }

  function ValvePdo(c: ValveCommand): Pdo {
    Addressed(TxHyqKnee, c.ecatId, HyqKneeTxPdo(HyqKneeTx(
      c.currentRef, c.positionRef, c.forceRef, c.gain0, c.gain1, c.gain2, c.gain3, c.gain4,
      c.faultAck, c.ts, c.opIdxAux, c.aux)))
  }

  function GripperPdo(c: GripperCommand): Pdo {
    Addressed(TxGripper, c.ecatId, GripperTxPdo(GripperTx(
      c.targetPos, c.targetVel, c.targetTorque, c.gain0, c.gain1, c.gain2, c.gain3, c.gain4)))
  }

  function PumpPdo(c: PumpCommand): Pdo {
    Addressed(TxHyqHpu, c.ecatId, HyqHpuTxPdo(HyqHpuTx(
      c.pumpTarget, c.pressurePGain, c.pressureIGain, c.pressureDGain, c.pressureILimit,
      c.faultAck, c.solenoidOut, c.ts, c.opIdxAux, c.aux)))
  }

  // ---- Zenoh: CDR payloads ----------------------------------------------------------------------

  type Byte = x: int | 0 <= x < 256

  type Bytes = seq<Byte>

  datatype CommandType = Joint | Motor | MotorXt | Valve | Gripper | Pump

  /** The PDO type a command of this kind is decoded to. */
  function TypeFor(kind: CommandType): PdoType {
    match kind
    case Joint => TxCia402
    case Motor => TxMotor
    case MotorXt => TxXtMotor
    case Valve => TxHyqKnee
    case Gripper => TxGripper
    case Pump => TxHyqHpu
  }

  /** What the CDR library makes of a payload, for each of the message types read. */
  datatype Idl = Idl(
    motors: Bytes -> Option<seq<MotorCommand>>, valves: Bytes -> Option<seq<ValveCommand>>,
    grippers: Bytes -> Option<seq<GripperCommand>>, pump: Bytes -> Option<PumpCommand>)

  function Mapped<A, B>(f: A -> B, s: seq<A>): (r: seq<B>)
    ensures |r| == |s| && forall i :: 0 <= i < |s| ==> r[i] == f(s[i])
  {
    seq(|s|, i requires 0 <= i < |s| => f(s[i]))
  }

  function Vector<C>(decoded: Option<seq<C>>, convert: C -> Pdo): Option<seq<Pdo>> {
    if decoded.None? || decoded.value == [] then None else Some(Mapped(convert, decoded.value))
  }

  /** The batch a payload stands for; none when it does not decode or holds no command. */
  function Decode(idl: Idl, kind: CommandType, payload: Bytes): Option<seq<Pdo>> {
    match kind
    case Joint => Vector(idl.motors(payload), JointPdo)
    case Motor => Vector(idl.motors(payload), MotorPdo)
    case MotorXt => Vector(idl.motors(payload), MotorXtPdo)
    case Valve => Vector(idl.valves(payload), ValvePdo)
    case Gripper => Vector(idl.grippers(payload), GripperPdo)
    case Pump =>
      if idl.pump(payload).None? then None else Some([PumpPdo(idl.pump(payload).value)])
  }

  method DeserializeVector<C>(decoded: Option<seq<C>>, convert: C -> Pdo) returns (ok: bool, pdos: seq<Pdo>)
    ensures ok <==> decoded.Some? && |decoded.value| > 0
    ensures ok ==> |pdos| == |decoded.value| && forall i :: 0 <= i < |pdos| ==> pdos[i] == convert(decoded.value[i])
    ensures !ok ==> pdos == []
  {
    pdos := [];
    if decoded.None? || |decoded.value| == 0 {
      return false, pdos;
    }
    for k := 0 to |decoded.value|
      invariant |pdos| == k && forall i :: 0 <= i < k ==> pdos[i] == convert(decoded.value[i])
    {
      pdos := pdos + [convert(decoded.value[k])];
    }
    ok := true;
  }

  method DeserializeCycle(idl: Idl, kind: CommandType, payload: Bytes) returns (ok: bool, pdos: seq<Pdo>)
    ensures ok <==> Decode(idl, kind, payload).Some?
    ensures pdos == if ok then Decode(idl, kind, payload).value else []
  {
    match kind
    case Joint => ok, pdos := DeserializeVector(idl.motors(payload), JointPdo);
    case Motor => ok, pdos := DeserializeVector(idl.motors(payload), MotorPdo);
    case MotorXt => ok, pdos := DeserializeVector(idl.motors(payload), MotorXtPdo);
    case Valve => ok, pdos := DeserializeVector(idl.valves(payload), ValvePdo);
    case Gripper => ok, pdos := DeserializeVector(idl.grippers(payload), GripperPdo);
    case Pump =>
      var message := idl.pump(payload);
      ok, pdos := message.Some?, if message.Some? then [PumpPdo(message.value)] else [];
  }

  /** The device IDs a payload addresses, in order; empty when it does not decode. */
  function Ids(idl: Idl, kind: CommandType, payload: Bytes): seq<Int32> {
    match kind
    case Joint | Motor | MotorXt =>
      if idl.motors(payload).Some? then Mapped((c: MotorCommand) => c.ecatId, idl.motors(payload).value) else []
    case Valve =>
      if idl.valves(payload).Some? then Mapped((c: ValveCommand) => c.ecatId, idl.valves(payload).value) else []
    case Gripper =>
      if idl.grippers(payload).Some? then Mapped((c: GripperCommand) => c.ecatId, idl.grippers(payload).value)
      else []
    case Pump => if idl.pump(payload).Some? then [idl.pump(payload).value.ecatId] else []
  }

  /** A payload yields all its commands or nothing: one PDO for each, in order, of the kind's type and
      addressed to the command's device; and nothing only if it holds no command. */
  lemma DecodeKeepsCommands(idl: Idl, kind: CommandType, payload: Bytes)
    ensures Decode(idl, kind, payload).None? <==> Ids(idl, kind, payload) == []
    ensures var ids := Ids(idl, kind, payload);
            match Decode(idl, kind, payload)
            case None => true
            case Some(ps) =>
              |ps| == |ids| && forall i :: 0 <= i < |ps| ==>
                && ps[i].header.Some? && ps[i].header.value.index == Some(ids[i])
                && ps[i].ptype == (
                     match kind
                     case Joint => TxCia402
                     case Motor => TxMotor
                     case MotorXt => TxXtMotor
                     case Valve => TxHyqKnee
                     case Gripper => TxGripper
                     case Pump => TxHyqHpu)
  {
    var ps := Decode(idl, kind, payload);
    var ids := Ids(idl, kind, payload);
    match kind
    case Joint | Motor | MotorXt =>
      assert idl.motors(payload).Some? ==> |ids| == |idl.motors(payload).value|;
    case Valve =>
      assert idl.valves(payload).Some? ==> |ids| == |idl.valves(payload).value|;
    case Gripper =>
      assert idl.grippers(payload).Some? ==> |ids| == |idl.grippers(payload).value|;
    case Pump =>
  }

  /** The PDO of the i-th command of a payload, field by field: its own ID in the header, its own values under the
      names the device knows them by. */
  lemma DecodedCommands(idl: Idl, kind: CommandType, payload: Bytes, i: nat)
    requires Decode(idl, kind, payload).Some? && i < |Decode(idl, kind, payload).value|
    ensures var p := Decode(idl, kind, payload).value[i];
            match kind
            case Joint =>
              && idl.motors(payload).Some? && i < |idl.motors(payload).value|
              && var c := idl.motors(payload).value[i];
                 p == Pdo(TxCia402, Some(Header(Some(c.ecatId), None, None)), Cia402TxPdo(Cia402Tx(
                   targetTorque := c.torRef, targetPos := c.posRef, targetVel := c.velRef, targetCurrent := c.curRef,
                   gain0 := c.gain0, gain1 := c.gain1, gain2 := c.gain2, gain3 := c.gain3, gain4 := c.gain4)))
            case Motor =>
              && idl.motors(payload).Some? && i < |idl.motors(payload).value|
              && var c := idl.motors(payload).value[i];
                 p == Pdo(TxMotor, Some(Header(Some(c.ecatId), None, None)), MotorTxPdo(MotorTx(
                   posRef := c.posRef, faultAck := c.faultAck, gainP := Truncate(c.gain0),
                   gainD := Truncate(c.gain1), ts := c.ts)))
            case MotorXt =>
              && idl.motors(payload).Some? && i < |idl.motors(payload).value|
              && var c := idl.motors(payload).value[i];
                 p == Pdo(TxXtMotor, Some(Header(Some(c.ecatId), None, None)), MotorXtTxPdo(MotorXtTx(
                   posRef := c.posRef, velRef := c.velRef, torRef := c.torRef, gain0 := c.gain0, gain1 := c.gain1,
                   gain2 := c.gain2, gain3 := c.gain3, gain4 := c.gain4, faultAck := c.faultAck, ts := c.ts,
                   opIdxAux := c.opIdxAux, aux := c.aux)))
            case Valve =>
              && idl.valves(payload).Some? && i < |idl.valves(payload).value|
              && var c := idl.valves(payload).value[i];
                 p == Pdo(TxHyqKnee, Some(Header(Some(c.ecatId), None, None)), HyqKneeTxPdo(HyqKneeTx(
                   currentRef := c.currentRef, positionRef := c.positionRef, forceRef := c.forceRef,
                   gain0 := c.gain0, gain1 := c.gain1, gain2 := c.gain2, gain3 := c.gain3, gain4 := c.gain4,
                   faultAck := c.faultAck, ts := c.ts, opIdxAux := c.opIdxAux, aux := c.aux)))
            case Gripper =>
              && idl.grippers(payload).Some? && i < |idl.grippers(payload).value|
              && var c := idl.grippers(payload).value[i];
                 p == Pdo(TxGripper, Some(Header(Some(c.ecatId), None, None)), GripperTxPdo(GripperTx(
                   targetPos := c.targetPos, targetVel := c.targetVel, targetTorque := c.targetTorque,
                   gain0 := c.gain0, gain1 := c.gain1, gain2 := c.gain2, gain3 := c.gain3, gain4 := c.gain4)))
            case Pump =>
              && idl.pump(payload).Some? && i == 0
              && var c := idl.pump(payload).value;
                 p == Pdo(TxHyqHpu, Some(Header(Some(c.ecatId), None, None)), HyqHpuTxPdo(HyqHpuTx(
                   pumpTarget := c.pumpTarget, pressurePGain := c.pressurePGain, pressureIGain := c.pressureIGain,
                   pressureDGain := c.pressureDGain, pressureILimit := c.pressureILimit, faultAck := c.faultAck,
                   solenoidOut := c.solenoidOut, ts := c.ts, opIdxAux := c.opIdxAux, aux := c.aux)))
  {
    match kind
    case Joint => assert Decode(idl, kind, payload).value == Mapped(JointPdo, idl.motors(payload).value);
    case Motor => assert Decode(idl, kind, payload).value == Mapped(MotorPdo, idl.motors(payload).value);
    case MotorXt => assert Decode(idl, kind, payload).value == Mapped(MotorXtPdo, idl.motors(payload).value);
    case Valve => assert Decode(idl, kind, payload).value == Mapped(ValvePdo, idl.valves(payload).value);
    case Gripper => assert Decode(idl, kind, payload).value == Mapped(GripperPdo, idl.grippers(payload).value);
    case Pump =>
  }

  /** What a motor command says to a PDO of this kind: the fields it has no room for are blanked, gains it
      stores as integers are rounded. */
  function Carried(kind: CommandType, c: MotorCommand): MotorCommand {
    match kind
    case Joint => c.(faultAck := 0, ts := 0, opIdxAux := 0, aux := 0.0)
    case MotorXt => c.(curRef := 0.0)
    case _ =>
      c.(velRef := 0.0, torRef := 0.0, curRef := 0.0, gain0 := Truncate(c.gain0) as real,
         gain1 := Truncate(c.gain1) as real, gain2 := 0.0, gain3 := 0.0, gain4 := 0.0, opIdxAux := 0, aux := 0.0)
  }

  predicate SameCarried(kind: CommandType, a: seq<MotorCommand>, b: seq<MotorCommand>) {
    |a| == |b| && forall i :: 0 <= i < |a| ==> Carried(kind, a[i]) == Carried(kind, b[i])
  }

  lemma SameMapped<A, B>(f: A -> B, a: seq<A>, b: seq<A>)
    ensures Mapped(f, a) == Mapped(f, b) <==> |a| == |b| && forall i :: 0 <= i < |a| ==> f(a[i]) == f(b[i])
  {
    if Mapped(f, a) == Mapped(f, b) {
      assert |Mapped(f, a)| == |Mapped(f, b)|;
      forall i | 0 <= i < |a| ensures f(a[i]) == f(b[i]) {
        assert Mapped(f, a)[i] == Mapped(f, b)[i];
      }
    }
  }

  lemma SameMotorPdo(a: MotorCommand, b: MotorCommand)
    ensures JointPdo(a) == JointPdo(b) <==> Carried(Joint, a) == Carried(Joint, b)
    ensures MotorXtPdo(a) == MotorXtPdo(b) <==> Carried(MotorXt, a) == Carried(MotorXt, b)
    ensures MotorPdo(a) == MotorPdo(b) <==> Carried(CommandType.Motor, a) == Carried(CommandType.Motor, b)
  {
  }

  lemma SameMotorBatch(kind: CommandType, f: MotorCommand -> Pdo, a: seq<MotorCommand>, b: seq<MotorCommand>)
    requires forall x: MotorCommand, y: MotorCommand :: f(x) == f(y) <==> Carried(kind, x) == Carried(kind, y)
    ensures Mapped(f, a) == Mapped(f, b) <==> SameCarried(kind, a, b)
  {
    SameMapped(f, a, b);
  }

  lemma SameValveBatch(a: seq<ValveCommand>, b: seq<ValveCommand>)
    ensures Mapped(ValvePdo, a) == Mapped(ValvePdo, b) <==> a == b
  {
    SameMapped(ValvePdo, a, b);
    if Mapped(ValvePdo, a) == Mapped(ValvePdo, b) {
      forall i | 0 <= i < |a| ensures a[i] == b[i] {
        assert ValvePdo(a[i]) == ValvePdo(b[i]);
      }
    }
  }

  lemma SameGripperBatch(a: seq<GripperCommand>, b: seq<GripperCommand>)
    ensures Mapped(GripperPdo, a) == Mapped(GripperPdo, b) <==> a == b
  {
    SameMapped(GripperPdo, a, b);
    if Mapped(GripperPdo, a) == Mapped(GripperPdo, b) {
      forall i | 0 <= i < |a| ensures a[i] == b[i] {
        assert GripperPdo(a[i]) == GripperPdo(b[i]);
      }
    }
  }

  /** Two payloads become the same batch exactly if they hold the same commands, for motors up to what the PDO
      has no room for: decoding loses nothing else and mixes up no fields. */
  lemma SameBatchSameCommands(idl: Idl, kind: CommandType, x: Bytes, y: Bytes)
    requires Decode(idl, kind, x).Some? && Decode(idl, kind, y).Some?
    ensures Decode(idl, kind, x) == Decode(idl, kind, y) <==>
            match kind
            case Valve => idl.valves(x) == idl.valves(y)
            case Gripper => idl.grippers(x) == idl.grippers(y)
            case Pump => idl.pump(x) == idl.pump(y)
            case _ => SameCarried(kind, idl.motors(x).value, idl.motors(y).value)
  {
    match kind
    case Joint | Motor | MotorXt =>
      var a, b := idl.motors(x).value, idl.motors(y).value;
      forall c: MotorCommand, d: MotorCommand {
        SameMotorPdo(c, d);
      }
      if kind == Joint { SameMotorBatch(kind, JointPdo, a, b); }
      if kind == CommandType.Motor { SameMotorBatch(kind, MotorPdo, a, b); }
      if kind == MotorXt { SameMotorBatch(kind, MotorXtPdo, a, b); }
    case Valve => SameValveBatch(idl.valves(x).value, idl.valves(y).value);
    case Gripper => SameGripperBatch(idl.grippers(x).value, idl.grippers(y).value);
    case Pump =>
      assert Decode(idl, kind, x) == Decode(idl, kind, y) ==>
             Decode(idl, kind, x).value[0] == Decode(idl, kind, y).value[0];
  }

  // ---- DDS: motor batches by discovered type ----------------------------------------------------

  const CLEARED := Pdo(Unspecified, None, NoPayload)

  function GetCia402Tx(p: Pdo): Cia402Tx {
    if p.payload.Cia402TxPdo? then p.payload.cia402Tx
    else Cia402Tx(0.0, 0.0, 0.0, 0.0, 0.0, 0.0, 0.0, 0.0, 0.0)
  }

  /** The transmit type for a discovered motor type; none for anything else. */
  function MotorTarget(t: PdoType): Option<PdoType> {
    match t
    case RxMotor | TxMotor => Some(TxMotor)
    case RxXtMotor | TxXtMotor => Some(TxXtMotor)
    case RxCia402 | TxCia402 => Some(TxCia402)
    case _ => None
  }

  /** DDS leaves the torque reference and the fifth gain of a CIA402 command unset. */
  function WithoutTorque(c: MotorCommand): MotorCommand {
    c.(torRef := 0.0, gain4 := 0.0)
  }

  /** The PDO for a command to a device of type `t`; none for a negative ID or another type. */
  function DdsPdo(c: MotorCommand, t: PdoType): Option<Pdo> {
    if c.ecatId < 0 then None
    else
      match MotorTarget(t)
      case Some(TxMotor) => Some(MotorPdo(c))
      case Some(TxXtMotor) => Some(MotorXtPdo(c))
      case Some(TxCia402) => Some(JointPdo(WithoutTorque(c)))
      case _ => None
  }

  /** Field by field into a PDO that may have been used before: what it held does not matter. */
  method FromDds(c: MotorCommand, t: PdoType, reused: Pdo) returns (pb: Pdo)
    ensures pb == match DdsPdo(c, t) { case Some(p) => p case None => CLEARED }
    ensures c.ecatId >= 0 && (t == RxMotor || t == TxMotor) ==>
      pb == Pdo(TxMotor, Some(Header(Some(c.ecatId), None, None)), MotorTxPdo(MotorTx(
        posRef := c.posRef, faultAck := c.faultAck, gainP := Truncate(c.gain0), gainD := Truncate(c.gain1),
        ts := c.ts)))
    ensures c.ecatId >= 0 && (t == RxXtMotor || t == TxXtMotor) ==>
      pb == Pdo(TxXtMotor, Some(Header(Some(c.ecatId), None, None)), MotorXtTxPdo(MotorXtTx(
        posRef := c.posRef, velRef := c.velRef, torRef := c.torRef, gain0 := c.gain0, gain1 := c.gain1,
        gain2 := c.gain2, gain3 := c.gain3, gain4 := c.gain4, faultAck := c.faultAck, ts := c.ts,
        opIdxAux := c.opIdxAux, aux := c.aux)))
    ensures c.ecatId >= 0 && (t == RxCia402 || t == TxCia402) ==>
      pb == Pdo(TxCia402, Some(Header(Some(c.ecatId), None, None)), Cia402TxPdo(Cia402Tx(
        targetTorque := 0.0, targetPos := c.posRef, targetVel := c.velRef, targetCurrent := c.curRef,
        gain0 := c.gain0, gain1 := c.gain1, gain2 := c.gain2, gain3 := c.gain3, gain4 := 0.0)))
    ensures c.ecatId < 0 || t !in {RxMotor, TxMotor, RxXtMotor, TxXtMotor, RxCia402, TxCia402} ==>
      pb == Pdo(Unspecified, None, NoPayload)
  {
    pb := reused;
    pb := CLEARED;
    if c.ecatId < 0 {
      return;
    }
    match t {
    case RxMotor | TxMotor =>
      pb := pb.(payload := MotorTxPdo(MotorTx(
        c.posRef, c.faultAck, Truncate(c.gain0), Truncate(c.gain1), c.ts)));
      pb := pb.(ptype := TxMotor);
    case RxXtMotor | TxXtMotor =>
      pb := pb.(payload := MotorXtTxPdo(MotorXtTx(
        c.posRef, c.velRef, c.torRef, c.gain0, c.gain1, c.gain2, c.gain3, c.gain4,
        c.faultAck, c.ts, c.opIdxAux, c.aux)));
      pb := pb.(ptype := TxXtMotor);
    case RxCia402 | TxCia402 =>
      // An existing CIA402 payload would be updated in place.
      var target := GetCia402Tx(pb);
      target := target.(gain0 := c.gain0, gain1 := c.gain1, gain2 := c.gain2, gain3 := c.gain3);
      target := target.(targetCurrent := c.curRef, targetVel := c.velRef, targetPos := c.posRef);
      pb := pb.(payload := Cia402TxPdo(target));
      pb := pb.(ptype := TxCia402);
    case _ =>
      return;
    }
    pb := pb.(header := Some(Header(Some(c.ecatId), None, None)));
  }

  function DdsCommand(m: Discovery.EcatMap): MotorCommand -> Option<Pdo> {
    (c: MotorCommand) => DdsPdo(c, Discovery.ResolveType(m, ToUInt32(c.ecatId)))
  }

  /** One command: append a blank, convert in place, drop it again if it stayed blank. */
  method ConvertNext(m: Discovery.EcatMap, command: MotorCommand, before: seq<Pdo>) returns (result: seq<Pdo>)
    ensures result == match DdsCommand(m)(command) { case None => before case Some(p) => before + [p] }
  {
    result := before + [CLEARED];
    var t := Discovery.ResolveType(m, ToUInt32(command.ecatId));
    var pdo := FromDds(command, t, result[|result| - 1]);
    result := result[|result| - 1 := pdo];
    assert result == before + [pdo];
    if result[|result| - 1].ptype == Unspecified {
      result := result[..|result| - 1];
    }
  }

  /** The converter of the motor topic. In effect the convertible commands, in order. */
  method ConvertBatch(m: Discovery.EcatMap, commands: seq<MotorCommand>) returns (result: seq<Pdo>)
    ensures result == Collect(DdsCommand(m), commands)
  {
    result := [];
    for k := 0 to |commands|
      invariant result == Collect(DdsCommand(m), commands[..k])
    {
      CollectPush(DdsCommand(m), commands[..k], commands[k]);
      assert commands[..k + 1] == commands[..k] + [commands[k]];
      result := ConvertNext(m, commands[k], result);
    }
    assert commands[..|commands|] == commands;
  }

  /** A command is converted exactly if its device was discovered as a motor, to that motor's transmit type, with
      the payload to match and the command's own ID; torque reference and fifth gain go only to XT motors. */
  lemma ConvertedCommand(m: Discovery.EcatMap, c: MotorCommand)
    ensures var p := DdsCommand(m)(c);
            && (p.Some? <==>
                  && c.ecatId >= 0 && c.ecatId in m
                  && m[c.ecatId].ptype in {RxMotor, TxMotor, RxXtMotor, TxXtMotor, RxCia402, TxCia402})
            && (p.Some? ==> p.value.header == Some(Header(Some(c.ecatId), None, None)))
            && (p.Some? && m[c.ecatId].ptype in {RxMotor, TxMotor} ==>
                  p.value.ptype == TxMotor && p.value.payload == MotorTxPdo(MotorTx(
                    posRef := c.posRef, faultAck := c.faultAck, gainP := Truncate(c.gain0),
                    gainD := Truncate(c.gain1), ts := c.ts)))
            && (p.Some? && m[c.ecatId].ptype in {RxXtMotor, TxXtMotor} ==>
                  p.value.ptype == TxXtMotor && p.value.payload == MotorXtTxPdo(MotorXtTx(
                    posRef := c.posRef, velRef := c.velRef, torRef := c.torRef, gain0 := c.gain0, gain1 := c.gain1,
                    gain2 := c.gain2, gain3 := c.gain3, gain4 := c.gain4, faultAck := c.faultAck, ts := c.ts,
                    opIdxAux := c.opIdxAux, aux := c.aux)))
            && (p.Some? && m[c.ecatId].ptype in {RxCia402, TxCia402} ==>
                  p.value.ptype == TxCia402 && p.value.payload == Cia402TxPdo(Cia402Tx(
                    targetTorque := 0.0, targetPos := c.posRef, targetVel := c.velRef, targetCurrent := c.curRef,
                    gain0 := c.gain0, gain1 := c.gain1, gain2 := c.gain2, gain3 := c.gain3, gain4 := 0.0)))
  {
  }

  predicate PayloadMatches(p: Pdo) {
    match p.ptype
    case TxMotor => p.payload.MotorTxPdo?
    case TxXtMotor => p.payload.MotorXtTxPdo?
    case TxCia402 => p.payload.Cia402TxPdo?
    case _ => false
  }

  /** The device is a discovered motor with this transmit type. */
  predicate Targets(m: Discovery.EcatMap, t: PdoType, c: MotorCommand) {
    && c.ecatId >= 0 && c.ecatId in m
    && (|| (t == TxMotor && m[c.ecatId].ptype in {RxMotor, TxMotor})
        || (t == TxXtMotor && m[c.ecatId].ptype in {RxXtMotor, TxXtMotor})
        || (t == TxCia402 && m[c.ecatId].ptype in {RxCia402, TxCia402}))
  }

  /** Every converted command comes from one that was given, in order, and goes to a discovered motor; it carries
      that motor's transmit type with the payload to match, and the index that pushing demands. */
  lemma ConvertedAreAddressed(m: Discovery.EcatMap, commands: seq<MotorCommand>)
    ensures var ps, from := Collect(DdsCommand(m), commands), Kept(DdsCommand(m), commands);
            && |ps| == |from|
            && forall i :: 0 <= i < |ps| ==>
                 && from[i] in commands && from[i].ecatId >= 0 && Targets(m, ps[i].ptype, from[i])
                 && ps[i].header.Some? && ps[i].header.value.index == Some(from[i].ecatId) && PayloadMatches(ps[i])
  {
    CollectKept(DdsCommand(m), commands);
    var ps, from := Collect(DdsCommand(m), commands), Kept(DdsCommand(m), commands);
    forall i | 0 <= i < |ps|
      ensures from[i] in commands && DdsCommand(m)(from[i]) == Some(ps[i])
      ensures Targets(m, ps[i].ptype, from[i]) && PayloadMatches(ps[i])
      ensures ps[i].header == Some(Header(Some(from[i].ecatId), None, None))
    {
      KeptFrom(DdsCommand(m), commands, from[i]);
      ConvertedCommand(m, from[i]);
    }
  }

  lemma SameCommandIff(m: Discovery.EcatMap, c: MotorCommand)
    ensures DdsCommand(m)(c) == Some(MotorPdo(c)) <==> Targets(m, TxMotor, c)
    ensures DdsCommand(m)(c) == Some(MotorXtPdo(c)) <==> Targets(m, TxXtMotor, c)
    ensures DdsCommand(m)(c) == Some(JointPdo(c)) <==>
            Targets(m, TxCia402, c) && c.torRef == 0.0 && c.gain4 == 0.0
  {
    assert JointPdo(WithoutTorque(c)) == JointPdo(c) <==> c.torRef == 0.0 && c.gain4 == 0.0;
  }

  lemma CollectIsMappedIff<A, B>(f: A -> Option<B>, g: A -> B, s: seq<A>)
    ensures Collect(f, s) == Mapped(g, s) <==> forall i :: 0 <= i < |s| ==> f(s[i]) == Some(g(s[i]))
  {
    CollectKept(f, s);
    KeptAll(f, s);
  }

  /** A batch means the same on both backends exactly when every command goes to a motor of the kind the
      Zenoh topic stands for and, for CIA402, asks for no torque and has no fifth gain: DDS drops
      those two fields. */
  lemma SameBatchIff(m: Discovery.EcatMap, commands: seq<MotorCommand>)
    ensures Collect(DdsCommand(m), commands) == Mapped(MotorPdo, commands) <==>
            forall i :: 0 <= i < |commands| ==> Targets(m, TxMotor, commands[i])
    ensures Collect(DdsCommand(m), commands) == Mapped(MotorXtPdo, commands) <==>
            forall i :: 0 <= i < |commands| ==> Targets(m, TxXtMotor, commands[i])
    ensures Collect(DdsCommand(m), commands) == Mapped(JointPdo, commands) <==>
            forall i :: 0 <= i < |commands| ==>
              Targets(m, TxCia402, commands[i]) && commands[i].torRef == 0.0 && commands[i].gain4 == 0.0
  {
    forall c: MotorCommand {
      SameCommandIff(m, c);
    }
    CollectIsMappedIff(DdsCommand(m), MotorPdo, commands);
    CollectIsMappedIff(DdsCommand(m), MotorXtPdo, commands);
    CollectIsMappedIff(DdsCommand(m), JointPdo, commands);
  }

  /** The difference, on inputs: of a command to a discovered CIA402 motor, DDS drops whatever torque it asks for. */
  lemma TorqueIsDropped(m: Discovery.EcatMap, c: MotorCommand)
    requires c.ecatId >= 0 && c.ecatId in m && m[c.ecatId].ptype == RxCia402
    ensures |Collect(DdsCommand(m), [c])| == 1
    ensures Collect(DdsCommand(m), [c])[0] == JointPdo(c.(torRef := 0.0, gain4 := 0.0))
    ensures JointPdo(c).payload.Cia402TxPdo? && JointPdo(c).payload.cia402Tx.targetTorque == c.torRef
    ensures JointPdo(c.(torRef := 0.0, gain4 := 0.0)).payload.cia402Tx.targetTorque == 0.0
  {
    ConvertedCommand(m, c);
    CollectPush(DdsCommand(m), [], c);
    assert [] + [c] == [c];
  }
}
