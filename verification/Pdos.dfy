/**
 * EtherCAT PDOs as the middleware sees them: a type discriminator, an optional
 * header and a tagged payload. Discriminator and payload are independent, and
 * reading a payload that is not present yields its default value, as Protobuf
 * accessors do. Floating-point fields are modelled as `real`.
 */
module Pdos {
  import opened Wrappers

  const INT32_MAX: int := 0x7FFF_FFFF
  const UINT32_MAX: int := 0xFFFF_FFFF

  type Int32 = x: int | -0x8000_0000 <= x <= 0x7FFF_FFFF
  type UInt32 = x: int | 0 <= x <= 0xFFFF_FFFF

  /** Conversion of a signed to an unsigned 32-bit integer: wraps modulo 2^32. */
  function ToUInt32(x: Int32): UInt32 {
    if x < 0 then x + 0x1_0000_0000 else x
  }

  datatype Stamp = Stamp(sec: Int32, nsec: Int32)

  datatype Header = Header(index: Option<Int32>, strId: Option<string>, stamp: Option<Stamp>)

  datatype PdoType =
    | Unspecified
    | RxCia402 | RxXtMotor | RxMotor | RxGripper | RxHyqKnee
    | RxHyqHpu | RxImuVn | RxPowF28M36 | RxFt6
    | TxCia402 | TxXtMotor | TxMotor | TxGripper | TxHyqKnee | TxHyqHpu
    | Dummy | ClientPipe

  datatype Cia402Rx = Cia402Rx(
    statusword: int, modesOfOp: int, motorPos: real, motorVel: real, linkPos: real, linkVel: real,
    current: real, torque: real, demandedPos: real, demandedVel: real, demandedTorque: real,
    demandedCurrent: real, controlEffort: real, motorTemp: real, driveTemp: int, errorCode: int,
    errorReport: string)

  datatype MotorXtRx = MotorXtRx(
    motorPos: real, linkPos: real, motorVel: real, linkVel: real, torque: real, motorTemp: real,
    fault: int, rtt: int)

  datatype MotorRx = MotorRx(motorPos: real, linkPos: real, torque: real, fault: int, rtt: int)

  datatype HyqKneeRx = HyqKneeRx(
    force: real, pressure1: real, pressure2: real, encoderPosition: real, current: real,
    temperature: real, fault: int, rtt: int, opIdxAck: int, aux: real, currentRefFb: real,
    positionRefFb: real, forceRefFb: real)

  datatype GripperRx = GripperRx(
    statusword: int, motorPos: real, linkPos: real, demandedPos: real, demandedVel: real,
    errorCode: int)

  datatype Cia402Tx = Cia402Tx(
    targetTorque: real, targetPos: real, targetVel: real, targetCurrent: real,
    gain0: real, gain1: real, gain2: real, gain3: real, gain4: real)

  datatype MotorTx = MotorTx(posRef: real, faultAck: int, gainP: int, gainD: int, ts: int)

  datatype MotorXtTx = MotorXtTx(
    posRef: real, velRef: real, torRef: real, gain0: real, gain1: real, gain2: real, gain3: real,
    gain4: real, faultAck: int, ts: int, opIdxAux: int, aux: real)

  datatype HyqKneeTx = HyqKneeTx(
    currentRef: real, positionRef: real, forceRef: real, gain0: real, gain1: real, gain2: real,
    gain3: real, gain4: real, faultAck: int, ts: int, opIdxAux: int, aux: real)

  datatype GripperTx = GripperTx(
    targetPos: real, targetVel: real, targetTorque: real, gain0: real, gain1: real, gain2: real,
    gain3: real, gain4: real)

  datatype HyqHpuTx = HyqHpuTx(
    pumpTarget: real, pressurePGain: real, pressureIGain: real, pressureDGain: real,
    pressureILimit: real, faultAck: int, solenoidOut: int, ts: int, opIdxAux: int, aux: real)

  datatype Payload =
    | NoPayload
    | Cia402RxPdo(cia402Rx: Cia402Rx)
    | MotorXtRxPdo(motorXtRx: MotorXtRx)
    | MotorRxPdo(motorRx: MotorRx)
    | HyqKneeRxPdo(hyqKneeRx: HyqKneeRx)
    | GripperRxPdo(gripperRx: GripperRx)
    | Cia402TxPdo(cia402Tx: Cia402Tx)
    | MotorTxPdo(motorTx: MotorTx)
    | MotorXtTxPdo(motorXtTx: MotorXtTx)
    | HyqKneeTxPdo(hyqKneeTx: HyqKneeTx)
    | GripperTxPdo(gripperTx: GripperTx)
    | HyqHpuTxPdo(hyqHpuTx: HyqHpuTx)
    | OtherPayload(id: int)

  datatype Pdo = Pdo(ptype: PdoType, header: Option<Header>, payload: Payload)

  function GetCia402Rx(p: Pdo): Cia402Rx {
    if p.payload.Cia402RxPdo? then p.payload.cia402Rx
    else Cia402Rx(0, 0, 0.0, 0.0, 0.0, 0.0, 0.0, 0.0, 0.0, 0.0, 0.0, 0.0, 0.0, 0.0, 0, 0, "")
  }

  function GetMotorXtRx(p: Pdo): MotorXtRx {
    if p.payload.MotorXtRxPdo? then p.payload.motorXtRx
    else MotorXtRx(0.0, 0.0, 0.0, 0.0, 0.0, 0.0, 0, 0)
  }

  function GetMotorRx(p: Pdo): MotorRx {
    if p.payload.MotorRxPdo? then p.payload.motorRx else MotorRx(0.0, 0.0, 0.0, 0, 0)
  }

  function GetHyqKneeRx(p: Pdo): HyqKneeRx {
    if p.payload.HyqKneeRxPdo? then p.payload.hyqKneeRx
    else HyqKneeRx(0.0, 0.0, 0.0, 0.0, 0.0, 0.0, 0, 0, 0, 0.0, 0.0, 0.0, 0.0)
  }

  function GetGripperRx(p: Pdo): GripperRx {
    if p.payload.GripperRxPdo? then p.payload.gripperRx
    else GripperRx(0, 0.0, 0.0, 0.0, 0.0, 0)
  }

  predicate HasIndex(p: Pdo) {
    p.header.Some? && p.header.value.index.Some?
  }

  /** The PDO's own header names device `id`. */
  predicate FromDevice(p: Pdo, id: int) {
    p.header.Some? && p.header.value.index == Some(id)
  }

  /** `header().index()`: zero when the header or its index is absent. */
  function IndexOf(p: Pdo): Int32 {
    if HasIndex(p) then p.header.value.index.value else 0
  }

  /** `header().str_id()`: empty when the header or its identifier is absent. */
  function StrIdOf(p: Pdo): string {
    if p.header.Some? && p.header.value.strId.Some? then p.header.value.strId.value else ""
  }

  /** Receive channels, in the order they are drained each cycle. */
  datatype Channel = Imu | Motor | Gripper | Pump | PowerBoard | ForceTorque | Valve

  const CHANNELS: seq<Channel> := [Imu, Motor, Gripper, Pump, PowerBoard, ForceTorque, Valve]

  function ChannelIndex(c: Channel): (i: nat)
    ensures i < |CHANNELS| && CHANNELS[i] == c
  {
    match c
    case Imu => 0
    case Motor => 1
    case Gripper => 2
    case Pump => 3
    case PowerBoard => 4
    case ForceTorque => 5
    case Valve => 6
  }

  lemma ChannelOrder()
    ensures CHANNELS == [Imu, Motor, Gripper, Pump, PowerBoard, ForceTorque, Valve]
    ensures ChannelIndex(Imu) == 0 && ChannelIndex(Motor) == 1 && ChannelIndex(Gripper) == 2
    ensures ChannelIndex(Pump) == 3 && ChannelIndex(PowerBoard) == 4 && ChannelIndex(ForceTorque) == 5
    ensures ChannelIndex(Valve) == 6
  {
  }

  /** One batch of PDOs per channel: what the queues hold, or release, at one time. */
  type Batches = b: seq<seq<Pdo>> | |b| == |CHANNELS|
    witness [[], [], [], [], [], [], []]
}
