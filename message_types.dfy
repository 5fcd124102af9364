/**
 * The Spider2 wire protocol's metadata: the one-byte type tags, the size
 * limits, the messages as records of optional fields, the factory helpers
 * and the validators.
 */
module MessageTypes {
  import opened Wrappers

  type byte = x: int | 0 <= x < 256
  type int32 = x: int | -0x8000_0000 <= x < 0x8000_0000
  type int64 = x: int | -0x8000_0000_0000_0000 <= x < 0x8000_0000_0000_0000

  /** The type tag that heads every frame. */
  datatype MessageType =
    | MoveCommand
    | TelemetryUpdate
    | LidarData
    | GyroData
    | Heartbeat
    | VideoFrame
    | HeightCommand
    | WalkingStyleCommand

  /** The value of a tag, as it stands in byte 0 of a frame. */
  function Tag(t: MessageType): (b: byte)
    ensures 1 <= b <= 8
  {
    match t
    case MoveCommand => 1
    case TelemetryUpdate => 2
    case LidarData => 3
    case GyroData => 4
    case Heartbeat => 5
    case VideoFrame => 6
    case HeightCommand => 7
    case WalkingStyleCommand => 8
  }

  /** The tag a header byte names, if any. */
  function TagType(b: byte): (t: Option<MessageType>)
    ensures t.Some? <==> 1 <= b <= 8
    ensures t.Some? ==> Tag(t.value) == b
  {
    if b == 1 then Some(MoveCommand)
    else if b == 2 then Some(TelemetryUpdate)
    else if b == 3 then Some(LidarData)
    else if b == 4 then Some(GyroData)
    else if b == 5 then Some(Heartbeat)
    else if b == 6 then Some(VideoFrame)
    else if b == 7 then Some(HeightCommand)
    else if b == 8 then Some(WalkingStyleCommand)
    else None
  }

  /** Distinct types have distinct tags, and every tag reads back as its type. */
  lemma TagsDistinct(s: MessageType, t: MessageType)
    ensures Tag(s) == Tag(t) <==> s == t
    ensures TagType(Tag(t)) == Some(t)
  {
  }

  // Size limits
  const MaxTelemetryNameLength: nat := 64
  const MaxClientIdLength: nat := 32
  const MaxLidarReadings: nat := 32

  // Names for logging
  const MoveCommandName := "MoveCommand"
  const TelemetryUpdateName := "TelemetryUpdate"
  const LidarDataName := "LidarData"
  const GyroDataName := "GyroData"
  const HeartbeatName := "Heartbeat"
  const UnknownName := "Unknown"

  /** M_PI: the double nearest to pi, written out exactly. */
  const Pi: real := 3.141592653589793115997963468544185161590576171875

  // The messages: a field that protobuf tracks with a has_ accessor is an Option.

  datatype MoveCommandMsg = MoveCommandMsg(
    forwardSpeed: Option<real>, strafeSpeed: Option<real>, rotationSpeed: Option<real>)

  datatype TelemetryUpdateMsg = TelemetryUpdateMsg(
    name: Option<string>,
    fvalue: Option<real>, svalue: Option<string>, bvalue: Option<bool>, ivalue: Option<int32>)

  datatype LidarDataMsg = LidarDataMsg(
    timestamp: Option<int64>, angles: seq<real>, distances: seq<real>)

  datatype GyroDataMsg = GyroDataMsg(
    timestamp: Option<int64>, x: Option<real>, y: Option<real>, z: Option<real>)

  datatype HeartbeatMsg = HeartbeatMsg(clientId: Option<string>, timestamp: Option<int64>)

  datatype HeightCommandMsg = HeightCommandMsg(height: Option<real>)

  datatype WalkingStyleCommandMsg = WalkingStyleCommandMsg(style: Option<int32>)

  // Range predicates shared by the validators

  predicate InSpeedRange(v: real) { -1.0 <= v <= 1.0 }

  predicate InAngleRange(a: real) { -Pi <= a <= Pi }

  predicate InDistanceRange(d: real) { 0.0 <= d <= 100.0 }

  predicate InGyroRange(v: real) { -1000.0 <= v <= 1000.0 }

  // Validators

  /** All three speeds present, each within [-1, 1]. */
  predicate IsValidMoveCommand(cmd: MoveCommandMsg) {
    && cmd.forwardSpeed.Some? && cmd.strafeSpeed.Some? && cmd.rotationSpeed.Some?
    && InSpeedRange(cmd.forwardSpeed.value)
    && InSpeedRange(cmd.strafeSpeed.value)
    && InSpeedRange(cmd.rotationSpeed.value)
  }

  /** Exactly one of the four value variants is set. */
  predicate ExactlyOneValue(t: TelemetryUpdateMsg) {
    || (t.fvalue.Some? && t.svalue.None? && t.bvalue.None? && t.ivalue.None?)
    || (t.fvalue.None? && t.svalue.Some? && t.bvalue.None? && t.ivalue.None?)
    || (t.fvalue.None? && t.svalue.None? && t.bvalue.Some? && t.ivalue.None?)
    || (t.fvalue.None? && t.svalue.None? && t.bvalue.None? && t.ivalue.Some?)
  }

  /** A name of 1 to 64 characters and exactly one value. */
  predicate WellFormedTelemetryUpdate(t: TelemetryUpdateMsg) {
    && t.name.Some? && 0 < |t.name.value| <= MaxTelemetryNameLength
    && ExactlyOneValue(t)
  }

  /** Rejects a missing, empty or over-long name, then counts the set variants and accepts exactly one. */
  method IsValidTelemetryUpdate(t: TelemetryUpdateMsg) returns (ok: bool)
    ensures ok <==> WellFormedTelemetryUpdate(t)
  {
    if t.name.None? || t.name.value == [] {
      return false;
    }
    if |t.name.value| > MaxTelemetryNameLength {
      return false;
    }
    var valueCount := 0;
    if t.fvalue.Some? { valueCount := valueCount + 1; }
    if t.svalue.Some? { valueCount := valueCount + 1; }
    if t.bvalue.Some? { valueCount := valueCount + 1; }
    if t.ivalue.Some? { valueCount := valueCount + 1; }
    return valueCount == 1;
  }

  /** A timestamp, as many angles as distances, 1 to 32 of them, each angle and distance in range. */
  predicate WellFormedLidarData(l: LidarDataMsg) {
    && l.timestamp.Some?
    && |l.angles| == |l.distances|
    && 1 <= |l.angles| <= MaxLidarReadings
    && (forall i :: 0 <= i < |l.angles| ==> InAngleRange(l.angles[i]))
    && (forall i :: 0 <= i < |l.distances| ==> InDistanceRange(l.distances[i]))
  }

  /** Checks the timestamp and the two counts, then scans the readings and stops at the first out of range. */
  method IsValidLidarData(l: LidarDataMsg) returns (ok: bool)
    ensures ok <==> WellFormedLidarData(l)
  {
    if l.timestamp.None? {
      return false;
    }
    var angleCount := |l.angles|;
    var distanceCount := |l.distances|;
    if angleCount != distanceCount {
      return false;
    }
    if angleCount == 0 || angleCount > MaxLidarReadings {
      return false;
    }
    var i := 0;
    while i < angleCount
      invariant 0 <= i <= angleCount
      invariant forall k :: 0 <= k < i ==> InAngleRange(l.angles[k])
      invariant forall k :: 0 <= k < i ==> InDistanceRange(l.distances[k])
    {
      var angle := l.angles[i];
      var distance := l.distances[i];
      if angle < -Pi || angle > Pi {
        return false;
      }
      if distance < 0.0 || distance > 100.0 {
        return false;
      }
      i := i + 1;
    }
    return true;
  }

  /** A timestamp, x and y, with x and y within [-1000, 1000]; z is not looked at. */
  predicate IsValidGyroData(g: GyroDataMsg) {
    && g.timestamp.Some? && g.x.Some? && g.y.Some?
    && InGyroRange(g.x.value) && InGyroRange(g.y.value)
  }

  /** The gyro validator's verdict does not depend on z. */
  lemma GyroValidityIgnoresZ(g: GyroDataMsg, z: Option<real>)
    ensures IsValidGyroData(g.(z := z)) == IsValidGyroData(g)
  {
  }

  /** A timestamp; the client id, when present, of at most 32 characters. */
  predicate IsValidHeartbeat(h: HeartbeatMsg) {
    && h.timestamp.Some?
    && (h.clientId.Some? ==> |h.clientId.value| <= MaxClientIdLength)
  }

  /** The logging name of a type: named for tags 1 to 5, "Unknown" for the rest. */
  function MessageTypeName(t: MessageType): (name: string)
    ensures name == UnknownName <==> !(1 <= Tag(t) <= 5)
    ensures |name| > 0
  {
    match t
    case MoveCommand => MoveCommandName
    case TelemetryUpdate => TelemetryUpdateName
    case LidarData => LidarDataName
    case GyroData => GyroDataName
    case Heartbeat => HeartbeatName
    case _ => UnknownName
  }

  /**
   * The logging name of a received header byte. The enum's underlying type
   * is a byte, so any byte can reach the switch; 0 and 9 to 255 take its
   * default branch as well.
   */
  function MessageTypeNameOf(b: byte): (name: string)
    ensures name == UnknownName <==> !(1 <= b <= 5)
    ensures TagType(b).Some? ==> name == MessageTypeName(TagType(b).value)
  {
    if b == 1 then MoveCommandName
    else if b == 2 then TelemetryUpdateName
    else if b == 3 then LidarDataName
    else if b == 4 then GyroDataName
    else if b == 5 then HeartbeatName
    else UnknownName
  }

  /** The five named types have five different names. */
  lemma MessageTypeNamesDistinct(s: MessageType, t: MessageType)
    requires MessageTypeName(s) != UnknownName
    ensures MessageTypeName(s) == MessageTypeName(t) <==> s == t
  {
  }

  // Factories. `now` stands for the wall clock, read when a timestamp of 0 is passed.

  /** The stamp a factory writes: the caller's, or the clock's when the caller passes 0. */
  function StampOr(timestamp: int64, now: int64): (stamp: int64)
    ensures timestamp != 0 ==> stamp == timestamp
    ensures timestamp == 0 ==> stamp == now
  {
    if timestamp == 0 then now else timestamp
  }

  /** The three speeds, each in its own field, in argument order. */
  function CreateMoveCommand(forwardSpeed: real, strafeSpeed: real, rotationSpeed: real): (cmd: MoveCommandMsg)
    ensures cmd.forwardSpeed == Some(forwardSpeed)
    ensures cmd.strafeSpeed == Some(strafeSpeed)
    ensures cmd.rotationSpeed == Some(rotationSpeed)
    ensures IsValidMoveCommand(cmd) <==>
      InSpeedRange(forwardSpeed) && InSpeedRange(strafeSpeed) && InSpeedRange(rotationSpeed)
  {
    MoveCommandMsg(Some(forwardSpeed), Some(strafeSpeed), Some(rotationSpeed))
  }

  function CreateTelemetryFloat(name: string, value: real): (t: TelemetryUpdateMsg)
    ensures t.name == Some(name) && t.fvalue == Some(value) && ExactlyOneValue(t)
    ensures WellFormedTelemetryUpdate(t) <==> 0 < |name| <= MaxTelemetryNameLength
  {
    TelemetryUpdateMsg(Some(name), Some(value), None, None, None)
  }

  function CreateTelemetryString(name: string, value: string): (t: TelemetryUpdateMsg)
    ensures t.name == Some(name) && t.svalue == Some(value) && ExactlyOneValue(t)
    ensures WellFormedTelemetryUpdate(t) <==> 0 < |name| <= MaxTelemetryNameLength
  {
    TelemetryUpdateMsg(Some(name), None, Some(value), None, None)
  }

  function CreateTelemetryBool(name: string, value: bool): (t: TelemetryUpdateMsg)
    ensures t.name == Some(name) && t.bvalue == Some(value) && ExactlyOneValue(t)
    ensures WellFormedTelemetryUpdate(t) <==> 0 < |name| <= MaxTelemetryNameLength
  {
    TelemetryUpdateMsg(Some(name), None, None, Some(value), None)
  }

  function CreateTelemetryInt(name: string, value: int32): (t: TelemetryUpdateMsg)
    ensures t.name == Some(name) && t.ivalue == Some(value) && ExactlyOneValue(t)
    ensures WellFormedTelemetryUpdate(t) <==> 0 < |name| <= MaxTelemetryNameLength
  {
    TelemetryUpdateMsg(Some(name), None, None, None, Some(value))
  }

  /** Appends the angles, then the distances, one at a time, as the repeated fields are filled. */
  method CreateLidarData(angles: seq<real>, distances: seq<real>, timestamp: int64, now: int64)
    returns (l: LidarDataMsg)
    ensures l.timestamp == Some(StampOr(timestamp, now))
    ensures l.angles == angles && l.distances == distances
    ensures WellFormedLidarData(l) <==>
      && |angles| == |distances| && 1 <= |angles| <= MaxLidarReadings
      && (forall i :: 0 <= i < |angles| ==> InAngleRange(angles[i]))
      && (forall i :: 0 <= i < |distances| ==> InDistanceRange(distances[i]))
  {
    l := LidarDataMsg(Some(StampOr(timestamp, now)), [], []);
    for i := 0 to |angles|
      invariant l.timestamp == Some(StampOr(timestamp, now))
      invariant l.angles == angles[..i] && l.distances == []
    {
      l := l.(angles := l.angles + [angles[i]]);
    }
    for i := 0 to |distances|
      invariant l.timestamp == Some(StampOr(timestamp, now))
      invariant l.angles == angles && l.distances == distances[..i]
    {
      l := l.(distances := l.distances + [distances[i]]);
    }
  }

  /** x and y set, z left unset. */
  function CreateGyroData(x: real, y: real, timestamp: int64, now: int64): (g: GyroDataMsg)
    ensures g.timestamp == Some(StampOr(timestamp, now))
    ensures g.x == Some(x) && g.y == Some(y) && g.z == None
    ensures IsValidGyroData(g) <==> InGyroRange(x) && InGyroRange(y)
  {
    GyroDataMsg(Some(StampOr(timestamp, now)), Some(x), Some(y), None)
  }

  /** The client id is set only when it is not empty. */
  function CreateHeartbeat(clientId: string, timestamp: int64, now: int64): (h: HeartbeatMsg)
    ensures h.timestamp == Some(StampOr(timestamp, now))
    ensures h.clientId.Some? <==> clientId != []
    ensures h.clientId.Some? ==> h.clientId.value == clientId
    ensures IsValidHeartbeat(h) <==> |clientId| <= MaxClientIdLength
  {
    HeartbeatMsg(if clientId == [] then None else Some(clientId), Some(StampOr(timestamp, now)))
  }

  // What the validators accept: exactly what the factories can build.

  /** A valid move command is the factory's command for its own speeds, all in range. */
  lemma ValidMoveCommandIsCreated(cmd: MoveCommandMsg)
    requires IsValidMoveCommand(cmd)
    ensures var f, s, r := cmd.forwardSpeed.value, cmd.strafeSpeed.value, cmd.rotationSpeed.value;
      && InSpeedRange(f) && InSpeedRange(s) && InSpeedRange(r)
      && CreateMoveCommand(f, s, r) == cmd
  {
  }

  /** A valid gyro message is the factory's message for its x, y and stamp, apart from z. */
  lemma ValidGyroDataIsCreated(g: GyroDataMsg, now: int64)
    requires IsValidGyroData(g)
    ensures InGyroRange(g.x.value) && InGyroRange(g.y.value)
    ensures CreateGyroData(g.x.value, g.y.value, g.timestamp.value, now) == g.(z := None)
      <==> g.timestamp.value != 0 || now == 0
  {
  }

  /**
   * A valid heartbeat is the factory's heartbeat for its id and stamp,
   * except that the factory never sets an empty id.
   */
  lemma ValidHeartbeatIsCreated(h: HeartbeatMsg)
    requires IsValidHeartbeat(h)
    ensures var id := h.clientId.GetOr("");
      && |id| <= MaxClientIdLength
      && CreateHeartbeat(id, h.timestamp.value, h.timestamp.value)
         == if h.clientId == Some("") then h.(clientId := None) else h
  {
  }
}
