/**
 * The client side of the Spider2 link: the operator's setpoints, the
 * connect/disconnect lifecycle, the envelope framing, the heartbeat and
 * the dispatch of inbound frames into the telemetry map and the lidar
 * and gyro stores.
 *
 * The socket is an outbox of the frames handed to it; protobuf is a set
 * of functions given to the controller; the wall clock is a parameter.
 */
module RobotControl {
  import opened Wrappers
  import opened MessageTypes
  import GyroHistory
  import LidarSnapshot

  const Epsilon: real := 0.001
  const ClientId := "spider2-gui"
  const DefaultHeight: real := 50.0
  const DefaultWalkingStyle: int := 1
  const ServerIpRequired := "Server IP address is required"
  const FailedToConnect := "Failed to connect: "

  /** The messages the client sends. */
  datatype Message =
    | Move(move: MoveCommandMsg)
    | Height(height: HeightCommandMsg)
    | Style(style: WalkingStyleCommandMsg)
    | Beat(heartbeat: HeartbeatMsg)

  /** Protobuf's serializer and parsers; a parser yields None where ParseFromString fails. */
  datatype Protobuf = Protobuf(
    serialize: Message -> seq<byte>,
    parseTelemetry: seq<byte> -> Option<TelemetryUpdateMsg>,
    parseLidar: seq<byte> -> Option<LidarDataMsg>,
    parseGyro: seq<byte> -> Option<GyroDataMsg>)

  /** What the transport does when asked to connect to an endpoint. */
  datatype ConnectOutcome = Established | TransportError(detail: string)

  /** A message handed to the socket, with the type it was sent under. */
  datatype Outbound = Outbound(kind: MessageType, message: Message)

  /** The type tag matches the payload, and the payload is one the robot accepts. */
  predicate ValidOutbound(o: Outbound) {
    match o.kind
    case MoveCommand => o.message.Move? && IsValidMoveCommand(o.message.move)
    case HeightCommand => o.message.Height? && o.message.height.height.Some?
    case WalkingStyleCommand =>
      o.message.Style? && o.message.style.style.Some? && 1 <= o.message.style.style.value <= 3
    case Heartbeat => o.message.Beat? && IsValidHeartbeat(o.message.heartbeat)
    case _ => false
  }

  /** A value of the telemetry map; "lidar" and "gyro" hold fixed-key summaries. */
  datatype Value =
    | FloatValue(f: real)
    | StringValue(s: string)
    | BoolValue(b: bool)
    | IntValue(i: int)
    | LidarSummary(timestamp: int, angleCount: nat, distanceCount: nat)
    | GyroSummary(timestamp: int, x: real, y: real)

  // ---------------------------------------------------------------- framing

  /** An outbound frame: the tag byte, then the payload. */
  function Frame(tag: byte, payload: seq<byte>): (frame: seq<byte>)
    ensures |frame| == |payload| + 1
    ensures frame[0] == tag && frame[1..] == payload
  {
    [tag] + payload
  }

  /** An inbound frame split into tag and payload; an empty frame has neither. */
  function Split(frame: seq<byte>): (r: Option<(byte, seq<byte>)>)
    ensures r.None? <==> frame == []
    ensures r.Some? ==> Frame(r.value.0, r.value.1) == frame
  {
    if |frame| < 1 then None else Some((frame[0], frame[1..]))
  }

  /** Splitting a frame gives back the tag and the payload it was built from. */
  lemma SplitFrame(tag: byte, payload: seq<byte>)
    ensures Split(Frame(tag, payload)) == Some((tag, payload))
  {
  }

  /** The message buffer: one byte for the tag, then a copy of the payload. */
  method BuildFrame(tag: byte, payload: seq<byte>) returns (buffer: array<byte>)
    ensures fresh(buffer)
    ensures buffer[..] == Frame(tag, payload)
  {
    buffer := new byte[|payload| + 1];
    buffer[0] := tag;
    var i := 0;
    while i < |payload|
      invariant 0 <= i <= |payload|
      invariant buffer[0] == tag
      invariant forall k :: 0 <= k < i ==> buffer[k + 1] == payload[k]
    {
      buffer[i + 1] := payload[i];
      i := i + 1;
    }
  }

  // ------------------------------------------------------------ setpoints

  function Abs(x: real): (r: real) {
    if x < 0.0 then -x else x
  }

  /** A float setter acts only when its argument is more than 0.001 from the current value. */
  predicate Differs(current: real, arg: real) {
    Abs(current - arg) > Epsilon
  }

  /** qBound(-1, x, 1). */
  function Clamp(x: real): (r: real)
    ensures InSpeedRange(r)
    ensures InSpeedRange(x) ==> r == x
    ensures x < -1.0 ==> r == -1.0
    ensures x > 1.0 ==> r == 1.0
  {
    if x < -1.0 then -1.0 else if x > 1.0 then 1.0 else x
  }

  /** The speed a speed setter leaves: the clamped argument if it differs from the current one. */
  function NextSpeed(current: real, arg: real): (r: real)
    ensures !Differs(current, arg) ==> r == current
    ensures Differs(current, arg) && InSpeedRange(arg) ==> r == arg
    ensures Differs(current, arg) && arg > 1.0 ==> r == 1.0
    ensures Differs(current, arg) && arg < -1.0 ==> r == -1.0
  {
    if Differs(current, arg) then Clamp(arg) else current
  }

  /** A speed in range stays in range, whatever the argument. */
  lemma NextSpeedInRange(current: real, arg: real)
    requires InSpeedRange(current)
    ensures InSpeedRange(NextSpeed(current, arg))
  {
  }

  /** Setting the same speed twice leaves the value setting it once leaves. */
  lemma NextSpeedIdempotent(current: real, arg: real)
    ensures NextSpeed(NextSpeed(current, arg), arg) == NextSpeed(current, arg)
  {
  }

  /**
   * The test compares the stored, clamped value with the unclamped
   * argument, so repeating an argument far enough out of range is accepted
   * (and sent) again.
   */
  lemma OutOfRangeRepeats(current: real, arg: real)
    requires InSpeedRange(current)
    requires arg > 1.0 + Epsilon || arg < -1.0 - Epsilon
    ensures Differs(current, arg) && Differs(NextSpeed(current, arg), arg)
  {
  }

  /** The walking style changes only to a different style among 1, 2 and 3. */
  predicate AcceptsStyle(current: int, style: int) {
    current != style && 1 <= style <= 3
  }

  // ------------------------------------------------------------ telemetry

  /** The key a telemetry update is stored under: its name, or "" when it has none. */
  function TelemetryKey(t: TelemetryUpdateMsg): (key: string) {
    t.name.GetOr("")
  }

  /** The first set value, in the order float, string, bool, int. */
  function TelemetryValue(t: TelemetryUpdateMsg): (v: Option<Value>)
    ensures v.None? <==> t.fvalue.None? && t.svalue.None? && t.bvalue.None? && t.ivalue.None?
  {
    if t.fvalue.Some? then Some(FloatValue(t.fvalue.value))
    else if t.svalue.Some? then Some(StringValue(t.svalue.value))
    else if t.bvalue.Some? then Some(BoolValue(t.bvalue.value))
    else if t.ivalue.Some? then Some(IntValue(t.ivalue.value))
    else None
  }

  /** The map after an update: only the entry under the update's key can change. */
  function ApplyTelemetry(m: map<string, Value>, t: TelemetryUpdateMsg): (m': map<string, Value>)
    ensures forall k :: k != TelemetryKey(t) ==> (k in m' <==> k in m)
    ensures forall k :: k != TelemetryKey(t) && k in m ==> m'[k] == m[k]
    ensures TelemetryValue(t).Some? ==> TelemetryKey(t) in m' && m'[TelemetryKey(t)] == TelemetryValue(t).value
    ensures TelemetryValue(t).None? ==> m' == m
  {
    match TelemetryValue(t)
    case Some(v) => m[TelemetryKey(t) := v]
    case None => m
  }

  /** A well-formed update stores, under its name, the one value it carries, whichever variant it is. */
  lemma WellFormedUpdateStoresItsValue(m: map<string, Value>, t: TelemetryUpdateMsg)
    requires WellFormedTelemetryUpdate(t)
    ensures TelemetryKey(t) == t.name.value && TelemetryKey(t) in ApplyTelemetry(m, t)
    ensures t.fvalue.Some? ==> ApplyTelemetry(m, t)[TelemetryKey(t)] == FloatValue(t.fvalue.value)
    ensures t.svalue.Some? ==> ApplyTelemetry(m, t)[TelemetryKey(t)] == StringValue(t.svalue.value)
    ensures t.bvalue.Some? ==> ApplyTelemetry(m, t)[TelemetryKey(t)] == BoolValue(t.bvalue.value)
    ensures t.ivalue.Some? ==> ApplyTelemetry(m, t)[TelemetryKey(t)] == IntValue(t.ivalue.value)
  {
  }

  /** Of two updates under one name, only the later value remains. */
  lemma LaterUpdateWins(m: map<string, Value>, t1: TelemetryUpdateMsg, t2: TelemetryUpdateMsg)
    requires TelemetryKey(t1) == TelemetryKey(t2) && TelemetryValue(t2).Some?
    ensures ApplyTelemetry(ApplyTelemetry(m, t1), t2) == ApplyTelemetry(m, t2)
  {
  }

  /** Nothing on the inbound path validates: an update with two values, and no name, is still stored. */
  lemma MalformedUpdateIsStored(m: map<string, Value>)
    ensures var t := TelemetryUpdateMsg(None, Some(2.5), Some("on"), None, None);
      && !WellFormedTelemetryUpdate(t)
      && ApplyTelemetry(m, t) == m["" := FloatValue(2.5)]
  {
  }

  // --------------------------------------------------------- lidar and gyro

  function Min(a: int, b: int): (m: int) {
    if a < b then a else b
  }

  function Max(a: int, b: int): (m: int) {
    if a < b then b else a
  }

  /** The scan points: angles and distances paired in order, as many as the shorter list. */
  function Pairs(angles: seq<real>, distances: seq<real>): (points: seq<LidarSnapshot.LidarPoint>)
    ensures |points| == Min(|angles|, |distances|)
    ensures forall k :: 0 <= k < |points| ==> points[k] == LidarSnapshot.LidarPoint(angles[k], distances[k])
  {
    if angles == [] || distances == [] then []
    else [LidarSnapshot.LidarPoint(angles[0], distances[0])] + Pairs(angles[1..], distances[1..])
  }

  /** A scan the validator would accept loses no point to the truncation. */
  lemma WellFormedScanKeepsAllPoints(l: LidarDataMsg)
    requires WellFormedLidarData(l)
    ensures |Pairs(l.angles, l.distances)| == |l.angles| == |l.distances|
  {
  }

  /** The "lidar" telemetry entry: timestamp and the two counts, as received. */
  function LidarSummaryOf(l: LidarDataMsg): (v: Value) {
    LidarSummary(l.timestamp.GetOr(0), |l.angles|, |l.distances|)
  }

  /**
   * The "lidar" entry holds the received timestamp (0 when absent) and the
   * received counts, so the store holds as many points as the smaller count,
   * and the entry may report more than are stored.
   */
  lemma LidarSummaryCountsStoredPoints(l: LidarDataMsg)
    ensures var v := LidarSummaryOf(l);
      && v.LidarSummary?
      && v.timestamp == l.timestamp.GetOr(0)
      && v.angleCount == |l.angles| && v.distanceCount == |l.distances|
      && |Pairs(l.angles, l.distances)| == Min(v.angleCount, v.distanceCount)
      && (v.angleCount != v.distanceCount ==> |Pairs(l.angles, l.distances)| < Max(v.angleCount, v.distanceCount))
  {
  }

  /** The "gyro" telemetry entry: the received timestamp, x and y. */
  function GyroSummaryOf(g: GyroDataMsg): (v: Value) {
    GyroSummary(g.timestamp.GetOr(0), g.x.GetOr(0.0), g.y.GetOr(0.0))
  }

  /** The reading stored for a gyro message: z forced to 0, a 0 timestamp replaced by the clock. */
  function GyroReadingOf(g: GyroDataMsg, now: int64): (r: GyroHistory.GyroReading)
    ensures r.z == 0.0
    ensures r.x == g.x.GetOr(0.0) && r.y == g.y.GetOr(0.0)
    ensures r.timestamp == StampOr(g.timestamp.GetOr(0), now)
  {
    GyroHistory.GyroReading(g.x.GetOr(0.0), g.y.GetOr(0.0), 0.0, StampOr(g.timestamp.GetOr(0), now))
  }

  /**
   * The "gyro" entry holds the received stamp (0 when absent), x and y.
   * It agrees with the stored reading on x and y; their stamps differ
   * exactly when the message's stamp is 0 and the clock is not.
   */
  lemma GyroSummaryMatchesReading(g: GyroDataMsg, now: int64)
    ensures var v, r := GyroSummaryOf(g), GyroReadingOf(g, now);
      && v.GyroSummary?
      && v.timestamp == g.timestamp.GetOr(0) && v.x == g.x.GetOr(0.0) && v.y == g.y.GetOr(0.0)
      && v.x == r.x && v.y == r.y
      && (v.timestamp == r.timestamp <==> g.timestamp.GetOr(0) != 0 || now == 0)
  {
  }

  // -------------------------------------------------------- inbound dispatch

  /** What an inbound frame does, by its tag and the outcome of parsing its payload. */
  datatype Inbound =
    | Ignored
    | Telemetry(update: TelemetryUpdateMsg)
    | Lidar(scan: LidarDataMsg)
    | Gyro(sample: GyroDataMsg)

  function Classify(pb: Protobuf, frame: seq<byte>): (r: Inbound)
    ensures r.Telemetry? ==>
      |frame| >= 1 && frame[0] == Tag(TelemetryUpdate) && pb.parseTelemetry(frame[1..]) == Some(r.update)
    ensures r.Lidar? ==>
      |frame| >= 1 && frame[0] == Tag(LidarData) && pb.parseLidar(frame[1..]) == Some(r.scan)
    ensures r.Gyro? ==>
      |frame| >= 1 && frame[0] == Tag(GyroData) && pb.parseGyro(frame[1..]) == Some(r.sample)
  {
    match Split(frame)
    case None => Ignored
    case Some((tag, payload)) =>
      if tag == Tag(VideoFrame) then Ignored
      else if tag == Tag(TelemetryUpdate) then
        (match pb.parseTelemetry(payload) case Some(t) => Telemetry(t) case None => Ignored)
      else if tag == Tag(LidarData) then
        (match pb.parseLidar(payload) case Some(l) => Lidar(l) case None => Ignored)
      else if tag == Tag(GyroData) then
        (match pb.parseGyro(payload) case Some(g) => Gyro(g) case None => Ignored)
      else Ignored
  }

  /** An empty frame, and a frame with any tag but 2, 3 or 4, has no effect. */
  lemma OtherTagsIgnored(pb: Protobuf, frame: seq<byte>)
    requires frame == [] || frame[0] !in {Tag(TelemetryUpdate), Tag(LidarData), Tag(GyroData)}
    ensures Classify(pb, frame) == Ignored
  {
  }

  /** A parsed payload is dispatched whether or not the validator would accept it. */
  lemma ParsedPayloadDispatched(pb: Protobuf, payload: seq<byte>)
    ensures pb.parseTelemetry(payload).Some? ==>
      Classify(pb, Frame(Tag(TelemetryUpdate), payload)) == Telemetry(pb.parseTelemetry(payload).value)
    ensures pb.parseLidar(payload).Some? ==>
      Classify(pb, Frame(Tag(LidarData), payload)) == Lidar(pb.parseLidar(payload).value)
    ensures pb.parseGyro(payload).Some? ==>
      Classify(pb, Frame(Tag(GyroData), payload)) == Gyro(pb.parseGyro(payload).value)
  {
    SplitFrame(Tag(TelemetryUpdate), payload);
    SplitFrame(Tag(LidarData), payload);
    SplitFrame(Tag(GyroData), payload);
  }

  /** The lidar branch's loop: one point per index below the shorter count. */
  method CollectPoints(l: LidarDataMsg) returns (points: seq<LidarSnapshot.LidarPoint>)
    ensures points == Pairs(l.angles, l.distances)
  {
    points := [];
    var count := Min(|l.angles|, |l.distances|);
    var i := 0;
    while i < count
      invariant 0 <= i <= count
      invariant |points| == i
      invariant forall k :: 0 <= k < i ==> points[k] == LidarSnapshot.LidarPoint(l.angles[k], l.distances[k])
    {
      points := points + [LidarSnapshot.LidarPoint(l.angles[i], l.distances[i])];
      i := i + 1;
    }
  }

  // ------------------------------------------------------------- controller

  class RobotController {
    const pb: Protobuf
    const gyroModel: GyroHistory.GyroDataModel
    const lidarModel: LidarSnapshot.LidarDataModel

    var serverIp: string
    var connected: bool
    var heartbeatRunning: bool

    var forwardSpeed: real
    var strafeSpeed: real
    var rotationSpeed: real
    var height: real
    var walkingStyle: int

    var telemetry: map<string, Value>

    /** The frames handed to the socket, oldest first. */
    var outbox: seq<seq<byte>>
    /** The messages those frames carry. */
    ghost var sent: seq<Outbound>

    ghost predicate Valid()
      reads this, gyroModel
    {
      && heartbeatRunning == connected
      && InSpeedRange(forwardSpeed) && InSpeedRange(strafeSpeed) && InSpeedRange(rotationSpeed)
      && 1 <= walkingStyle <= 3
      && |outbox| == |sent|
      && (forall i :: 0 <= i < |sent| ==> outbox[i] == Frame(Tag(sent[i].kind), pb.serialize(sent[i].message)))
      && (forall i :: 0 <= i < |sent| ==> ValidOutbound(sent[i]))
      && gyroModel.Valid()
    }

    constructor (pb: Protobuf)
      ensures Valid()
      ensures fresh(gyroModel) && fresh(lidarModel)
      ensures this.pb == pb
      ensures serverIp == [] && !connected && !heartbeatRunning
      ensures forwardSpeed == 0.0 && strafeSpeed == 0.0 && rotationSpeed == 0.0
      ensures height == DefaultHeight && walkingStyle == DefaultWalkingStyle
      ensures telemetry == map[] && outbox == [] && sent == []
      ensures gyroModel.readings == [] && lidarModel.points == []
    {
      this.pb := pb;
      gyroModel := new GyroHistory.GyroDataModel();
      lidarModel := new LidarSnapshot.LidarDataModel();
      serverIp := [];
      connected := false;
      heartbeatRunning := false;
      forwardSpeed := 0.0;
      strafeSpeed := 0.0;
      rotationSpeed := 0.0;
      height := DefaultHeight;
      walkingStyle := DefaultWalkingStyle;
      telemetry := map[];
      outbox := [];
      sent := [];
    }

    /** The move command for the current triple. */
    function CurrentMove(): (m: Message)
      reads this
      ensures m.Move?
      ensures m.move.forwardSpeed == Some(forwardSpeed)
      ensures m.move.strafeSpeed == Some(strafeSpeed)
      ensures m.move.rotationSpeed == Some(rotationSpeed)
      ensures InSpeedRange(forwardSpeed) && InSpeedRange(strafeSpeed) && InSpeedRange(rotationSpeed)
        ==> IsValidMoveCommand(m.move)
    {
      Move(CreateMoveCommand(forwardSpeed, strafeSpeed, rotationSpeed))
    }

    /** Frames and sends one message, only while connected. */
    method SendMessage(kind: MessageType, message: Message)
      requires Valid() && ValidOutbound(Outbound(kind, message))
      modifies this`outbox, this`sent
      ensures Valid()
      ensures outbox == old(outbox) + if connected then [Frame(Tag(kind), pb.serialize(message))] else []
      ensures sent == old(sent) + if connected then [Outbound(kind, message)] else []
    {
      if !connected {
        return;
      }
      var payload := pb.serialize(message);
      var buffer := BuildFrame(Tag(kind), payload);
      outbox := outbox + [buffer[..]];
      sent := sent + [Outbound(kind, message)];
    }

    method SetServerIp(ip: string)
      requires Valid()
      modifies this`serverIp
      ensures Valid()
      ensures serverIp == ip
    {
      if serverIp != ip {
        serverIp := ip;
      }
    }

    method SetForwardSpeed(speed: real)
      requires Valid()
      modifies this`forwardSpeed, this`outbox, this`sent
      ensures Valid()
      ensures forwardSpeed == NextSpeed(old(forwardSpeed), speed)
      ensures var send := Differs(old(forwardSpeed), speed) && connected;
        && outbox == old(outbox) + (if send then [Frame(Tag(MoveCommand), pb.serialize(CurrentMove()))] else [])
        && sent == old(sent) + (if send then [Outbound(MoveCommand, CurrentMove())] else [])
    {
      if Abs(forwardSpeed - speed) > Epsilon {
        forwardSpeed := Clamp(speed);
        if connected {
          SendMessage(MoveCommand, CurrentMove());
        }
      }
    }

    method SetStrafeSpeed(speed: real)
      requires Valid()
      modifies this`strafeSpeed, this`outbox, this`sent
      ensures Valid()
      ensures strafeSpeed == NextSpeed(old(strafeSpeed), speed)
      ensures var send := Differs(old(strafeSpeed), speed) && connected;
        && outbox == old(outbox) + (if send then [Frame(Tag(MoveCommand), pb.serialize(CurrentMove()))] else [])
        && sent == old(sent) + (if send then [Outbound(MoveCommand, CurrentMove())] else [])
    {
      if Abs(strafeSpeed - speed) > Epsilon {
        strafeSpeed := Clamp(speed);
        if connected {
          SendMessage(MoveCommand, CurrentMove());
        }
      }
    }

    method SetRotationSpeed(speed: real)
      requires Valid()
      modifies this`rotationSpeed, this`outbox, this`sent
      ensures Valid()
      ensures rotationSpeed == NextSpeed(old(rotationSpeed), speed)
      ensures var send := Differs(old(rotationSpeed), speed) && connected;
        && outbox == old(outbox) + (if send then [Frame(Tag(MoveCommand), pb.serialize(CurrentMove()))] else [])
        && sent == old(sent) + (if send then [Outbound(MoveCommand, CurrentMove())] else [])
    {
      if Abs(rotationSpeed - speed) > Epsilon {
        rotationSpeed := Clamp(speed);
        if connected {
          SendMessage(MoveCommand, CurrentMove());
        }
      }
    }

    /** The height is stored as given: the robot enforces its own limits. */
    method SetHeight(h: real)
      requires Valid()
      modifies this`height, this`outbox, this`sent
      ensures Valid()
      ensures height == if Differs(old(height), h) then h else old(height)
      ensures var send := Differs(old(height), h) && connected;
        var m := Height(HeightCommandMsg(Some(h)));
        && outbox == old(outbox) + (if send then [Frame(Tag(HeightCommand), pb.serialize(m))] else [])
        && sent == old(sent) + (if send then [Outbound(HeightCommand, m)] else [])
    {
      if Abs(height - h) > Epsilon {
        height := h;
        if connected {
          SendMessage(HeightCommand, Height(HeightCommandMsg(Some(height))));
        }
      }
    }

    method SetWalkingStyle(style: int)
      requires Valid()
      modifies this`walkingStyle, this`outbox, this`sent
      ensures Valid()
      ensures walkingStyle == if AcceptsStyle(old(walkingStyle), style) then style else old(walkingStyle)
      ensures var send := AcceptsStyle(old(walkingStyle), style) && connected;
        && outbox == old(outbox) + (if send then [Frame(Tag(WalkingStyleCommand), pb.serialize(Style(WalkingStyleCommandMsg(Some(style)))))] else [])
        && sent == old(sent) + (if send then [Outbound(WalkingStyleCommand, Style(WalkingStyleCommandMsg(Some(style))))] else [])
    {
      if walkingStyle != style && style >= 1 && style <= 3 {
        walkingStyle := style;
        if connected {
          SendMessage(WalkingStyleCommand, Style(WalkingStyleCommandMsg(Some(walkingStyle))));
        }
      }
    }

    /** The endpoint the transport is asked for: tcp://<ip>:5555. */
    static function Endpoint(ip: string): (address: string)
      ensures |address| == |ip| + 11
      ensures address[..6] == "tcp://" && address[|address| - 5..] == ":5555"
      ensures address[6..|address| - 5] == ip
    {
      "tcp://" + ip + ":5555"
    }

    /**
     * Connects to the robot. `transport` stands for the socket's connect:
     * what it does when handed the endpoint. The result is the text of the
     * connection-error notification, if one is emitted.
     */
    method ConnectToRobot(transport: string -> ConnectOutcome) returns (error: Option<string>)
      requires Valid() && (!connected || serverIp == [])
      modifies this`connected, this`heartbeatRunning
      ensures Valid()
      ensures serverIp == [] ==>
        error == Some(ServerIpRequired) && connected == old(connected) && heartbeatRunning == old(heartbeatRunning)
      ensures serverIp != [] && transport(Endpoint(serverIp)).TransportError? ==>
        error == Some(FailedToConnect + transport(Endpoint(serverIp)).detail) && !connected
      ensures serverIp != [] && transport(Endpoint(serverIp)).Established? ==>
        error == None && connected && heartbeatRunning
    {
      if serverIp == [] {
        return Some(ServerIpRequired);
      }
      var outcome := transport(Endpoint(serverIp));
      if outcome.TransportError? {
        return Some(FailedToConnect + outcome.detail);
      }
      connected := true;
      heartbeatRunning := true;
      return None;
    }

    /** Stops the heartbeat and leaves the disconnected state; does nothing when already disconnected. */
    method DisconnectFromRobot()
      requires Valid()
      modifies this`connected, this`heartbeatRunning
      ensures Valid()
      ensures !connected && !heartbeatRunning
    {
      if connected {
        heartbeatRunning := false;
        connected := false;
      }
    }

    /** One heartbeat with the fixed client id and the clock's time, only while connected. */
    method SendHeartbeat(now: int64)
      requires Valid()
      modifies this`outbox, this`sent
      ensures Valid()
      ensures var m := Beat(CreateHeartbeat(ClientId, 0, now));
        && outbox == old(outbox) + (if connected then [Frame(Tag(Heartbeat), pb.serialize(m))] else [])
        && sent == old(sent) + (if connected then [Outbound(Heartbeat, m)] else [])
    {
      if connected {
        var heartbeat := CreateHeartbeat(ClientId, 0, now);
        SendMessage(Heartbeat, Beat(heartbeat));
      }
    }

    /** A timeout of the 1000 ms heartbeat timer, which fires only while it runs. */
    method HeartbeatTimeout(now: int64)
      requires Valid()
      modifies this`outbox, this`sent
      ensures Valid()
      ensures !connected ==> outbox == old(outbox) && sent == old(sent)
      ensures connected ==> sent == old(sent) + [Outbound(Heartbeat, Beat(CreateHeartbeat(ClientId, 0, now)))]
    {
      if heartbeatRunning {
        SendHeartbeat(now);
      }
    }

    /** Stores the update's first set value under its name. */
    method UpdateTelemetry(t: TelemetryUpdateMsg)
      requires Valid()
      modifies this`telemetry
      ensures Valid()
      ensures telemetry == ApplyTelemetry(old(telemetry), t)
    {
      var name := t.name.GetOr("");
      if t.fvalue.Some? {
        telemetry := telemetry[name := FloatValue(t.fvalue.value)];
      } else if t.svalue.Some? {
        telemetry := telemetry[name := StringValue(t.svalue.value)];
      } else if t.bvalue.Some? {
        telemetry := telemetry[name := BoolValue(t.bvalue.value)];
      } else if t.ivalue.Some? {
        telemetry := telemetry[name := IntValue(t.ivalue.value)];
      }
    }

    /** Dispatches one received frame; `now` is the clock the gyro forwarder reads. */
    method ProcessIncomingMessage(frame: seq<byte>, now: int64)
      requires Valid()
      modifies this`telemetry, gyroModel, lidarModel
      ensures Valid()
      ensures match Classify(pb, frame)
        case Ignored =>
          && telemetry == old(telemetry)
          && gyroModel.readings == old(gyroModel.readings)
          && lidarModel.points == old(lidarModel.points)
        case Telemetry(t) =>
          && telemetry == ApplyTelemetry(old(telemetry), t)
          && gyroModel.readings == old(gyroModel.readings)
          && lidarModel.points == old(lidarModel.points)
        case Lidar(l) =>
          && lidarModel.points == Pairs(l.angles, l.distances)
          && telemetry == old(telemetry)["lidar" := LidarSummaryOf(l)]
          && gyroModel.readings == old(gyroModel.readings)
        case Gyro(g) =>
          && gyroModel.readings == GyroHistory.Pushed(old(gyroModel.readings), GyroReadingOf(g, now))
          && telemetry == old(telemetry)["gyro" := GyroSummaryOf(g)]
          && lidarModel.points == old(lidarModel.points)
    {
      if |frame| < 1 {
        return;
      }
      var messageType := frame[0];
      if messageType == Tag(VideoFrame) {
        return;
      }
      var payload := frame[1..];
      if messageType == Tag(TelemetryUpdate) {
        var parsed := pb.parseTelemetry(payload);
        if parsed.Some? {
          UpdateTelemetry(parsed.value);
        }
      } else if messageType == Tag(LidarData) {
        var parsed := pb.parseLidar(payload);
        if parsed.Some? {
          var lidar := parsed.value;
          var points := CollectPoints(lidar);
          lidarModel.UpdateData(points);
          telemetry := telemetry["lidar" := LidarSummaryOf(lidar)];
        }
      } else if messageType == Tag(GyroData) {
        var parsed := pb.parseGyro(payload);
        if parsed.Some? {
          var gyro := parsed.value;
          gyroModel.AddReading(GyroReadingOf(gyro, now));
          telemetry := telemetry["gyro" := GyroSummaryOf(gyro)];
        }
      }
    }
  }
}
