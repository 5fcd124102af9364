# Spider2 teleoperation client: protocol core in Dafny

This project models the client side of the Spider2 legged-robot link. It covers four parts:

- **Message metadata** (`message_types.dfy`, module `MessageTypes`): the one-byte type tags 1 to 8, the size limits (telemetry name 64, client id 32, lidar readings 32), the messages as records whose protobuf `has_` fields are `Option`s, the factory helpers, the five validators and the type-name lookup.
- **The robot controller** (`robot_controller.dfy`, module `RobotControl`, class `RobotController`). This part holds:
  - the five setpoints, with the 0.001 epsilon test, the clamp to [-1, 1] and the full move triple;
  - the connected flag and the heartbeat timer;
  - the telemetry map;
  - the frames handed to the socket (`outbox`), held next to a ghost record `sent` of the messages they carry;
  - the envelope framing (tag byte, then payload);
  - the dispatch of inbound frames into the telemetry map and into the lidar and gyro stores.

  Protobuf is the `Protobuf` datatype: a serializer and three parsers given to the controller as function values. The transport's connect is a function from endpoint to outcome. The wall clock is a `now` parameter.
- **The gyro history** (`gyro_data_model.dfy`, module `GyroHistory`, class `GyroDataModel`): at most 100 readings, most recent first. Adding a reading prepends it and then cuts the tail.
- **The lidar snapshot** (`lidar_data_model.dfy`, module `LidarSnapshot`, class `LidarDataModel`): each scan replaces the stored points wholesale.

The controller's invariant `Valid()` says:

- the heartbeat timer runs exactly while connected;
- the three speeds lie in [-1, 1] and the walking style in 1..3;
- every frame in the outbox is the tag byte followed by the serialized message;
- every sent message is one the robot side accepts: a move command passes `IsValidMoveCommand`, and a heartbeat passes `IsValidHeartbeat`.

Every state-changing method keeps this invariant.

The model follows the code where it departs from what the protocol would suggest:

- Inbound frames are never validated. A lidar scan with unequal counts is truncated to the shorter list rather than rejected.
- The gyro z value arrives in the parsed message but is ignored: it is not range-checked, and the stored reading has z = 0.
- An inbound heartbeat, like tags 1, 7 and 8, falls into the unknown-type branch.

## Model

| member | source | states |
|---|---|---|
| `MessageTypes.Tag` | src/MessageTypes.hpp:17-26 | every message type's tag lies in 1..8, so it fits the single header byte |
| `MessageTypes.TagType` | src/MessageTypes.hpp:17-26 | a header byte names a type exactly when it is in 1..8, and that type's tag is the byte |
| `MessageTypes.TagsDistinct` | src/MessageTypes.hpp:17-26 | two types have the same tag only if they are the same type; a tag reads back as its type |
| `MessageTypes.IsValidTelemetryUpdate` | src/MessageTypes.hpp:248-265 | true iff the name is present, non-empty and at most 64 long, and exactly one of fvalue/svalue/bvalue/ivalue is set |
| `MessageTypes.IsValidLidarData` | src/MessageTypes.hpp:272-303 | true iff a timestamp is present, the counts are equal and in 1..32, every angle is in [-pi, pi] and every distance in [0, 100] |
| `MessageTypes.ValidMoveCommandIsCreated` | src/MessageTypes.hpp:234-241 | `IsValidMoveCommand` accepts only commands with all three speeds in [-1, 1], and each is the factory's command for its speeds |
| `MessageTypes.ValidGyroDataIsCreated` | src/MessageTypes.hpp:310-316 | `IsValidGyroData` accepts only x and y in [-1000, 1000]; apart from z, an accepted message is the factory's message for its values exactly when its stamp is not replaced by the clock |
| `MessageTypes.ValidHeartbeatIsCreated` | src/MessageTypes.hpp:323-334 | `IsValidHeartbeat` accepts only ids of at most 32 characters, and an accepted heartbeat is the factory's for its id and stamp, except that the factory leaves an empty id unset |
| `MessageTypes.GyroValidityIgnoresZ` | src/MessageTypes.hpp:310-316 | the gyro verdict (timestamp, x, y present, x and y in [-1000, 1000]) is the same whatever z is |
| `MessageTypes.MessageTypeName` | src/MessageTypes.hpp:347-362 | the name is "Unknown" exactly for the types whose tag is not in 1..5 (video, height, walking style) |
| `MessageTypes.MessageTypeNameOf` | src/MessageTypes.hpp:347-362 | for any received header byte the name is "Unknown" exactly when the byte is not in 1..5, so also for 0 and 9..255; a byte that names a type gets that type's name |
| `MessageTypes.MessageTypeNamesDistinct` | src/MessageTypes.hpp:347-362 | the five named types have five different names |
| `MessageTypes.StampOr` | src/MessageTypes.hpp:160-163 | a non-zero timestamp is kept; zero is replaced by the clock |
| `MessageTypes.CreateMoveCommand` | src/MessageTypes.hpp:86-94 | the speeds land in forward, strafe, rotation order; the result passes `IsValidMoveCommand` iff each speed is in [-1, 1] |
| `MessageTypes.CreateTelemetryFloat` | src/MessageTypes.hpp:102-107 | name and fvalue set, no other variant; valid iff the name has 1 to 64 characters |
| `MessageTypes.CreateTelemetryString` | src/MessageTypes.hpp:115-120 | name and svalue set, no other variant; valid iff the name has 1 to 64 characters |
| `MessageTypes.CreateTelemetryBool` | src/MessageTypes.hpp:128-133 | name and bvalue set, no other variant; valid iff the name has 1 to 64 characters |
| `MessageTypes.CreateTelemetryInt` | src/MessageTypes.hpp:141-146 | name and ivalue set, no other variant; valid iff the name has 1 to 64 characters |
| `MessageTypes.CreateLidarData` | src/MessageTypes.hpp:155-176 | the angles and distances are kept in input order; a non-zero timestamp is unchanged; the scan passes the validator iff its input lists meet the count and range bounds |
| `MessageTypes.CreateGyroData` | src/MessageTypes.hpp:185-198 | x, y and the timestamp set, z unset; valid iff x and y are in [-1000, 1000] |
| `MessageTypes.CreateHeartbeat` | src/MessageTypes.hpp:206-221 | client_id set iff non-empty, a non-zero timestamp kept; valid iff the id has at most 32 characters |
| `GyroHistory.Pushed` | src/GyroDataModel.cpp:51-64 | after an addition the count is min(old + 1, 100), the new reading is first, and the earlier readings follow in their order |
| `GyroHistory.AddAllKeepsNewest` | src/GyroDataModel.cpp:51-64 | after a run of additions to a buffer of at most 100, the count is min(additions + old count, 100) and entry k is the k-th most recent addition, or, past the additions, old entry k - additions |
| `GyroHistory.FromEmptyKeepsLastHundred` | src/GyroDataModel.cpp:51-64 | from empty, 100 or more additions leave exactly the 100 most recent, most recent first |
| `GyroHistory.OneHundredFiftyAdditions` | src/GyroDataModel.cpp:51-64 | from empty, 150 additions leave 100 readings: entry k is the addition at index 149 - k (0-based), so indices 149 down to 50 |
| `GyroHistory.GyroDataModel.constructor` | src/GyroDataModel.cpp:5-8 | a new model holds no readings |
| `GyroHistory.GyroDataModel.AddReading` | src/GyroDataModel.cpp:51-70 | the buffer becomes `Pushed(old, r)`, stays within 100, its latest reading is r, and the row count grows by one until it stays at 100 |
| `GyroHistory.GyroDataModel.ClearData` | src/GyroDataModel.cpp:72-80 | no readings remain and the row count is 0 |
| `GyroHistory.GyroDataModel.Data` | src/GyroDataModel.cpp:16-38 | invalid for a row outside the buffer or an unknown role; otherwise the row's x, y, z or timestamp, or the magnitude's three components |
| `GyroHistory.GyroDataModel.LatestReading` | src/GyroDataModel.cpp:82-88 | the first reading, or (0, 0, 0, 0) when there is none |
| `GyroHistory.GyroDataModel.LatestX` | src/GyroDataModel.cpp:90-96 | the latest reading's x, 0 when empty |
| `GyroHistory.GyroDataModel.LatestY` | src/GyroDataModel.cpp:98-104 | the latest reading's y, 0 when empty |
| `GyroHistory.GyroDataModel.LatestZ` | src/GyroDataModel.cpp:106-112 | the latest reading's z, 0 when empty |
| `LidarSnapshot.LidarDataModel.constructor` | src/LidarDataModel.cpp:5-8 | a new model holds no points |
| `LidarSnapshot.LidarDataModel.UpdateData` | src/LidarDataModel.cpp:52-60 | the points become exactly the new ones, whatever was stored, so a second identical update changes nothing; the row count is the new scan's size |
| `LidarSnapshot.LidarDataModel.ClearData` | src/LidarDataModel.cpp:62-70 | no points remain and the row count is 0 |
| `LidarSnapshot.LidarDataModel.Data` | src/LidarDataModel.cpp:16-40 | invalid for a row outside the scan or an unknown role; otherwise the point's angle or distance, or the polar inputs of x and y |
| `RobotControl.Frame` | src/RobotController.cpp:209-212 | an outbound frame has length payload + 1, byte 0 is the tag, bytes 1.. are the payload |
| `RobotControl.Split` | src/RobotController.cpp:225-240 | an empty frame has no tag; any other frame is its byte 0 followed by the rest |
| `RobotControl.SplitFrame` | src/RobotController.cpp:229-240 | splitting a built frame recovers its tag and payload |
| `RobotControl.BuildFrame` | src/RobotController.cpp:209-212 | the new buffer holds the tag and then a copy of the payload |
| `RobotControl.Clamp` | src/RobotController.cpp:38 | the result lies in [-1, 1]; an argument in range is kept; one outside goes to the nearer bound |
| `RobotControl.NextSpeed` | src/RobotController.cpp:37-38 | within 0.001 of the current value the speed is kept; otherwise it becomes the argument when in [-1, 1] and the nearer bound when not |
| `RobotControl.NextSpeedInRange` | src/RobotController.cpp:35-46 | whatever the argument, a speed setter leaves the speed in [-1, 1] |
| `RobotControl.NextSpeedIdempotent` | src/RobotController.cpp:35-46 | the same argument twice leaves the same speed as once |
| `RobotControl.OutOfRangeRepeats` | src/RobotController.cpp:37-38 | the test compares with the unclamped argument, so repeating a value more than 0.001 out of range is accepted again |
| `RobotControl.TelemetryValue` | src/RobotController.cpp:296-311 | there is no value exactly when none of the four variants is set |
| `RobotControl.ApplyTelemetry` | src/RobotController.cpp:296-311 | only the entry under the update's name can change; it gets the first set value; with no value the map is unchanged |
| `RobotControl.WellFormedUpdateStoresItsValue` | src/RobotController.cpp:296-311 | a valid update stores its one value, of its own variant, under its name |
| `RobotControl.LaterUpdateWins` | src/RobotController.cpp:296-311 | of two updates under the same name, only the later value remains |
| `RobotControl.MalformedUpdateIsStored` | src/RobotController.cpp:243-249 | an update with no name and two values fails the validator yet is stored under "" with its float |
| `RobotControl.Pairs` | src/RobotController.cpp:254-259 | the scan has min(angles, distances) points, point k pairing angle k with distance k |
| `RobotControl.WellFormedScanKeepsAllPoints` | src/RobotController.cpp:255 | a scan the validator accepts loses no point to the truncation |
| `RobotControl.LidarSummaryCountsStoredPoints` | src/RobotController.cpp:254-269 | the "lidar" entry holds the received timestamp (0 when absent), angle count and distance count; the store holds min(angle count, distance count) points, fewer than the larger count when they differ |
| `RobotControl.GyroSummaryMatchesReading` | src/RobotController.cpp:278-285 | the "gyro" entry holds the received timestamp (0 when absent), x and y, so it agrees with the stored reading on x and y; their stamps differ exactly when the received stamp is 0 and the clock is not |
| `RobotControl.GyroReadingOf` | src/RobotController.cpp:278 | the stored reading has the message's x and y, z = 0, and the clock for a zero timestamp |
| `RobotControl.Classify` | src/RobotController.cpp:225-292 | a frame is dispatched as telemetry, lidar or gyro only when it is not empty, its byte 0 is that type's tag and the rest parses as that message |
| `RobotControl.OtherTagsIgnored` | src/RobotController.cpp:223-294 | an empty frame, a video frame and every tag other than 2, 3 and 4 leave the map and both stores alone |
| `RobotControl.ParsedPayloadDispatched` | src/RobotController.cpp:243-289 | a telemetry, lidar or gyro payload that parses is dispatched without validation |
| `RobotControl.CollectPoints` | src/RobotController.cpp:254-259 | the lidar branch's loop yields exactly `Pairs(angles, distances)` |
| `RobotControl.RobotController.constructor` | RobotController.h:74-91 | starts disconnected, speeds 0, height 50, style 1, empty map, nothing sent, empty stores |
| `RobotControl.RobotController.CurrentMove` | src/RobotController.cpp:42 | the move command carries the current forward, strafe and rotation speeds, each in its own field, and passes `IsValidMoveCommand` when the three speeds are in [-1, 1] |
| `RobotControl.RobotController.SendMessage` | src/RobotController.cpp:197-221 | while connected exactly one frame (tag, serialized message) is appended; while disconnected nothing is |
| `RobotControl.RobotController.SetServerIp` | src/RobotController.cpp:27-33 | the server address becomes the argument |
| `RobotControl.RobotController.SetForwardSpeed` | src/RobotController.cpp:35-46 | within 0.001 nothing changes and nothing is sent; otherwise the speed is clamped, and while connected one move command with the full new triple is sent |
| `RobotControl.RobotController.SetStrafeSpeed` | src/RobotController.cpp:48-59 | as for forward speed, on the strafe axis |
| `RobotControl.RobotController.SetRotationSpeed` | src/RobotController.cpp:61-72 | as for forward speed, on the rotation axis |
| `RobotControl.RobotController.SetHeight` | src/RobotController.cpp:74-86 | a change of more than 0.001 stores the height unclamped and, while connected, sends one height command |
| `RobotControl.RobotController.SetWalkingStyle` | src/RobotController.cpp:88-100 | only a different style in 1..3 is stored, and while connected it sends one walking-style command; otherwise nothing changes |
| `RobotControl.RobotController.Endpoint` | src/RobotController.cpp:113 | the address is the ip framed by "tcp://" and ":5555", so the ip can be read back from it |
| `RobotControl.RobotController.ConnectToRobot` | src/RobotController.cpp:102-128 | an empty address reports the error and changes nothing, also while connected; a transport error reports "Failed to connect: " and its detail and stays disconnected; success connects and starts the heartbeat |
| `RobotControl.RobotController.DisconnectFromRobot` | src/RobotController.cpp:130-146 | afterwards disconnected with the heartbeat stopped; from disconnected nothing changes, so twice equals once |
| `RobotControl.RobotController.SendHeartbeat` | src/RobotController.cpp:148-154 | while connected one heartbeat frame with client id "spider2-gui" and the clock's time; while disconnected nothing |
| `RobotControl.RobotController.HeartbeatTimeout` | src/RobotController.cpp:18-19 | a timer tick while disconnected sends nothing; while connected it sends one heartbeat |
| `RobotControl.RobotController.UpdateTelemetry` | src/RobotController.cpp:296-311 | the map becomes `ApplyTelemetry(old, update)` |
| `RobotControl.RobotController.ProcessIncomingMessage` | src/RobotController.cpp:223-294 | by tag: telemetry updates the map entry; lidar replaces the store with the paired points and records a "lidar" summary; gyro adds one reading with z = 0 and records a "gyro" summary; anything else changes nothing |

## Left out

- `communicationLoop`, `startCommunicationThread`, `stopCommunicationThread`, the `m_running` flag and the thread: these are concurrency and polling. `ProcessIncomingMessage` is the loop body's effect on one received frame. The loop can end on a transport error while the controller still claims to be connected; that is not modelled.
- The ZeroMQ context and socket. The outbox records every frame handed to the socket's send. A send refused because the buffer is full is not modelled, nor is the linger option.
- The socket pointer: while connected it is always present, and the model does not track it apart from `connected`. A failed connect can leave a socket allocated; this is not modelled.
- Protobuf serialization and parsing are the function values of `Protobuf`. A parser's `None` is a failed `ParseFromString`. A serialization failure is not modelled.
- Floating point: speeds, heights, angles, distances and gyro values are reals. The 0.001f epsilon, the float-to-double promotion against M_PI and all rounding are exact here. NaN and the infinities are not represented. A NaN would pass the lidar validator's `<`/`>` tests, fail the move and gyro validators' `>=`/`<=` tests, and make a setter ignore its argument. The validators' "iff" statements therefore hold in the source only for values that are not NaN.
- `GyroHistory.GyroDataModel.Data`: the magnitude role is returned as its three components, because the square root is not modelled.
- `LidarSnapshot.LidarDataModel.Data`: the x and y roles are returned as their polar inputs, because cos and sin are not modelled.
- The wall clock is a `now` parameter. `getCurrentTimestamp` and `isTimestampRecent` are left out.
- Qt plumbing is left out: signals, `roleNames`, the row-insertion and row-removal notifications, and `QTimer` timing (only the timer's running flag is kept). The destructor's call to `disconnectFromRobot` is covered by `DisconnectFromRobot` itself.
- `GyroController` and `LidarController` are folded into `ProcessIncomingMessage`. The gyro forwarder's timestamp rule is `GyroReadingOf`. Their `clearData` forwarders are not modelled.
- The `VideoProvider` image stub and both `main.cpp` files are left out.
- `MessageDirection` and `TelemetryType` are left out: no operation in the core uses them.
- The inline `readingCount()` and `pointCount()` getters are left out; they equal `RowCount`.
- Strings are sequences of characters. Length limits are counted in characters, which equals the byte length only for ASCII. QString conversion is not modelled.
- `RobotControl.RobotController.ConnectToRobot` requires that the controller is disconnected or that the address is empty. The empty-address error is modelled in both states. A connect while connected to a non-empty address is left out, on both of its paths:
  - if the transport connects, the source assigns a new `std::thread` to one that is still joinable, and that calls `std::terminate`;
  - if the transport fails, the source has already replaced the socket the receive loop is polling before it reports the error, and the socket is not modelled.
- `RobotControl.RobotController.SendMessage` requires that the message matches its tag and is acceptable to the robot. The source has no such check. Every caller in the class meets it, and it keeps the invariant that every sent frame is valid.
