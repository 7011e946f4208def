/** Message spec version 3, the current one (`core/message/spec_v3/mod.rs`,
    repeated in `core/message/mod.rs`). */
module SpecV3 {
  import opened Wrappers
  import opened Errors
  import opened MessageAttributes
  import DA = DeviceAddedMessages
  import SM = ServerMessages

  datatype ButtplugSpecV3ServerMessage =
    | Ok(ok: SM.Opaque)
    | Error(error: SM.Opaque)
    | ServerInfo(serverInfo: SM.Opaque)
    | DeviceList(deviceList: SM.DeviceListV3)
    | DeviceAdded(deviceAdded: DA.DeviceAddedV3)
    | DeviceRemoved(deviceRemoved: SM.Opaque)
    | ScanningFinished(scanningFinished: SM.Opaque)
    | RawReading(rawReading: SM.Opaque)
    | SensorReading(sensorReading: SM.Opaque)

  /** The client messages of spec V3. */
  const ClientMessages: set<SM.ClientMessageKind> := {
    SM.RequestServerInfoMsg, SM.PingMsg, SM.StartScanningMsg, SM.StopScanningMsg,
    SM.RequestDeviceListMsg, SM.StopAllDevicesMsg, SM.VibrateCmdMsg, SM.LinearCmdMsg,
    SM.RotateCmdMsg, SM.RawWriteCmdMsg, SM.RawReadCmdMsg, SM.StopDeviceCmdMsg,
    SM.RawSubscribeCmdMsg, SM.RawUnsubscribeCmdMsg, SM.ScalarCmdMsg, SM.SensorReadCmdMsg,
    SM.SensorSubscribeCmdMsg, SM.SensorUnsubscribeCmdMsg }

  /** The same-named variant of the current server union. */
  function ToServerMessage(msg: ButtplugSpecV3ServerMessage): SM.ButtplugServerMessage
  {
    match msg
    case Ok(m) => SM.Ok(m)
    case Error(m) => SM.Error(m)
    case ServerInfo(m) => SM.ServerInfo(m)
    case DeviceList(m) => SM.DeviceList(m)
    case DeviceAdded(m) => SM.DeviceAdded(m)
    case DeviceRemoved(m) => SM.DeviceRemoved(m)
    case ScanningFinished(m) => SM.ScanningFinished(m)
    case RawReading(m) => SM.RawReading(m)
    case SensorReading(m) => SM.SensorReading(m)
  }

  /** The error for a message V3 does not accept. */
  function V3VersionError(msg: SM.ButtplugServerMessage, conv: SM.ServerConversions): ButtplugMessageError
  {
    VersionError("ButtplugServerMessage", conv.debug(msg), "ButtplugSpecV3ServerMessage")
  }

  /** `TryFrom<ButtplugServerMessage> for ButtplugSpecV3ServerMessage`:
      accepts exactly the seven variants every version carries and passes
      their payloads through unchanged; everything else, readings included,
      is a version error. */
  function TryFromServerMessage(msg: SM.ButtplugServerMessage, conv: SM.ServerConversions): (r: Result<ButtplugSpecV3ServerMessage, ButtplugMessageError>)
    ensures r.Success? <==> SM.InEveryVersion(msg)
    ensures r.Success? ==> ToServerMessage(r.value) == msg
    ensures r.Failure? ==> r.error == V3VersionError(msg, conv)
  {
    match msg
    case Ok(m) => Success(Ok(m))
    case Error(m) => Success(Error(m))
    case ServerInfo(m) => Success(ServerInfo(m))
    case DeviceList(m) => Success(DeviceList(m))
    case DeviceAdded(m) => Success(DeviceAdded(m))
    case DeviceRemoved(m) => Success(DeviceRemoved(m))
    case ScanningFinished(m) => Success(ScanningFinished(m))
    case _ => Failure(V3VersionError(msg, conv))
  }

  /** Widening a V3 message and narrowing it back gives it back, except for
      the two readings, which V3 declares but its conversion rejects. */
  lemma TryFromWidenedMessage(v: ButtplugSpecV3ServerMessage, conv: SM.ServerConversions)
    ensures !(v.RawReading? || v.SensorReading?) ==> TryFromServerMessage(ToServerMessage(v), conv) == Success(v)
    ensures v.RawReading? || v.SensorReading? ==>
      TryFromServerMessage(ToServerMessage(v), conv) == Failure(V3VersionError(ToServerMessage(v), conv))
  {
  }

  /** `ButtplugMessageFinalizer for ButtplugSpecV3ServerMessage`: finalises
      a contained device-added event or device list and leaves every other
      message as it is. `finalizeList` is `DeviceListV3::finalize`, which is
      not part of this model. */
  function Finalize(msg: ButtplugSpecV3ServerMessage, conv: AttributeConversions,
                    finalizeList: SM.DeviceListV3 -> SM.DeviceListV3): (r: ButtplugSpecV3ServerMessage)
    ensures msg.DeviceAdded? ==> r == DeviceAdded(DA.FinalizeDeviceAddedV3(msg.deviceAdded, conv))
    ensures msg.DeviceList? ==> r == DeviceList(finalizeList(msg.deviceList))
    ensures !msg.DeviceAdded? && !msg.DeviceList? ==> r == msg
  {
    match msg
    case DeviceAdded(da) => DeviceAdded(DA.FinalizeDeviceAddedV3(da, conv))
    case DeviceList(dl) => DeviceList(finalizeList(dl))
    case _ => msg
  }
}
