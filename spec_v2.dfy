/** Message spec version 2 (`core/message/spec_v2/mod.rs`, repeated in
    `core/message/mod.rs`). */
module SpecV2 {
  import opened Wrappers
  import opened Errors
  import DA = DeviceAddedMessages
  import SM = ServerMessages

  datatype ButtplugSpecV2ServerMessage =
    | Ok(ok: SM.Opaque)
    | Error(error: SM.Opaque)
    | ServerInfo(serverInfo: SM.Opaque)
    | DeviceList(deviceList: SM.DeviceListV2)
    | DeviceAdded(deviceAdded: DA.DeviceAddedV2)
    | DeviceRemoved(deviceRemoved: SM.Opaque)
    | ScanningFinished(scanningFinished: SM.Opaque)
    | RawReading(rawReading: SM.Opaque)
    | BatteryLevelReading(batteryLevelReading: SM.Opaque)
    | RSSILevelReading(rssiLevelReading: SM.Opaque)

  /** The client messages of spec V2: V3's without the scalar and sensor
      commands, with the battery and RSSI commands instead. */
  const ClientMessages: set<SM.ClientMessageKind> := {
    SM.RequestServerInfoMsg, SM.PingMsg, SM.StartScanningMsg, SM.StopScanningMsg,
    SM.RequestDeviceListMsg, SM.StopAllDevicesMsg, SM.VibrateCmdMsg, SM.LinearCmdMsg,
    SM.RotateCmdMsg, SM.RawWriteCmdMsg, SM.RawReadCmdMsg, SM.StopDeviceCmdMsg,
    SM.RawSubscribeCmdMsg, SM.RawUnsubscribeCmdMsg, SM.BatteryLevelCmdMsg, SM.RSSILevelCmdMsg }

  /** The error for a message V2 does not accept. */
  function V2VersionError(msg: SM.ButtplugServerMessage, conv: SM.ServerConversions): ButtplugMessageError
  {
    VersionError("ButtplugServerMessage", conv.debug(msg), "ButtplugSpecV2ServerMessage")
  }

  /** `TryFrom<ButtplugServerMessage> for ButtplugSpecV2ServerMessage`:
      accepts the seven variants every version carries, converting device
      lists and device-added events to their V2 form and passing the other
      payloads through; everything else, the three readings V2 declares
      included, is a version error. */
  function TryFromServerMessage(msg: SM.ButtplugServerMessage, conv: SM.ServerConversions): (r: Result<ButtplugSpecV2ServerMessage, ButtplugMessageError>)
    ensures r.Success? <==> SM.InEveryVersion(msg)
    ensures r.Failure? ==> r.error == V2VersionError(msg, conv)
    ensures msg.Ok? ==> r == Success(Ok(msg.ok))
    ensures msg.Error? ==> r == Success(Error(msg.error))
    ensures msg.ServerInfo? ==> r == Success(ServerInfo(msg.serverInfo))
    ensures msg.DeviceList? ==> r == Success(DeviceList(conv.listToV2(msg.deviceList)))
    ensures msg.DeviceAdded? ==> r == Success(DeviceAdded(conv.addedToV2(msg.deviceAdded)))
    ensures msg.DeviceRemoved? ==> r == Success(DeviceRemoved(msg.deviceRemoved))
    ensures msg.ScanningFinished? ==> r == Success(ScanningFinished(msg.scanningFinished))
  {
    match msg
    case Ok(m) => Success(Ok(m))
    case Error(m) => Success(Error(m))
    case ServerInfo(m) => Success(ServerInfo(m))
    case DeviceList(m) => Success(DeviceList(conv.listToV2(m)))
    case DeviceAdded(m) => Success(DeviceAdded(conv.addedToV2(m)))
    case DeviceRemoved(m) => Success(DeviceRemoved(m))
    case ScanningFinished(m) => Success(ScanningFinished(m))
    case _ => Failure(V2VersionError(msg, conv))
  }
}
