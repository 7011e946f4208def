/** Message spec version 0 (`core/message/spec_v0/mod.rs`, repeated in
    `core/message/mod.rs`). */
module SpecV0 {
  import opened Wrappers
  import opened Errors
  import DA = DeviceAddedMessages
  import SM = ServerMessages

  /** `Error` carries an `ErrorV0` and `ServerInfo` a `ServerInfoV0`. */
  datatype ButtplugSpecV0ServerMessage =
    | Ok(ok: SM.Opaque)
    | Error(error: SM.Opaque)
    | Log(log: SM.Opaque)
    | ServerInfo(serverInfo: SM.Opaque)
    | DeviceList(deviceList: SM.DeviceListV0)
    | DeviceAdded(deviceAdded: DA.DeviceAddedV0)
    | DeviceRemoved(deviceRemoved: SM.Opaque)
    | ScanningFinished(scanningFinished: SM.Opaque)

  /** The client messages of spec V0: log requests and the deprecated
      commands, with none of the generic vibrate, linear or rotate
      commands. */
  const ClientMessages: set<SM.ClientMessageKind> := {
    SM.RequestLogMsg, SM.PingMsg, SM.RequestServerInfoMsg, SM.StartScanningMsg,
    SM.StopScanningMsg, SM.RequestDeviceListMsg, SM.StopAllDevicesMsg, SM.StopDeviceCmdMsg,
    SM.SingleMotorVibrateCmdMsg, SM.FleshlightLaunchFW12CmdMsg, SM.LovenseCmdMsg,
    SM.KiirooCmdMsg, SM.VorzeA10CycloneCmdMsg }

  /** The error for a message V0 does not accept. */
  function V0VersionError(msg: SM.ButtplugServerMessage, conv: SM.ServerConversions): ButtplugMessageError
  {
    VersionError("ButtplugServerMessage", conv.debug(msg), "ButtplugSpecV0ServerMessage")
  }

  /** `TryFrom<ButtplugServerMessage> for ButtplugSpecV0ServerMessage`: the
      same eight variants as V1, converted to their V0 forms. */
  function TryFromServerMessage(msg: SM.ButtplugServerMessage, conv: SM.ServerConversions): (r: Result<ButtplugSpecV0ServerMessage, ButtplugMessageError>)
    ensures r.Success? <==> SM.InEveryVersion(msg) || msg.Log?
    ensures r.Failure? ==> r.error == V0VersionError(msg, conv)
    ensures msg.Ok? ==> r == Success(Ok(msg.ok))
    ensures msg.Error? ==> r == Success(Error(conv.errorToV0(msg.error)))
    ensures msg.Log? ==> r == Success(Log(msg.log))
    ensures msg.ServerInfo? ==> r == Success(ServerInfo(conv.serverInfoToV0(msg.serverInfo)))
    ensures msg.DeviceList? ==> r == Success(DeviceList(conv.listToV0(msg.deviceList)))
    ensures msg.DeviceAdded? ==> r == Success(DeviceAdded(conv.addedToV0(msg.deviceAdded)))
    ensures msg.DeviceRemoved? ==> r == Success(DeviceRemoved(msg.deviceRemoved))
    ensures msg.ScanningFinished? ==> r == Success(ScanningFinished(msg.scanningFinished))
  {
    match msg
    case Ok(m) => Success(Ok(m))
    case Error(m) => Success(Error(conv.errorToV0(m)))
    case Log(m) => Success(Log(m))
    case ServerInfo(m) => Success(ServerInfo(conv.serverInfoToV0(m)))
    case DeviceList(m) => Success(DeviceList(conv.listToV0(m)))
    case DeviceAdded(m) => Success(DeviceAdded(conv.addedToV0(m)))
    case DeviceRemoved(m) => Success(DeviceRemoved(m))
    case ScanningFinished(m) => Success(ScanningFinished(m))
    case _ => Failure(V0VersionError(msg, conv))
  }
}
