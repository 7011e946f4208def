/** Message spec version 1 (`core/message/spec_v1/mod.rs`, repeated in
    `core/message/mod.rs`). */
module SpecV1 {
  import opened Wrappers
  import opened Errors
  import DA = DeviceAddedMessages
  import SM = ServerMessages

  /** `Error` carries an `ErrorV0` and `ServerInfo` a `ServerInfoV0`. */
  datatype ButtplugSpecV1ServerMessage =
    | Ok(ok: SM.Opaque)
    | Error(error: SM.Opaque)
    | Log(log: SM.Opaque)
    | ServerInfo(serverInfo: SM.Opaque)
    | DeviceList(deviceList: SM.DeviceListV1)
    | DeviceAdded(deviceAdded: DA.DeviceAddedV1)
    | DeviceRemoved(deviceRemoved: SM.Opaque)
    | ScanningFinished(scanningFinished: SM.Opaque)

  /** The client messages of spec V1: the generic commands plus the
      deprecated ones, with no raw or sensor commands. */
  const ClientMessages: set<SM.ClientMessageKind> := {
    SM.RequestServerInfoMsg, SM.PingMsg, SM.StartScanningMsg, SM.StopScanningMsg,
    SM.RequestDeviceListMsg, SM.StopAllDevicesMsg, SM.VibrateCmdMsg, SM.LinearCmdMsg,
    SM.RotateCmdMsg, SM.StopDeviceCmdMsg, SM.SingleMotorVibrateCmdMsg,
    SM.FleshlightLaunchFW12CmdMsg, SM.LovenseCmdMsg, SM.KiirooCmdMsg, SM.VorzeA10CycloneCmdMsg }

  /** The error for a message V1 does not accept. */
  function V1VersionError(msg: SM.ButtplugServerMessage, conv: SM.ServerConversions): ButtplugMessageError
  {
    VersionError("ButtplugServerMessage", conv.debug(msg), "ButtplugSpecV1ServerMessage")
  }

  /** `TryFrom<ButtplugServerMessage> for ButtplugSpecV1ServerMessage`:
      accepts the seven variants every version carries and `Log`; errors,
      server information, device lists and device-added events are converted
      to their old forms, the rest passes through; everything else is a
      version error. */
  function TryFromServerMessage(msg: SM.ButtplugServerMessage, conv: SM.ServerConversions): (r: Result<ButtplugSpecV1ServerMessage, ButtplugMessageError>)
    ensures r.Success? <==> SM.InEveryVersion(msg) || msg.Log?
    ensures r.Failure? ==> r.error == V1VersionError(msg, conv)
    ensures msg.Ok? ==> r == Success(Ok(msg.ok))
    ensures msg.Error? ==> r == Success(Error(conv.errorToV0(msg.error)))
    ensures msg.Log? ==> r == Success(Log(msg.log))
    ensures msg.ServerInfo? ==> r == Success(ServerInfo(conv.serverInfoToV0(msg.serverInfo)))
    ensures msg.DeviceList? ==> r == Success(DeviceList(conv.listToV1(msg.deviceList)))
    ensures msg.DeviceAdded? ==> r == Success(DeviceAdded(conv.addedToV1(msg.deviceAdded)))
    ensures msg.DeviceRemoved? ==> r == Success(DeviceRemoved(msg.deviceRemoved))
    ensures msg.ScanningFinished? ==> r == Success(ScanningFinished(msg.scanningFinished))
  {
    match msg
    case Ok(m) => Success(Ok(m))
    case Error(m) => Success(Error(conv.errorToV0(m)))
    case Log(m) => Success(Log(m))
    case ServerInfo(m) => Success(ServerInfo(conv.serverInfoToV0(m)))
    case DeviceList(m) => Success(DeviceList(conv.listToV1(m)))
    case DeviceAdded(m) => Success(DeviceAdded(conv.addedToV1(m)))
    case DeviceRemoved(m) => Success(DeviceRemoved(m))
    case ScanningFinished(m) => Success(ScanningFinished(m))
    case _ => Failure(V1VersionError(msg, conv))
  }
}
