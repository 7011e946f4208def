/** The current (unversioned) message unions of `core/message/mod.rs`:
    every message a server can send, the device events among them, and the
    kinds of message a client can send. */
module ServerMessages {
  import opened Wrappers
  import opened DeviceMessageInfos
  import opened DeviceAddedMessages

  /** A message the core passes along without looking inside it: its id and
      the rest of its content. Their declarations (`ok.rs`, `error.rs`,
      `log.rs` and so on) are not part of this model. */
  datatype Opaque = Opaque(id: U32, content: string)

  datatype DeviceListV3 = DeviceListV3(id: U32, devices: seq<DeviceMessageInfoV3>)
  datatype DeviceListV2 = DeviceListV2(id: U32, devices: seq<DeviceMessageInfoV2>)
  datatype DeviceListV1 = DeviceListV1(id: U32, devices: seq<DeviceMessageInfoV1>)
  datatype DeviceListV0 = DeviceListV0(id: U32, devices: seq<DeviceMessageInfoV0>)

  /** `ButtplugServerMessage`: everything a server sends, in its newest form. */
  datatype ButtplugServerMessage =
    | Ok(ok: Opaque)
    | Error(error: Opaque)
    | Test(test: Opaque)
    | Log(log: Opaque)
    | ServerInfo(serverInfo: Opaque)
    | DeviceList(deviceList: DeviceListV3)
    | DeviceAdded(deviceAdded: DeviceAddedV3)
    | DeviceRemoved(deviceRemoved: Opaque)
    | ScanningFinished(scanningFinished: Opaque)
    | RawReading(rawReading: Opaque)
    | SensorReading(sensorReading: Opaque)
    | BatteryLevelReading(batteryLevelReading: Opaque)
    | RSSILevelReading(rssiLevelReading: Opaque)

  /** `ButtplugServerDeviceMessage`: the events a device raises. */
  datatype ButtplugServerDeviceMessage =
    | DeviceRawReading(rawReading: Opaque)
    | DeviceSensorReading(sensorReading: Opaque)

  /** `From<ButtplugServerDeviceMessage> for ButtplugServerMessage`: the
      same-named variant with the payload untouched. */
  function FromServerDeviceMessage(msg: ButtplugServerDeviceMessage): (r: ButtplugServerMessage)
    ensures msg.DeviceRawReading? ==> r == RawReading(msg.rawReading)
    ensures msg.DeviceSensorReading? ==> r == SensorReading(msg.sensorReading)
  {
    match msg
    case DeviceRawReading(m) => RawReading(m)
    case DeviceSensorReading(m) => SensorReading(m)
  }

  /** Only readings come from devices, and distinct device events stay
      distinct once widened. */
  lemma FromServerDeviceMessageInjective(a: ButtplugServerDeviceMessage, b: ButtplugServerDeviceMessage)
    ensures FromServerDeviceMessage(a).RawReading? || FromServerDeviceMessage(a).SensorReading?
    ensures FromServerDeviceMessage(a) == FromServerDeviceMessage(b) ==> a == b
  {
  }

  /** The variants of `ButtplugClientMessage`: everything a client may send
      under some spec version. */
  datatype ClientMessageKind =
    | PingMsg | RequestLogMsg | RequestServerInfoMsg | StartScanningMsg | StopScanningMsg
    | RequestDeviceListMsg | StopAllDevicesMsg | VibrateCmdMsg | LinearCmdMsg | RotateCmdMsg
    | RawWriteCmdMsg | RawReadCmdMsg | StopDeviceCmdMsg | RawSubscribeCmdMsg | RawUnsubscribeCmdMsg
    | ScalarCmdMsg | BatteryLevelCmdMsg | RSSILevelCmdMsg | SensorReadCmdMsg | SensorSubscribeCmdMsg
    | SensorUnsubscribeCmdMsg | SingleMotorVibrateCmdMsg | FleshlightLaunchFW12CmdMsg | LovenseCmdMsg
    | KiirooCmdMsg | VorzeA10CycloneCmdMsg

  /** The conversions the version ladder calls but that live outside the
      core: the `Debug` rendering of a message, `ErrorV0`/`ServerInfoV0`
      from their newer forms, and the device list and device added
      conversions to each older version. */
  datatype ServerConversions = ServerConversions(
    debug: ButtplugServerMessage -> string,
    errorToV0: Opaque -> Opaque,
    serverInfoToV0: Opaque -> Opaque,
    listToV2: DeviceListV3 -> DeviceListV2,
    listToV1: DeviceListV3 -> DeviceListV1,
    listToV0: DeviceListV3 -> DeviceListV0,
    addedToV2: DeviceAddedV3 -> DeviceAddedV2,
    addedToV1: DeviceAddedV3 -> DeviceAddedV1,
    addedToV0: DeviceAddedV3 -> DeviceAddedV0)

  /** The variants every version from V3 down to V0 can carry. */
  predicate InEveryVersion(msg: ButtplugServerMessage)
  {
    msg.Ok? || msg.Error? || msg.ServerInfo? || msg.DeviceList? || msg.DeviceAdded?
      || msg.DeviceRemoved? || msg.ScanningFinished?
  }
}
