/** The `DeviceAdded` server event in each message spec version, its
    validation and finalisation, and its conversions to older versions
    (`core/message/device_added.rs`), together with the conversions of
    `core/message/device_message_info.rs` that start from a `DeviceAdded`. */
module DeviceAddedMessages {
  import opened Wrappers
  import opened DeviceMessageTypes
  import opened MessageAttributes
  import opened Errors
  import opened Messages
  import opened DeviceMessageInfos

  /** The current (unversioned) event. */
  datatype DeviceAdded = DeviceAdded(
    id: U32,
    index: U32,
    name: string,
    displayName: Option<string>,
    messageTimingGap: Option<U32>,
    actuators: Option<seq<ServerActuatorInfo>>,
    sensors: Option<seq<SensorInfo>>,
    raw: Option<seq<Endpoint>>)

  datatype DeviceAddedV3 = DeviceAddedV3(
    id: U32,
    deviceIndex: U32,
    deviceName: string,
    deviceDisplayName: Option<string>,
    deviceMessageTimingGap: Option<U32>,
    deviceMessages: ClientDeviceMessageAttributes)

  datatype DeviceAddedV2 = DeviceAddedV2(
    id: U32,
    deviceIndex: U32,
    deviceName: string,
    deviceMessages: ClientDeviceMessageAttributesV2)

  datatype DeviceAddedV1 = DeviceAddedV1(
    id: U32,
    deviceIndex: U32,
    deviceName: string,
    deviceMessages: ClientDeviceMessageAttributesV1)

  datatype DeviceAddedV0 = DeviceAddedV0(
    id: U32,
    deviceIndex: U32,
    deviceName: string,
    deviceMessages: seq<ButtplugDeviceMessageType>)

  /** The `DeviceMessageInfo`-to-V3 step every `From<DeviceAdded>` chain
      goes through. None stands for a panic. */
  type InfoUpgrade = DeviceMessageInfo -> Option<DeviceMessageInfoV3>

  /** The step as the source has it: its body is `unimplemented!`, so it
      panics on every input. */
  function UnimplementedUpgrade(info: DeviceMessageInfo): Option<DeviceMessageInfoV3>
  {
    None
  }

  // ---------------------------------------------------------------------
  // Finalisation and construction

  /** `DeviceAdded::finalize` does nothing. */
  function FinalizeDeviceAdded(msg: DeviceAdded): (r: DeviceAdded)
    ensures r == msg
  {
    msg
  }

  /** `DeviceAddedV3::finalize` finalises the attributes and changes nothing
      else. */
  function FinalizeDeviceAddedV3(msg: DeviceAddedV3, conv: AttributeConversions): (r: DeviceAddedV3)
    ensures r.id == msg.id && r.deviceIndex == msg.deviceIndex && r.deviceName == msg.deviceName
    ensures r.deviceDisplayName == msg.deviceDisplayName
    ensures r.deviceMessageTimingGap == msg.deviceMessageTimingGap
    ensures r.deviceMessages == conv.finalize(msg.deviceMessages)
  {
    msg.(deviceMessages := conv.finalize(msg.deviceMessages))
  }

  /** `DeviceAdded::is_valid`: a device-added event is a system message. */
  function IsValidDeviceAdded(msg: DeviceAdded): (r: Result<(), ButtplugMessageError>)
    ensures r.Success? <==> msg.id == 0
  {
    IsSystemId(msg.id)
  }

  function IsValidDeviceAddedV3(msg: DeviceAddedV3): (r: Result<(), ButtplugMessageError>)
    ensures r.Success? <==> msg.id == 0
  {
    IsSystemId(msg.id)
  }

  function IsValidDeviceAddedV2(msg: DeviceAddedV2): (r: Result<(), ButtplugMessageError>)
    ensures r.Success? <==> msg.id == 0
  {
    IsSystemId(msg.id)
  }

  function IsValidDeviceAddedV1(msg: DeviceAddedV1): (r: Result<(), ButtplugMessageError>)
    ensures r.Success? <==> msg.id == 0
  {
    IsSystemId(msg.id)
  }

  function IsValidDeviceAddedV0(msg: DeviceAddedV0): (r: Result<(), ButtplugMessageError>)
    ensures r.Success? <==> msg.id == 0
  {
    IsSystemId(msg.id)
  }

  /** `DeviceAdded::new`: id 0, every argument stored unchanged, then
      finalised; the result is a valid event. */
  function NewDeviceAdded(
    index: U32, name: string, displayName: Option<string>, timingGap: Option<U32>,
    actuators: Option<seq<ServerActuatorInfo>>, sensors: Option<seq<SensorInfo>>,
    raw: Option<seq<Endpoint>>): (r: DeviceAdded)
    ensures r.id == 0 && r.index == index && r.name == name
    ensures r.displayName == displayName && r.messageTimingGap == timingGap
    ensures r.actuators == actuators && r.sensors == sensors && r.raw == raw
    ensures IsValidDeviceAdded(r).Success?
  {
    FinalizeDeviceAdded(DeviceAdded(0, index, name, displayName, timingGap, actuators, sensors, raw))
  }

  /** `DeviceAddedV3::new`: id 0, the other arguments stored, then
      finalised, which finalises the attributes; the result is valid. */
  function NewDeviceAddedV3(
    deviceIndex: U32, deviceName: string, displayName: Option<string>, timingGap: Option<U32>,
    messages: ClientDeviceMessageAttributes, conv: AttributeConversions): (r: DeviceAddedV3)
    ensures r.id == 0 && r.deviceIndex == deviceIndex && r.deviceName == deviceName
    ensures r.deviceDisplayName == displayName && r.deviceMessageTimingGap == timingGap
    ensures r.deviceMessages == conv.finalize(messages)
    ensures IsValidDeviceAddedV3(r).Success?
  {
    FinalizeDeviceAddedV3(DeviceAddedV3(0, deviceIndex, deviceName, displayName, timingGap, messages), conv)
  }

  // ---------------------------------------------------------------------
  // Device information taken from a DeviceAdded event

  /** `From<DeviceAdded> for DeviceMessageInfo`: everything but the id. */
  function InfoFromDeviceAdded(msg: DeviceAdded): (r: DeviceMessageInfo)
    ensures r.index == msg.index && r.name == msg.name && r.displayName == msg.displayName
    ensures r.messageTimingGap == msg.messageTimingGap && r.actuators == msg.actuators
    ensures r.sensors == msg.sensors && r.raw == msg.raw
  {
    DeviceMessageInfo(msg.index, msg.name, msg.displayName, msg.messageTimingGap, msg.actuators, msg.sensors, msg.raw)
  }

  /** `From<DeviceAddedV3> for DeviceMessageInfoV3`: everything but the id. */
  function InfoV3FromDeviceAddedV3(msg: DeviceAddedV3): (r: DeviceMessageInfoV3)
    ensures r.deviceIndex == msg.deviceIndex && r.deviceName == msg.deviceName
    ensures r.deviceDisplayName == msg.deviceDisplayName
    ensures r.deviceMessageTimingGap == msg.deviceMessageTimingGap
    ensures r.deviceMessages == msg.deviceMessages
  {
    NewDeviceMessageInfoV3(msg.deviceIndex, msg.deviceName, msg.deviceDisplayName,
      msg.deviceMessageTimingGap, msg.deviceMessages)
  }

  /** `From<DeviceAddedV2> for DeviceMessageInfoV2`: everything but the id. */
  function InfoV2FromDeviceAddedV2(msg: DeviceAddedV2): (r: DeviceMessageInfoV2)
    ensures r.deviceIndex == msg.deviceIndex && r.deviceName == msg.deviceName
    ensures r.deviceMessages == msg.deviceMessages
  {
    DeviceMessageInfoV2(msg.deviceIndex, msg.deviceName, msg.deviceMessages)
  }

  /** `From<DeviceAddedV3> for DeviceMessageInfoV2`, through V3. */
  function InfoV2FromDeviceAddedV3(msg: DeviceAddedV3, conv: AttributeConversions): (r: DeviceMessageInfoV2)
    ensures r == DeviceMessageInfoV2(msg.deviceIndex, msg.deviceName, conv.toV2(msg.deviceMessages))
  {
    InfoV3ToV2(InfoV3FromDeviceAddedV3(msg), conv)
  }

  /** `From<DeviceAddedV3> for DeviceMessageInfoV1`, through V2. */
  function InfoV1FromDeviceAddedV3(msg: DeviceAddedV3, conv: AttributeConversions): (r: DeviceMessageInfoV1)
    ensures r == DeviceMessageInfoV1(msg.deviceIndex, msg.deviceName, conv.toV1(conv.toV2(msg.deviceMessages)))
  {
    InfoV2ToV1(InfoV2FromDeviceAddedV3(msg, conv), conv)
  }

  /** `From<DeviceAddedV3> for DeviceMessageInfoV0`, through V3, V2 and V1. */
  function InfoV0FromDeviceAddedV3(msg: DeviceAddedV3, conv: AttributeConversions): (r: DeviceMessageInfoV0)
    ensures r == DeviceMessageInfoV0(msg.deviceIndex, msg.deviceName,
                                     V0MessageList(conv.toV1(conv.toV2(msg.deviceMessages))))
  {
    InfoV1ToV0Spec(InfoV2ToV1(InfoV3ToV2(InfoV3FromDeviceAddedV3(msg), conv), conv))
  }

  /** Every V0 info of a V3 event offers `StopDeviceCmd`, whatever the
      attributes. */
  lemma InfoV0FromDeviceAddedV3CanStop(msg: DeviceAddedV3, conv: AttributeConversions)
    ensures StopDeviceCmd in InfoV0FromDeviceAddedV3(msg, conv).deviceMessages
  {
    V0MessageListMembers(conv.toV1(conv.toV2(msg.deviceMessages)), StopDeviceCmd);
  }

  // ---------------------------------------------------------------------
  // From<DeviceAdded> for the versioned events

  /** `From<DeviceAdded> for DeviceAddedV3`: the id is kept and the rest is
      the upgraded device information. Panics exactly when the upgrade does. */
  function DeviceAddedToV3(msg: DeviceAdded, upgrade: InfoUpgrade): (r: Option<DeviceAddedV3>)
    ensures r.Some? <==> upgrade(InfoFromDeviceAdded(msg)).Some?
    ensures r.Some? ==> r.value.id == msg.id
    ensures r.Some? ==>
      var info := upgrade(InfoFromDeviceAdded(msg)).value;
      r.value.deviceIndex == info.deviceIndex && r.value.deviceName == info.deviceName &&
      r.value.deviceDisplayName == info.deviceDisplayName &&
      r.value.deviceMessageTimingGap == info.deviceMessageTimingGap &&
      r.value.deviceMessages == info.deviceMessages
  {
    match upgrade(InfoFromDeviceAdded(msg))
    case None => None
    case Some(info) =>
      Some(DeviceAddedV3(msg.id, info.deviceIndex, info.deviceName, info.deviceDisplayName,
                         info.deviceMessageTimingGap, info.deviceMessages))
  }

  /** `From<DeviceAdded> for DeviceAddedV2`. */
  function DeviceAddedToV2(msg: DeviceAdded, upgrade: InfoUpgrade, conv: AttributeConversions): (r: Option<DeviceAddedV2>)
    ensures r.Some? <==> upgrade(InfoFromDeviceAdded(msg)).Some?
    ensures r.Some? ==> r.value.id == msg.id
    ensures r.Some? ==>
      var info := upgrade(InfoFromDeviceAdded(msg)).value;
      r.value.deviceIndex == info.deviceIndex && r.value.deviceName == info.deviceName &&
      r.value.deviceMessages == conv.toV2(info.deviceMessages)
  {
    match upgrade(InfoFromDeviceAdded(msg))
    case None => None
    case Some(info) =>
      var v2 := InfoV3ToV2(info, conv);
      Some(DeviceAddedV2(msg.id, v2.deviceIndex, v2.deviceName, v2.deviceMessages))
  }

  /** `From<DeviceAdded> for DeviceAddedV1`. */
  function DeviceAddedToV1(msg: DeviceAdded, upgrade: InfoUpgrade, conv: AttributeConversions): (r: Option<DeviceAddedV1>)
    ensures r.Some? <==> upgrade(InfoFromDeviceAdded(msg)).Some?
    ensures r.Some? ==> r.value.id == msg.id
    ensures r.Some? ==>
      var info := upgrade(InfoFromDeviceAdded(msg)).value;
      r.value.deviceIndex == info.deviceIndex && r.value.deviceName == info.deviceName &&
      r.value.deviceMessages == conv.toV1(conv.toV2(info.deviceMessages))
  {
    match upgrade(InfoFromDeviceAdded(msg))
    case None => None
    case Some(info) =>
      var v1 := InfoV2ToV1(InfoV3ToV2(info, conv), conv);
      Some(DeviceAddedV1(msg.id, v1.deviceIndex, v1.deviceName, v1.deviceMessages))
  }

  /** `From<DeviceAdded> for DeviceAddedV0`: the capability list is the V1
      to V0 conversion of the same event's attributes. */
  function DeviceAddedToV0(msg: DeviceAdded, upgrade: InfoUpgrade, conv: AttributeConversions): (r: Option<DeviceAddedV0>)
    ensures r.Some? <==> upgrade(InfoFromDeviceAdded(msg)).Some?
    ensures r.Some? ==> r.value.id == msg.id
    ensures r.Some? ==>
      var info := upgrade(InfoFromDeviceAdded(msg)).value;
      r.value.deviceIndex == info.deviceIndex && r.value.deviceName == info.deviceName &&
      r.value.deviceMessages == V0MessageList(conv.toV1(conv.toV2(info.deviceMessages)))
  {
    match upgrade(InfoFromDeviceAdded(msg))
    case None => None
    case Some(info) =>
      var v0 := InfoV1ToV0Spec(InfoV2ToV1(InfoV3ToV2(info, conv), conv));
      Some(DeviceAddedV0(msg.id, v0.deviceIndex, v0.deviceName, v0.deviceMessages))
  }

  /** The conversions keep validity, since they keep the id. */
  lemma DeviceAddedConversionsKeepValidity(msg: DeviceAdded, upgrade: InfoUpgrade, conv: AttributeConversions)
    requires upgrade(InfoFromDeviceAdded(msg)).Some?
    ensures IsValidDeviceAddedV3(DeviceAddedToV3(msg, upgrade).value).Success? <==> IsValidDeviceAdded(msg).Success?
    ensures IsValidDeviceAddedV2(DeviceAddedToV2(msg, upgrade, conv).value).Success? <==> IsValidDeviceAdded(msg).Success?
    ensures IsValidDeviceAddedV1(DeviceAddedToV1(msg, upgrade, conv).value).Success? <==> IsValidDeviceAdded(msg).Success?
    ensures IsValidDeviceAddedV0(DeviceAddedToV0(msg, upgrade, conv).value).Success? <==> IsValidDeviceAdded(msg).Success?
  {
  }

  /** With the upgrade as written, every `From<DeviceAdded>` conversion
      panics. */
  lemma DeviceAddedConversionsPanic(msg: DeviceAdded, conv: AttributeConversions)
    ensures DeviceAddedToV3(msg, UnimplementedUpgrade).None?
    ensures DeviceAddedToV2(msg, UnimplementedUpgrade, conv).None?
    ensures DeviceAddedToV1(msg, UnimplementedUpgrade, conv).None?
    ensures DeviceAddedToV0(msg, UnimplementedUpgrade, conv).None?
  {
  }
}
