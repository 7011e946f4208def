/** The device descriptions carried by `DeviceAdded` and `DeviceList` in each
    message spec version, and the conversions between them
    (`core/message/device_message_info.rs`). */
module DeviceMessageInfos {
  import opened Wrappers
  import opened DeviceMessageTypes
  import opened MessageAttributes
  import opened DeviceFeatures
  import opened Sorting

  /** An actuator as the server describes it: descriptor, type and the
      inclusive step range of the hardware. */
  datatype ServerActuatorInfo = ServerActuatorInfo(
    descriptor: string,
    actuatorType: ActuatorType,
    stepRange: StepRange)

  /** An actuator as a client sees it: the step range collapsed to a count. */
  datatype ClientActuatorInfo = ClientActuatorInfo(
    index: U32,
    descriptor: string,
    actuatorType: ActuatorType,
    stepCount: U32)

  datatype SensorInfo = SensorInfo(
    index: U32,
    descriptor: string,
    sensorType: SensorType,
    sensorRange: seq<SensorRange>,
    readable: bool,
    subscribable: bool)

  /** The current (unversioned) device description. */
  datatype DeviceMessageInfo = DeviceMessageInfo(
    index: U32,
    name: string,
    displayName: Option<string>,
    messageTimingGap: Option<U32>,
    actuators: Option<seq<ServerActuatorInfo>>,
    sensors: Option<seq<SensorInfo>>,
    raw: Option<seq<Endpoint>>)

  datatype DeviceMessageInfoV3 = DeviceMessageInfoV3(
    deviceIndex: U32,
    deviceName: string,
    deviceDisplayName: Option<string>,
    deviceMessageTimingGap: Option<U32>,
    deviceMessages: ClientDeviceMessageAttributes)

  datatype DeviceMessageInfoV2 = DeviceMessageInfoV2(
    deviceIndex: U32,
    deviceName: string,
    deviceMessages: ClientDeviceMessageAttributesV2)

  datatype DeviceMessageInfoV1 = DeviceMessageInfoV1(
    deviceIndex: U32,
    deviceName: string,
    deviceMessages: ClientDeviceMessageAttributesV1)

  /** Spec V0 lists capabilities as bare message types. */
  datatype DeviceMessageInfoV0 = DeviceMessageInfoV0(
    deviceIndex: U32,
    deviceName: string,
    deviceMessages: seq<ButtplugDeviceMessageType>)

  /** `ServerActuatorInfo::new`: every argument is stored unchanged. */
  function NewServerActuatorInfo(descriptor: string, actuatorType: ActuatorType, stepRange: StepRange): (r: ServerActuatorInfo)
    ensures r.descriptor == descriptor && r.actuatorType == actuatorType && r.stepRange == stepRange
  {
    ServerActuatorInfo(descriptor, actuatorType, stepRange)
  }

  /** `ClientActuatorInfo::new`: the message list it is given is dropped. */
  function NewClientActuatorInfo(
    index: U32, descriptor: string, actuatorType: ActuatorType,
    messages: seq<ButtplugDeviceMessageType>, stepCount: U32): (r: ClientActuatorInfo)
    ensures r.index == index && r.descriptor == descriptor
    ensures r.actuatorType == actuatorType && r.stepCount == stepCount
  {
    ClientActuatorInfo(index, descriptor, actuatorType, stepCount)
  }

  /** The message list has no influence on the built actuator info. */
  lemma ClientActuatorInfoIgnoresMessages(
    index: U32, descriptor: string, actuatorType: ActuatorType,
    m1: seq<ButtplugDeviceMessageType>, m2: seq<ButtplugDeviceMessageType>, stepCount: U32)
    ensures NewClientActuatorInfo(index, descriptor, actuatorType, m1, stepCount)
         == NewClientActuatorInfo(index, descriptor, actuatorType, m2, stepCount)
  {
  }

  /** `DeviceMessageInfoV3::new`: every argument is stored unchanged. */
  function NewDeviceMessageInfoV3(
    deviceIndex: U32, deviceName: string, displayName: Option<string>,
    timingGap: Option<U32>, messages: ClientDeviceMessageAttributes): (r: DeviceMessageInfoV3)
    ensures r.deviceIndex == deviceIndex && r.deviceName == deviceName
    ensures r.deviceDisplayName == displayName && r.deviceMessageTimingGap == timingGap
    ensures r.deviceMessages == messages
  {
    DeviceMessageInfoV3(deviceIndex, deviceName, displayName, timingGap, messages)
  }

  /** `From<DeviceMessageInfoV3> for DeviceMessageInfoV2`: index and name are
      kept; the attributes go through the (external) V3-to-V2 conversion and
      display name and timing gap are dropped. */
  function InfoV3ToV2(info: DeviceMessageInfoV3, conv: AttributeConversions): (r: DeviceMessageInfoV2)
    ensures r.deviceIndex == info.deviceIndex && r.deviceName == info.deviceName
    ensures r.deviceMessages == conv.toV2(info.deviceMessages)
  {
    DeviceMessageInfoV2(info.deviceIndex, info.deviceName, conv.toV2(info.deviceMessages))
  }

  /** `From<DeviceMessageInfoV2> for DeviceMessageInfoV1`. */
  function InfoV2ToV1(info: DeviceMessageInfoV2, conv: AttributeConversions): (r: DeviceMessageInfoV1)
    ensures r.deviceIndex == info.deviceIndex && r.deviceName == info.deviceName
    ensures r.deviceMessages == conv.toV1(info.deviceMessages)
  {
    DeviceMessageInfoV1(info.deviceIndex, info.deviceName, conv.toV1(info.deviceMessages))
  }

  // ---------------------------------------------------------------------
  // Sorting message types by name (`Vec::sort` under the `Ord` of
  // `ButtplugDeviceMessageType`).

  /** The name order on message types is a strict total order. */
  lemma TypeLessIsStrictTotalOrder()
    ensures IsStrictTotalOrder(TypeLess)
  {
    forall a
      ensures !TypeLess(a, a)
    {
      TypeLessIrreflexive(a);
    }
    forall a, b
      ensures a == b || TypeLess(a, b) || TypeLess(b, a)
    {
      TypeLessConnected(a, b);
    }
    forall a, b, c | TypeLess(a, b) && TypeLess(b, c)
      ensures TypeLess(a, c)
    {
      TypeLessTransitive(a, b, c);
    }
  }

  /** What `device_messages.sort()` computes. */
  function SortTypes(s: seq<ButtplugDeviceMessageType>): (r: seq<ButtplugDeviceMessageType>)
    ensures SortedBy(TypeLess, r)
    ensures multiset(r) == multiset(s)
  {
    TypeLessIsStrictTotalOrder();
    SortByCorrect(TypeLess, s);
    SortBy(TypeLess, s)
  }

  // ---------------------------------------------------------------------
  // V1 to V0: the capability list.

  /** The four names involved, in name order. */
  lemma V0NameOrder()
    ensures TypeLess(FleshlightLaunchFW12Cmd, SingleMotorVibrateCmd)
    ensures TypeLess(SingleMotorVibrateCmd, StopDeviceCmd)
    ensures TypeLess(StopDeviceCmd, VorzeA10CycloneCmd)
  {
    var _ := Cmp(FleshlightLaunchFW12Cmd, SingleMotorVibrateCmd);
    var si, st := Name(SingleMotorVibrateCmd), Name(StopDeviceCmd);
    assert si[0] == st[0] && si[1] < st[1];
    assert LexLess(si[1..], st[1..]);
    var _ := Cmp(SingleMotorVibrateCmd, StopDeviceCmd);
    var _ := Cmp(StopDeviceCmd, VorzeA10CycloneCmd);
  }

  /** The reference V0 capability list: the three optional deprecated
      commands present in the V1 attributes, plus `StopDeviceCmd`, in name
      order with no repetitions. */
  function V0MessageList(attrs: ClientDeviceMessageAttributesV1): (r: seq<ButtplugDeviceMessageType>)
    ensures StrictlySortedBy(TypeLess, r)
    ensures 1 <= |r| <= 4
  {
    V0NameOrder();
    TypeLessIsStrictTotalOrder();
    StrictlySortedRun(TypeLess, FleshlightLaunchFW12Cmd, SingleMotorVibrateCmd, StopDeviceCmd, VorzeA10CycloneCmd,
      attrs.fleshlightLaunchFW12Cmd.Some?, attrs.singleMotorVibrateCmd.Some?, attrs.vorzeA10CycloneCmd.Some?);
    Maybe(attrs.fleshlightLaunchFW12Cmd.Some?, FleshlightLaunchFW12Cmd)
      + Maybe(attrs.singleMotorVibrateCmd.Some?, SingleMotorVibrateCmd)
      + [StopDeviceCmd]
      + Maybe(attrs.vorzeA10CycloneCmd.Some?, VorzeA10CycloneCmd)
  }

  /** The V0 list always offers `StopDeviceCmd`, offers each deprecated
      command exactly when its V1 attribute is present, and offers nothing
      else. */
  lemma V0MessageListMembers(attrs: ClientDeviceMessageAttributesV1, t: ButtplugDeviceMessageType)
    ensures t in V0MessageList(attrs) <==>
      || t == StopDeviceCmd
      || (t == SingleMotorVibrateCmd && attrs.singleMotorVibrateCmd.Some?)
      || (t == FleshlightLaunchFW12Cmd && attrs.fleshlightLaunchFW12Cmd.Some?)
      || (t == VorzeA10CycloneCmd && attrs.vorzeA10CycloneCmd.Some?)
  {
    var fl := Maybe(attrs.fleshlightLaunchFW12Cmd.Some?, FleshlightLaunchFW12Cmd);
    var smv := Maybe(attrs.singleMotorVibrateCmd.Some?, SingleMotorVibrateCmd);
    var vz := Maybe(attrs.vorzeA10CycloneCmd.Some?, VorzeA10CycloneCmd);
    assert V0MessageList(attrs) == fl + smv + [StopDeviceCmd] + vz;
    assert t in fl <==> t == FleshlightLaunchFW12Cmd && attrs.fleshlightLaunchFW12Cmd.Some?;
    assert t in smv <==> t == SingleMotorVibrateCmd && attrs.singleMotorVibrateCmd.Some?;
    assert t in vz <==> t == VorzeA10CycloneCmd && attrs.vorzeA10CycloneCmd.Some?;
  }

  /** The list the conversion pushes before sorting: `StopDeviceCmd`, then
      each deprecated command whose attribute is present. */
  function PushedMessageTypes(attrs: ClientDeviceMessageAttributesV1): seq<ButtplugDeviceMessageType>
  {
    [StopDeviceCmd]
      + Maybe(attrs.singleMotorVibrateCmd.Some?, SingleMotorVibrateCmd)
      + Maybe(attrs.fleshlightLaunchFW12Cmd.Some?, FleshlightLaunchFW12Cmd)
      + Maybe(attrs.vorzeA10CycloneCmd.Some?, VorzeA10CycloneCmd)
  }

  /** Sorting the pushed list gives the reference list. */
  lemma SortedPushedIsV0MessageList(attrs: ClientDeviceMessageAttributesV1)
    ensures SortTypes(PushedMessageTypes(attrs)) == V0MessageList(attrs)
  {
    var p := PushedMessageTypes(attrs);
    var v := V0MessageList(attrs);
    TypeLessIsStrictTotalOrder();
    StrictlySortedIsSorted(TypeLess, v);
    assert multiset(p) == multiset(v);
    SortedUnique(TypeLess, SortTypes(p), v);
  }

  /** `From<DeviceMessageInfoV1> for DeviceMessageInfoV0`: pushes the
      capabilities one by one, sorts them, and keeps index and name. */
  method InfoV1ToV0(info: DeviceMessageInfoV1) returns (r: DeviceMessageInfoV0)
    ensures r.deviceIndex == info.deviceIndex && r.deviceName == info.deviceName
    ensures r.deviceMessages == V0MessageList(info.deviceMessages)
  {
    var attrs := info.deviceMessages;
    var messages: seq<ButtplugDeviceMessageType> := [];
    messages := messages + [StopDeviceCmd];
    if attrs.singleMotorVibrateCmd.Some? {
      messages := messages + [SingleMotorVibrateCmd];
    }
    if attrs.fleshlightLaunchFW12Cmd.Some? {
      messages := messages + [FleshlightLaunchFW12Cmd];
    }
    if attrs.vorzeA10CycloneCmd.Some? {
      messages := messages + [VorzeA10CycloneCmd];
    }
    assert messages == PushedMessageTypes(attrs);
    messages := SortTypes(messages);
    SortedPushedIsV0MessageList(attrs);
    r := DeviceMessageInfoV0(info.deviceIndex, info.deviceName, messages);
  }

  /** The V1-to-V0 conversion as a value, for the compositions below. */
  function InfoV1ToV0Spec(info: DeviceMessageInfoV1): (r: DeviceMessageInfoV0)
    ensures r.deviceIndex == info.deviceIndex && r.deviceName == info.deviceName
    ensures r.deviceMessages == V0MessageList(info.deviceMessages)
  {
    DeviceMessageInfoV0(info.deviceIndex, info.deviceName, V0MessageList(info.deviceMessages))
  }
}
