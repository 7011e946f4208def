/** The attribute records the core reads. They are declared in
    `core/message/device_message_attributes.rs`, which is not part of this
    model: each record here carries the fields the core uses, under the
    source's names. */
module MessageAttributes {
  import opened Wrappers

  datatype ActuatorType = Unknown | Vibrate | Rotate | Oscillate | Constrict | Inflate | Position

  datatype SensorType = UnknownSensor | Battery | RSSI | Button | Pressure

  /** Hardware endpoints a protocol writes to; only `Tx` is used here. */
  datatype Endpoint = Tx | Rx | Command | Firmware | TxMode | TxVibrate

  /** An inclusive range of `i32` readings, `RangeInclusive<i32>`. */
  datatype SensorRange = SensorRange(start: int, end: int)

  /** Marker attributes of commands that take no parameters. */
  datatype NullAttributes = NullAttributes

  datatype ClientGenericDeviceMessageAttributes = ClientGenericDeviceMessageAttributes(
    index: U32,
    featureDescriptor: string,
    actuatorType: ActuatorType,
    stepCount: U32)

  datatype SensorDeviceMessageAttributes = SensorDeviceMessageAttributes(
    index: U32,
    featureDescriptor: string,
    sensorType: SensorType,
    sensorRange: seq<SensorRange>)

  /** Current-version (V3) device capabilities as a client sees them. */
  datatype ClientDeviceMessageAttributes = ClientDeviceMessageAttributes(
    scalarCmd: Option<seq<ClientGenericDeviceMessageAttributes>>,
    rotateCmd: Option<seq<ClientGenericDeviceMessageAttributes>>,
    linearCmd: Option<seq<ClientGenericDeviceMessageAttributes>>,
    sensorReadCmd: Option<seq<SensorDeviceMessageAttributes>>,
    sensorSubscribeCmd: Option<seq<SensorDeviceMessageAttributes>>)

  /** The entries of an optional attribute list; none when it is absent. */
  function Entries<T>(attrs: Option<seq<T>>): seq<T>
  {
    if attrs.Some? then attrs.value else []
  }

  /** Per-command attributes of message spec V2 and V1. */
  datatype GenericDeviceMessageAttributesV2 = GenericDeviceMessageAttributesV2(
    featureCount: U32,
    stepCount: seq<U32>)

  datatype ClientDeviceMessageAttributesV2 = ClientDeviceMessageAttributesV2(
    vibrateCmd: Option<GenericDeviceMessageAttributesV2>,
    rotateCmd: Option<GenericDeviceMessageAttributesV2>,
    linearCmd: Option<GenericDeviceMessageAttributesV2>,
    batteryLevelCmd: Option<NullAttributes>,
    rssiLevelCmd: Option<NullAttributes>)

  datatype ClientDeviceMessageAttributesV1 = ClientDeviceMessageAttributesV1(
    vibrateCmd: Option<GenericDeviceMessageAttributesV2>,
    rotateCmd: Option<GenericDeviceMessageAttributesV2>,
    linearCmd: Option<GenericDeviceMessageAttributesV2>,
    singleMotorVibrateCmd: Option<NullAttributes>,
    fleshlightLaunchFW12Cmd: Option<NullAttributes>,
    vorzeA10CycloneCmd: Option<NullAttributes>)

  /** The attribute conversions the core calls but that live outside it: the
      V3-to-V2 and V2-to-V1 `From` impls and `ClientDeviceMessageAttributes::finalize`.
      They are parameters of every member that uses them. */
  datatype AttributeConversions = AttributeConversions(
    toV2: ClientDeviceMessageAttributes -> ClientDeviceMessageAttributesV2,
    toV1: ClientDeviceMessageAttributesV2 -> ClientDeviceMessageAttributesV1,
    finalize: ClientDeviceMessageAttributes -> ClientDeviceMessageAttributes)
}
