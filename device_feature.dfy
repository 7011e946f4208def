/** A device's features as the server configuration describes them
    (`DeviceFeature`, declared in `core/message/device_feature.rs`, which is not
    part of this model). Only the parts the command manager reads appear. */
module DeviceFeatures {
  import opened Wrappers
  import opened DeviceMessageTypes
  import opened MessageAttributes

  datatype FeatureType =
    | UnknownFeature | VibrateFeature | RotateFeature | OscillateFeature | ConstrictFeature
    | InflateFeature | PositionFeature | BatteryFeature | RSSIFeature | ButtonFeature
    | PressureFeature | RawFeature

  /** `RangeInclusive<u32>` of hardware steps. */
  datatype StepRange = StepRange(start: U32, end: U32)

  datatype DeviceFeatureActuator = DeviceFeatureActuator(
    stepRange: Option<StepRange>,
    messages: set<ButtplugDeviceMessageType>)

  datatype DeviceFeature = DeviceFeature(featureType: FeatureType, actuator: Option<DeviceFeatureActuator>)

  /** `TryFrom<FeatureType> for ActuatorType`: the actuator feature types map to
      the actuator type of the same name, the others fail. */
  function ToActuatorType(t: FeatureType): (r: Option<ActuatorType>)
    ensures r.Some? <==> t !in {BatteryFeature, RSSIFeature, ButtonFeature, PressureFeature, RawFeature}
  {
    match t
    case UnknownFeature => Some(Unknown)
    case VibrateFeature => Some(Vibrate)
    case RotateFeature => Some(Rotate)
    case OscillateFeature => Some(Oscillate)
    case ConstrictFeature => Some(Constrict)
    case InflateFeature => Some(Inflate)
    case PositionFeature => Some(Position)
    case _ => None
  }

  /** The filter the command manager applies: the feature has an actuator
      whose message list names `t`. */
  predicate Supports(f: DeviceFeature, t: ButtplugDeviceMessageType)
  {
    f.actuator.Some? && t in f.actuator.value.messages
  }

  /** What the command manager unwraps for a feature that supports a scalar or
      rotate command: a step range (with start <= end, so that `end - start`
      does not underflow), and for scalar features an actuator type. */
  predicate WellFormedFeature(f: DeviceFeature)
  {
    (Supports(f, ScalarCmd) || Supports(f, RotateCmd) ==>
      f.actuator.value.stepRange.Some? &&
      f.actuator.value.stepRange.value.start <= f.actuator.value.stepRange.value.end) &&
    (Supports(f, ScalarCmd) ==> ToActuatorType(f.featureType).Some?)
  }

  /** Every feature well formed, and few enough features that a feature
      position fits the `u32` subcommand index. */
  predicate WellFormedDevice(features: seq<DeviceFeature>)
  {
    |features| <= U32Max && forall i :: 0 <= i < |features| ==> WellFormedFeature(features[i])
  }
}
