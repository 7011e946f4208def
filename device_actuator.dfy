/** The client-side actuator handle (`client/device_actuator.rs`): which
    commands a handle accepts and the command message it would send. The
    sending itself is not modelled: each operation returns the message or
    the error the handle reports before sending. */
module DeviceActuators {
  import opened Wrappers
  import opened Errors
  import MA = MessageAttributes
  import DC = DeviceCommands

  /** The kind of a client actuator handle: the seven actuator types, plus
      the two kinds made for rotate and linear commands. */
  datatype DeviceActuatorType =
    | Unknown | Vibrate | Rotate | Oscillate | Position | Inflate | Constrict
    | PositionWithDuration | RotateWithDirection

  /** The `Debug` text of a handle kind: its variant name. */
  function DebugName(t: DeviceActuatorType): string
  {
    match t
    case Unknown => "Unknown"
    case Vibrate => "Vibrate"
    case Rotate => "Rotate"
    case Oscillate => "Oscillate"
    case Position => "Position"
    case Inflate => "Inflate"
    case Constrict => "Constrict"
    case PositionWithDuration => "PositionWithDuration"
    case RotateWithDirection => "RotateWithDirection"
  }

  /** `Into<ActuatorType> for DeviceActuatorType`: the same-named type; the
      two command-specific kinds have none and become `Unknown`. */
  function IntoActuatorType(t: DeviceActuatorType): (r: MA.ActuatorType)
    ensures t == PositionWithDuration || t == RotateWithDirection ==> r == MA.Unknown
  {
    match t
    case Constrict => MA.Constrict
    case Inflate => MA.Inflate
    case Oscillate => MA.Oscillate
    case Position => MA.Position
    case Rotate => MA.Rotate
    case Unknown => MA.Unknown
    case Vibrate => MA.Vibrate
    case PositionWithDuration => MA.Unknown
    case RotateWithDirection => MA.Unknown
  }

  /** `From<ActuatorType> for DeviceActuatorType`: never one of the two
      command-specific kinds, and undone by `IntoActuatorType`. */
  function FromActuatorType(t: MA.ActuatorType): (r: DeviceActuatorType)
    ensures r != PositionWithDuration && r != RotateWithDirection
    ensures IntoActuatorType(r) == t
  {
    match t
    case Constrict => Constrict
    case Inflate => Inflate
    case Oscillate => Oscillate
    case Position => Position
    case Rotate => Rotate
    case Unknown => Unknown
    case Vibrate => Vibrate
  }

  /** The other direction: a handle kind that comes from an actuator type
      comes back from it. */
  lemma DeviceActuatorTypeRoundTrip(t: DeviceActuatorType)
    ensures t != PositionWithDuration && t != RotateWithDirection ==> FromActuatorType(IntoActuatorType(t)) == t
  {
  }

  /** A handle: the device it belongs to, its kind and its attributes. */
  datatype ButtplugDeviceActuator = ButtplugDeviceActuator(
    deviceIndex: U32,
    actuatorType: DeviceActuatorType,
    attributes: MA.ClientGenericDeviceMessageAttributes)

  /** A handle for a scalar-command feature, typed by the feature's own
      actuator type. */
  function FromScalarCmdAttributes(deviceIndex: U32, attrs: MA.ClientGenericDeviceMessageAttributes): (r: ButtplugDeviceActuator)
    ensures r.deviceIndex == deviceIndex && r.attributes == attrs
    ensures IntoActuatorType(r.actuatorType) == attrs.actuatorType
  {
    ButtplugDeviceActuator(deviceIndex, FromActuatorType(attrs.actuatorType), attrs)
  }

  /** A handle for a rotate-command feature. */
  function FromRotateCmdAttributes(deviceIndex: U32, attrs: MA.ClientGenericDeviceMessageAttributes): (r: ButtplugDeviceActuator)
    ensures r.deviceIndex == deviceIndex && r.attributes == attrs
    ensures r.actuatorType == RotateWithDirection
  {
    ButtplugDeviceActuator(deviceIndex, RotateWithDirection, attrs)
  }

  /** A handle for a linear-command feature. */
  function FromLinearCmdAttributes(deviceIndex: U32, attrs: MA.ClientGenericDeviceMessageAttributes): (r: ButtplugDeviceActuator)
    ensures r.deviceIndex == deviceIndex && r.attributes == attrs
    ensures r.actuatorType == PositionWithDuration
  {
    ButtplugDeviceActuator(deviceIndex, PositionWithDuration, attrs)
  }

  /** `from_client_device_message_attributes`: one handle per scalar, then
      per rotate, then per linear attribute, each group in attribute order. */
  method FromClientDeviceMessageAttributes(deviceIndex: U32, attrs: MA.ClientDeviceMessageAttributes)
    returns (r: seq<ButtplugDeviceActuator>)
    ensures
      var s, ro, l := MA.Entries(attrs.scalarCmd), MA.Entries(attrs.rotateCmd), MA.Entries(attrs.linearCmd);
      && |r| == |s| + |ro| + |l|
      && (forall i :: 0 <= i < |s| ==> r[i] == FromScalarCmdAttributes(deviceIndex, s[i]))
      && (forall i :: 0 <= i < |ro| ==> r[|s| + i] == FromRotateCmdAttributes(deviceIndex, ro[i]))
      && (forall i :: 0 <= i < |l| ==> r[|s| + |ro| + i] == FromLinearCmdAttributes(deviceIndex, l[i]))
  {
    var s, ro, l := MA.Entries(attrs.scalarCmd), MA.Entries(attrs.rotateCmd), MA.Entries(attrs.linearCmd);
    r := [];
    for i := 0 to |s|
      invariant |r| == i
      invariant forall k :: 0 <= k < i ==> r[k] == FromScalarCmdAttributes(deviceIndex, s[k])
    {
      r := r + [FromScalarCmdAttributes(deviceIndex, s[i])];
    }
    for i := 0 to |ro|
      invariant |r| == |s| + i
      invariant forall k :: 0 <= k < |s| ==> r[k] == FromScalarCmdAttributes(deviceIndex, s[k])
      invariant forall k :: 0 <= k < i ==> r[|s| + k] == FromRotateCmdAttributes(deviceIndex, ro[k])
    {
      r := r + [FromRotateCmdAttributes(deviceIndex, ro[i])];
    }
    for i := 0 to |l|
      invariant |r| == |s| + |ro| + i
      invariant forall k :: 0 <= k < |s| ==> r[k] == FromScalarCmdAttributes(deviceIndex, s[k])
      invariant forall k :: 0 <= k < |ro| ==> r[|s| + k] == FromRotateCmdAttributes(deviceIndex, ro[k])
      invariant forall k :: 0 <= k < i ==> r[|s| + |ro| + k] == FromLinearCmdAttributes(deviceIndex, l[k])
    {
      r := r + [FromLinearCmdAttributes(deviceIndex, l[i])];
    }
  }

  /** `can_scalar`: the handle kind is one of the six real actuator kinds. */
  predicate CanScalar(a: ButtplugDeviceActuator)
  {
    a.actuatorType in {Constrict, Inflate, Oscillate, Position, Rotate, Vibrate}
  }

  /** A handle can take a scalar command exactly when its kind comes from a
      known actuator type. */
  lemma CanScalarIffKnownActuatorType(a: ButtplugDeviceActuator)
    ensures CanScalar(a) <==> exists t :: t != MA.Unknown && FromActuatorType(t) == a.actuatorType
  {
    if CanScalar(a) {
      var t := IntoActuatorType(a.actuatorType);
      assert t != MA.Unknown && FromActuatorType(t) == a.actuatorType;
    }
  }

  /** What the handle builds for a value: one scalar subcommand for the
      handle's attribute index, typed by the handle. */
  function ScalarCommand(a: ButtplugDeviceActuator, scalar: real): DC.DeviceCommand
  {
    DC.ScalarCommand(DC.ScalarCmd(a.deviceIndex,
      [DC.ScalarSubcommand(a.attributes.index, scalar, IntoActuatorType(a.actuatorType))]))
  }

  /** `scalar`: the range check is disabled, so every value, in range or
      not, becomes a one-subcommand `ScalarCmd` carrying it unchanged. */
  function Scalar(a: ButtplugDeviceActuator, scalar: real): (r: Result<DC.DeviceCommand, ButtplugError>)
    ensures r.Success?
    ensures r.value.ScalarCommand? && r.value.scalarCmd.deviceIndex == a.deviceIndex
    ensures |r.value.scalarCmd.scalars| == 1
    ensures r.value.scalarCmd.scalars[0].index == a.attributes.index
    ensures r.value.scalarCmd.scalars[0].scalar == scalar
    ensures r.value.scalarCmd.scalars[0].actuatorType == IntoActuatorType(a.actuatorType)
  {
    Success(ScalarCommand(a, scalar))
  }

  function UnhandledText(text: string): ButtplugError
  {
    DeviceError(UnhandledCommand(Text(text)))
  }

  function OutOfRange(value: real): ButtplugError
  {
    DeviceError(UnhandledCommand(ValueOutOfRange(value)))
  }

  /** `send_scalar_if_supported`: only a vibrate handle sends; any other
      handle reports the requested kind as unsupported, whatever kind the
      handle itself is. */
  function SendScalarIfSupported(a: ButtplugDeviceActuator, t: DeviceActuatorType, scalar: real): (r: Result<DC.DeviceCommand, ButtplugError>)
    ensures r.Success? <==> a.actuatorType == Vibrate
    ensures r.Success? ==> r == Scalar(a, scalar)
    ensures r.Failure? ==> r.error == UnhandledText("Actuator does not support " + DebugName(t) + " command")
  {
    if a.actuatorType != Vibrate then
      Failure(UnhandledText("Actuator does not support " + DebugName(t) + " command"))
    else
      Scalar(a, scalar)
  }

  function VibrateCommand(a: ButtplugDeviceActuator, speed: real): Result<DC.DeviceCommand, ButtplugError>
  {
    SendScalarIfSupported(a, Vibrate, speed)
  }

  function RotateCommand(a: ButtplugDeviceActuator, speed: real): Result<DC.DeviceCommand, ButtplugError>
  {
    SendScalarIfSupported(a, Rotate, speed)
  }

  function OscillateCommand(a: ButtplugDeviceActuator, speed: real): Result<DC.DeviceCommand, ButtplugError>
  {
    SendScalarIfSupported(a, Oscillate, speed)
  }

  function PositionCommand(a: ButtplugDeviceActuator, position: real): Result<DC.DeviceCommand, ButtplugError>
  {
    SendScalarIfSupported(a, Position, position)
  }

  function InflateCommand(a: ButtplugDeviceActuator, level: real): Result<DC.DeviceCommand, ButtplugError>
  {
    SendScalarIfSupported(a, Inflate, level)
  }

  function ConstrictCommand(a: ButtplugDeviceActuator, level: real): Result<DC.DeviceCommand, ButtplugError>
  {
    SendScalarIfSupported(a, Constrict, level)
  }

  /** The six named scalar operations all go through the vibrate-only gate:
      a rotate handle cannot rotate, nor a constrict handle constrict; a
      vibrate handle sends every one of them as a scalar command of its own
      (vibrate) type. */
  lemma NamedScalarCommandsNeedVibrateHandle(a: ButtplugDeviceActuator, v: real)
    ensures VibrateCommand(a, v).Success? <==> a.actuatorType == Vibrate
    ensures RotateCommand(a, v).Success? <==> a.actuatorType == Vibrate
    ensures OscillateCommand(a, v).Success? <==> a.actuatorType == Vibrate
    ensures PositionCommand(a, v).Success? <==> a.actuatorType == Vibrate
    ensures InflateCommand(a, v).Success? <==> a.actuatorType == Vibrate
    ensures ConstrictCommand(a, v).Success? <==> a.actuatorType == Vibrate
    ensures a.actuatorType == Vibrate ==>
      RotateCommand(a, v).value.scalarCmd.scalars[0].actuatorType == MA.Vibrate
    ensures a.actuatorType == Rotate ==>
      RotateCommand(a, v) == Failure(UnhandledText("Actuator does not support Rotate command"))
  {
    assert "Actuator does not support " + DebugName(Rotate) + " command" == "Actuator does not support Rotate command";
  }

  const PositionWithDurationUnsupported: string := "Actuator does not support Position With Duration command"

  /** `position_with_duration`: a linear handle turns a position in [0, 1]
      into one vector subcommand with the given duration, which is not
      checked. Any other handle is refused first, then an out-of-range
      position. */
  function PositionWithDurationCommand(a: ButtplugDeviceActuator, position: real, duration: U32): (r: Result<DC.DeviceCommand, ButtplugError>)
    ensures r.Success? <==> a.actuatorType == PositionWithDuration && 0.0 <= position <= 1.0
    ensures a.actuatorType != PositionWithDuration ==> r == Failure(UnhandledText(PositionWithDurationUnsupported))
    ensures a.actuatorType == PositionWithDuration && !(0.0 <= position <= 1.0) ==> r == Failure(OutOfRange(position))
    ensures r.Success? ==> r.value == DC.LinearCommand(DC.LinearCmd(a.deviceIndex,
      [DC.VectorSubcommand(a.attributes.index, duration, position)]))
  {
    if a.actuatorType != PositionWithDuration then
      Failure(UnhandledText(PositionWithDurationUnsupported))
    else if position < 0.0 || position > 1.0 then
      Failure(OutOfRange(position))
    else
      Success(DC.LinearCommand(DC.LinearCmd(a.deviceIndex, [DC.VectorSubcommand(a.attributes.index, duration, position)])))
  }

  /** `rotate_with_direction`: the same two gates for a rotate handle (its
      refusal text also names Position With Duration), then one rotation
      subcommand with the speed and direction. */
  function RotateWithDirectionCommand(a: ButtplugDeviceActuator, speed: real, clockwise: bool): (r: Result<DC.DeviceCommand, ButtplugError>)
    ensures r.Success? <==> a.actuatorType == RotateWithDirection && 0.0 <= speed <= 1.0
    ensures a.actuatorType != RotateWithDirection ==> r == Failure(UnhandledText(PositionWithDurationUnsupported))
    ensures a.actuatorType == RotateWithDirection && !(0.0 <= speed <= 1.0) ==> r == Failure(OutOfRange(speed))
    ensures r.Success? ==> r.value == DC.RotateCommand(DC.RotateCmd(a.deviceIndex,
      [DC.RotationSubcommand(a.attributes.index, speed, clockwise)]))
  {
    if a.actuatorType != RotateWithDirection then
      Failure(UnhandledText(PositionWithDurationUnsupported))
    else if speed < 0.0 || speed > 1.0 then
      Failure(OutOfRange(speed))
    else
      Success(DC.RotateCommand(DC.RotateCmd(a.deviceIndex, [DC.RotationSubcommand(a.attributes.index, speed, clockwise)])))
  }

  /** Each handle built from a device's attributes accepts the commands of
      its group: scalar handles take scalar values (those of a known type
      through `can_scalar`), rotate handles take directed rotations and
      linear handles take positions with durations, and no handle takes the
      other groups' commands. */
  lemma HandlesAcceptTheirOwnCommands(deviceIndex: U32, attrs: MA.ClientGenericDeviceMessageAttributes, v: real, cw: bool, d: U32)
    ensures CanScalar(FromScalarCmdAttributes(deviceIndex, attrs)) <==> attrs.actuatorType != MA.Unknown
    ensures !CanScalar(FromRotateCmdAttributes(deviceIndex, attrs))
    ensures !CanScalar(FromLinearCmdAttributes(deviceIndex, attrs))
    ensures RotateWithDirectionCommand(FromRotateCmdAttributes(deviceIndex, attrs), v, cw).Success? <==> 0.0 <= v <= 1.0
    ensures PositionWithDurationCommand(FromLinearCmdAttributes(deviceIndex, attrs), v, d).Success? <==> 0.0 <= v <= 1.0
    ensures RotateWithDirectionCommand(FromScalarCmdAttributes(deviceIndex, attrs), v, cw).Failure?
    ensures PositionWithDurationCommand(FromScalarCmdAttributes(deviceIndex, attrs), v, d).Failure?
    ensures RotateWithDirectionCommand(FromLinearCmdAttributes(deviceIndex, attrs), v, cw).Failure?
    ensures PositionWithDurationCommand(FromRotateCmdAttributes(deviceIndex, attrs), v, d).Failure?
  {
  }
}
