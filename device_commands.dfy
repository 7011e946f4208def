/** The device command messages the core builds, from `core/message`'s
    `scalar_cmd.rs`, `rotate_cmd.rs`, `linear_cmd.rs` and `sensor_*_cmd.rs`
    (not part of this model). Message ids are assigned by the sender and are
    not part of these values. */
module DeviceCommands {
  import opened Wrappers
  import opened MessageAttributes

  datatype ScalarSubcommand = ScalarSubcommand(index: U32, scalar: real, actuatorType: ActuatorType)

  datatype ScalarCmd = ScalarCmd(deviceIndex: U32, scalars: seq<ScalarSubcommand>)

  datatype RotationSubcommand = RotationSubcommand(index: U32, speed: real, clockwise: bool)

  datatype RotateCmd = RotateCmd(deviceIndex: U32, rotations: seq<RotationSubcommand>)

  datatype VectorSubcommand = VectorSubcommand(index: U32, duration: U32, position: real)

  datatype LinearCmd = LinearCmd(deviceIndex: U32, vectors: seq<VectorSubcommand>)

  datatype SensorReadCmd = SensorReadCmd(deviceIndex: U32, sensorIndex: U32, sensorType: SensorType)

  datatype SensorSubscribeCmd = SensorSubscribeCmd(deviceIndex: U32, sensorIndex: U32, sensorType: SensorType)

  datatype SensorUnsubscribeCmd = SensorUnsubscribeCmd(deviceIndex: U32, sensorIndex: U32, sensorType: SensorType)

  /** `ButtplugDeviceCommandMessageUnion`, restricted to the variants the core builds. */
  datatype DeviceCommand =
    | ScalarCommand(scalarCmd: ScalarCmd)
    | RotateCommand(rotateCmd: RotateCmd)
    | LinearCommand(linearCmd: LinearCmd)
    | SensorReadCommand(sensorReadCmd: SensorReadCmd)
    | SensorSubscribeCommand(sensorSubscribeCmd: SensorSubscribeCmd)
    | SensorUnsubscribeCommand(sensorUnsubscribeCmd: SensorUnsubscribeCmd)
}
