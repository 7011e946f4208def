/** The client-side sensor handle (`client/device_sensor.rs`): which
    requests a handle accepts, the message it would send, and how it reads
    the reply. Sending is not modelled: the server's reply is a parameter. */
module DeviceSensors {
  import opened Wrappers
  import opened Errors
  import opened DeviceMessageTypes
  import MA = MessageAttributes
  import DC = DeviceCommands
  import SM = ServerMessages
  import SpecV3

  /** A sensor handle: the device, the sensor's attributes and whether it
      can be read or subscribed to. */
  datatype ButtplugDeviceSensor = ButtplugDeviceSensor(
    deviceIndex: U32,
    attributes: MA.SensorDeviceMessageAttributes,
    readable: bool,
    subscribable: bool)

  /** A handle for a sensor listed under `SensorReadCmd`: readable only. */
  function FromSensorReadAttributes(deviceIndex: U32, attrs: MA.SensorDeviceMessageAttributes): (r: ButtplugDeviceSensor)
    ensures r.deviceIndex == deviceIndex && r.attributes == attrs
    ensures r.readable && !r.subscribable
  {
    ButtplugDeviceSensor(deviceIndex, attrs, true, false)
  }

  /** A handle for a sensor listed under `SensorSubscribeCmd`: subscribable
      only. */
  function FromSensorSubscribeAttributes(deviceIndex: U32, attrs: MA.SensorDeviceMessageAttributes): (r: ButtplugDeviceSensor)
    ensures r.deviceIndex == deviceIndex && r.attributes == attrs
    ensures !r.readable && r.subscribable
  {
    ButtplugDeviceSensor(deviceIndex, attrs, false, true)
  }

  /** `from_sensor_attributes`: one handle per readable sensor, then one per
      subscribable sensor, each group in attribute order. A sensor listed
      under both gets two handles. */
  method FromSensorAttributes(deviceIndex: U32, attrs: MA.ClientDeviceMessageAttributes)
    returns (r: seq<ButtplugDeviceSensor>)
    ensures
      var rd, sb := MA.Entries(attrs.sensorReadCmd), MA.Entries(attrs.sensorSubscribeCmd);
      && |r| == |rd| + |sb|
      && (forall i :: 0 <= i < |rd| ==> r[i] == FromSensorReadAttributes(deviceIndex, rd[i]))
      && (forall i :: 0 <= i < |sb| ==> r[|rd| + i] == FromSensorSubscribeAttributes(deviceIndex, sb[i]))
  {
    var rd, sb := MA.Entries(attrs.sensorReadCmd), MA.Entries(attrs.sensorSubscribeCmd);
    r := [];
    for i := 0 to |rd|
      invariant |r| == i
      invariant forall k :: 0 <= k < i ==> r[k] == FromSensorReadAttributes(deviceIndex, rd[k])
    {
      r := r + [FromSensorReadAttributes(deviceIndex, rd[i])];
    }
    for i := 0 to |sb|
      invariant |r| == |rd| + i
      invariant forall k :: 0 <= k < |rd| ==> r[k] == FromSensorReadAttributes(deviceIndex, rd[k])
      invariant forall k :: 0 <= k < i ==> r[|rd| + k] == FromSensorSubscribeAttributes(deviceIndex, sb[k])
    {
      r := r + [FromSensorSubscribeAttributes(deviceIndex, sb[i])];
    }
  }

  function NotSupported(t: ButtplugDeviceMessageType): ButtplugError
  {
    DeviceError(MessageNotSupported(t))
  }

  /** `subscribe`: only a subscribable handle subscribes. */
  function Subscribe(s: ButtplugDeviceSensor, sensorIndex: U32, sensorType: MA.SensorType): (r: Result<DC.DeviceCommand, ButtplugError>)
    ensures r.Success? <==> s.subscribable
    ensures r.Failure? ==> r.error == NotSupported(SensorSubscribeCmd)
    ensures r.Success? ==> r.value == DC.SensorSubscribeCommand(DC.SensorSubscribeCmd(s.deviceIndex, sensorIndex, sensorType))
  {
    if !s.subscribable then Failure(NotSupported(SensorSubscribeCmd))
    else Success(DC.SensorSubscribeCommand(DC.SensorSubscribeCmd(s.deviceIndex, sensorIndex, sensorType)))
  }

  /** `unsubscribe`: the same gate, reported as the subscribe command being
      unsupported. */
  function Unsubscribe(s: ButtplugDeviceSensor, sensorIndex: U32, sensorType: MA.SensorType): (r: Result<DC.DeviceCommand, ButtplugError>)
    ensures r.Success? <==> s.subscribable
    ensures r.Failure? ==> r.error == NotSupported(SensorSubscribeCmd)
    ensures r.Success? ==> r.value == DC.SensorUnsubscribeCommand(DC.SensorUnsubscribeCmd(s.deviceIndex, sensorIndex, sensorType))
  {
    if !s.subscribable then Failure(NotSupported(SensorSubscribeCmd))
    else Success(DC.SensorUnsubscribeCommand(DC.SensorUnsubscribeCmd(s.deviceIndex, sensorIndex, sensorType)))
  }

  /** Subscribing and unsubscribing are allowed together or not at all, and
      on a handle built for reading neither is. */
  lemma SubscriptionGatesAgree(s: ButtplugDeviceSensor, i: U32, t: MA.SensorType, deviceIndex: U32, attrs: MA.SensorDeviceMessageAttributes)
    ensures Subscribe(s, i, t).Success? <==> Unsubscribe(s, i, t).Success?
    ensures Subscribe(FromSensorReadAttributes(deviceIndex, attrs), i, t).Failure?
    ensures Subscribe(FromSensorSubscribeAttributes(deviceIndex, attrs), i, t).Success?
  {
  }

  /** The request `read` sends: a `SensorReadCmd` for the handle's own
      sensor index and type, if the handle is readable. */
  function ReadRequest(s: ButtplugDeviceSensor): (r: Result<DC.DeviceCommand, ButtplugError>)
    ensures r.Success? <==> s.readable
    ensures r.Failure? ==> r.error == NotSupported(SensorReadCmd)
    ensures r.Success? ==> r.value == DC.SensorReadCommand(DC.SensorReadCmd(s.deviceIndex, s.attributes.index, s.attributes.sensorType))
  {
    if !s.readable then Failure(NotSupported(SensorReadCmd))
    else Success(DC.SensorReadCommand(DC.SensorReadCmd(s.deviceIndex, s.attributes.index, s.attributes.sensorType)))
  }

  /** The reply to a read, as the sender delivers it: a server message or
      the error of sending. `dataOf` is the reading's `data()` getter;
      `SensorReading` is not part of this model. */
  type Reply = Result<SpecV3.ButtplugSpecV3ServerMessage, ButtplugError>

  /** `read`: a refused request is the error; otherwise a sensor reading
      yields its data, a send error is passed on, and any other message is
      unexpected. */
  function Read(s: ButtplugDeviceSensor, reply: Reply, dataOf: SM.Opaque -> seq<int>): (r: Result<seq<int>, ButtplugError>)
    ensures !s.readable ==> r == Failure(NotSupported(SensorReadCmd))
    ensures s.readable && reply.Failure? ==> r == Failure(reply.error)
    ensures s.readable && reply.Success? && reply.value.SensorReading? ==>
      r == Success(dataOf(reply.value.sensorReading))
    ensures s.readable && reply.Success? && !reply.value.SensorReading? ==>
      r == Failure(MessageError(UnexpectedMessageType("SensorReading")))
  {
    match ReadRequest(s)
    case Failure(e) => Failure(e)
    case Success(_) =>
      match reply
      case Failure(e) => Failure(e)
      case Success(SensorReading(data)) => Success(dataOf(data))
      case Success(_) => Failure(MessageError(UnexpectedMessageType("SensorReading")))
  }

  /** What a reading request comes to when the first reading is looked at:
      an empty reading panics (`data[0]`), shown as None. */
  function FirstReading(res: Result<seq<int>, ButtplugError>): (r: Option<Result<int, ButtplugError>>)
    ensures r.None? <==> res.Success? && |res.value| == 0
    ensures res.Failure? ==> r == Some(Failure(res.error))
    ensures res.Success? && |res.value| > 0 ==> r == Some(Success(res.value[0]))
  {
    match res
    case Failure(e) => Some(Failure(e))
    case Success(data) => if |data| == 0 then None else Some(Success(data[0]))
  }

  /** `battery_level`: only a battery sensor answers, with its first reading
      divided by 100. */
  function BatteryLevel(s: ButtplugDeviceSensor, reply: Reply, dataOf: SM.Opaque -> seq<int>): (r: Option<Result<real, ButtplugError>>)
    ensures s.attributes.sensorType != MA.Battery ==>
      r == Some(Failure(DeviceError(UnhandledCommand(Text("Device sensor is not a Battery sensor")))))
    ensures s.attributes.sensorType == MA.Battery && Read(s, reply, dataOf).Failure? ==>
      r == Some(Failure(Read(s, reply, dataOf).error))
    ensures s.attributes.sensorType == MA.Battery && Read(s, reply, dataOf).Success? ==>
      var data := Read(s, reply, dataOf).value;
      (r.None? <==> |data| == 0) && (|data| > 0 ==> r == Some(Success(data[0] as real / 100.0)))
  {
    if s.attributes.sensorType != MA.Battery then
      Some(Failure(DeviceError(UnhandledCommand(Text("Device sensor is not a Battery sensor")))))
    else
      match FirstReading(Read(s, reply, dataOf))
      case None => None
      case Some(Failure(e)) => Some(Failure(e))
      case Some(Success(level)) => Some(Success(level as real / 100.0))
  }

  /** `rssi_level`: only an RSSI sensor answers, with its first reading
      unchanged. */
  function RssiLevel(s: ButtplugDeviceSensor, reply: Reply, dataOf: SM.Opaque -> seq<int>): (r: Option<Result<int, ButtplugError>>)
    ensures s.attributes.sensorType != MA.RSSI ==>
      r == Some(Failure(DeviceError(UnhandledCommand(Text("Device sensor is not a RSSI sensor")))))
    ensures s.attributes.sensorType == MA.RSSI && Read(s, reply, dataOf).Failure? ==>
      r == Some(Failure(Read(s, reply, dataOf).error))
    ensures s.attributes.sensorType == MA.RSSI && Read(s, reply, dataOf).Success? ==>
      var data := Read(s, reply, dataOf).value;
      (r.None? <==> |data| == 0) && (|data| > 0 ==> r == Some(Success(data[0])))
  {
    if s.attributes.sensorType != MA.RSSI then
      Some(Failure(DeviceError(UnhandledCommand(Text("Device sensor is not a RSSI sensor")))))
    else
      FirstReading(Read(s, reply, dataOf))
  }

  /** A battery level is a reading scaled to [0, 1] when the reading is a
      percentage, and a subscribe-only handle never gets as far as reading. */
  lemma BatteryLevelScale(s: ButtplugDeviceSensor, reply: Reply, dataOf: SM.Opaque -> seq<int>)
    requires s.attributes.sensorType == MA.Battery
    ensures !s.readable ==> BatteryLevel(s, reply, dataOf) == Some(Failure(NotSupported(SensorReadCmd)))
    ensures Read(s, reply, dataOf).Success? && |Read(s, reply, dataOf).value| > 0 &&
            0 <= Read(s, reply, dataOf).value[0] <= 100 ==>
      0.0 <= BatteryLevel(s, reply, dataOf).value.value <= 1.0
  {
  }
}
