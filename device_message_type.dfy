/** `ButtplugDeviceMessageType`, its name order, and the feature-message-type
    conversions of `core/message/mod.rs`. */
module DeviceMessageTypes {
  import opened Wrappers

  datatype ButtplugDeviceMessageType =
    | VibrateCmd
    | LinearCmd
    | RotateCmd
    | StopDeviceCmd
    | RawWriteCmd
    | RawReadCmd
    | RawSubscribeCmd
    | RawUnsubscribeCmd
    | BatteryLevelCmd
    | RSSILevelCmd
    | ScalarCmd
    | SensorReadCmd
    | SensorSubscribeCmd
    | SensorUnsubscribeCmd
    | SingleMotorVibrateCmd
    | FleshlightLaunchFW12Cmd
    | LovenseCmd
    | KiirooCmd
    | VorzeA10CycloneCmd

  /** The `Display` text of a message type: its variant name. */
  function Name(t: ButtplugDeviceMessageType): string
  {
    match t
    case VibrateCmd => "VibrateCmd"
    case LinearCmd => "LinearCmd"
    case RotateCmd => "RotateCmd"
    case StopDeviceCmd => "StopDeviceCmd"
    case RawWriteCmd => "RawWriteCmd"
    case RawReadCmd => "RawReadCmd"
    case RawSubscribeCmd => "RawSubscribeCmd"
    case RawUnsubscribeCmd => "RawUnsubscribeCmd"
    case BatteryLevelCmd => "BatteryLevelCmd"
    case RSSILevelCmd => "RSSILevelCmd"
    case ScalarCmd => "ScalarCmd"
    case SensorReadCmd => "SensorReadCmd"
    case SensorSubscribeCmd => "SensorSubscribeCmd"
    case SensorUnsubscribeCmd => "SensorUnsubscribeCmd"
    case SingleMotorVibrateCmd => "SingleMotorVibrateCmd"
    case FleshlightLaunchFW12Cmd => "FleshlightLaunchFW12Cmd"
    case LovenseCmd => "LovenseCmd"
    case KiirooCmd => "KiirooCmd"
    case VorzeA10CycloneCmd => "VorzeA10CycloneCmd"
  }

  /** Parses a variant name; the partner of `Name`. */
  function FromName(s: string): Option<ButtplugDeviceMessageType>
  {
    if s == "VibrateCmd" then Some(VibrateCmd)
    else if s == "LinearCmd" then Some(LinearCmd)
    else if s == "RotateCmd" then Some(RotateCmd)
    else if s == "StopDeviceCmd" then Some(StopDeviceCmd)
    else if s == "RawWriteCmd" then Some(RawWriteCmd)
    else if s == "RawReadCmd" then Some(RawReadCmd)
    else if s == "RawSubscribeCmd" then Some(RawSubscribeCmd)
    else if s == "RawUnsubscribeCmd" then Some(RawUnsubscribeCmd)
    else if s == "BatteryLevelCmd" then Some(BatteryLevelCmd)
    else if s == "RSSILevelCmd" then Some(RSSILevelCmd)
    else if s == "ScalarCmd" then Some(ScalarCmd)
    else if s == "SensorReadCmd" then Some(SensorReadCmd)
    else if s == "SensorSubscribeCmd" then Some(SensorSubscribeCmd)
    else if s == "SensorUnsubscribeCmd" then Some(SensorUnsubscribeCmd)
    else if s == "SingleMotorVibrateCmd" then Some(SingleMotorVibrateCmd)
    else if s == "FleshlightLaunchFW12Cmd" then Some(FleshlightLaunchFW12Cmd)
    else if s == "LovenseCmd" then Some(LovenseCmd)
    else if s == "KiirooCmd" then Some(KiirooCmd)
    else if s == "VorzeA10CycloneCmd" then Some(VorzeA10CycloneCmd)
    else None
  }

  /** Every name parses back to its type, so distinct types have distinct names. */
  lemma NameRoundTrip(t: ButtplugDeviceMessageType)
    ensures FromName(Name(t)) == Some(t)
  {
    match t
    case VibrateCmd => assert Name(t) == "VibrateCmd";
    case LinearCmd => assert Name(t) == "LinearCmd";
    case RotateCmd => assert Name(t) == "RotateCmd";
    case StopDeviceCmd => assert Name(t) == "StopDeviceCmd";
    case RawWriteCmd => assert Name(t) == "RawWriteCmd";
    case RawReadCmd => assert Name(t) == "RawReadCmd";
    case RawSubscribeCmd => assert Name(t) == "RawSubscribeCmd";
    case RawUnsubscribeCmd => assert Name(t) == "RawUnsubscribeCmd";
    case BatteryLevelCmd => assert Name(t) == "BatteryLevelCmd";
    case RSSILevelCmd => assert Name(t) == "RSSILevelCmd";
    case ScalarCmd => assert Name(t) == "ScalarCmd";
    case SensorReadCmd => assert Name(t) == "SensorReadCmd";
    case SensorSubscribeCmd => assert Name(t) == "SensorSubscribeCmd";
    case SensorUnsubscribeCmd => assert Name(t) == "SensorUnsubscribeCmd";
    case SingleMotorVibrateCmd => assert Name(t) == "SingleMotorVibrateCmd";
    case FleshlightLaunchFW12Cmd => assert Name(t) == "FleshlightLaunchFW12Cmd";
    case LovenseCmd => assert Name(t) == "LovenseCmd";
    case KiirooCmd => assert Name(t) == "KiirooCmd";
    case VorzeA10CycloneCmd => assert Name(t) == "VorzeA10CycloneCmd";
  }

  lemma NameInjective(a: ButtplugDeviceMessageType, b: ButtplugDeviceMessageType)
    ensures Name(a) == Name(b) ==> a == b
  {
    NameRoundTrip(a);
    NameRoundTrip(b);
  }

  /** Strict lexicographic order on strings, character by character, as Rust's
      `String::cmp` orders these ASCII names. */
  predicate LexLess(s: string, t: string)
  {
    if |s| == 0 then |t| > 0
    else if |t| == 0 then false
    else s[0] < t[0] || (s[0] == t[0] && LexLess(s[1..], t[1..]))
  }

  lemma {:induction false} LexLessIrreflexive(s: string)
    ensures !LexLess(s, s)
  {
    if |s| > 0 {
      LexLessIrreflexive(s[1..]);
    }
  }

  lemma {:induction false} LexLessAsymmetric(s: string, t: string)
    ensures LexLess(s, t) ==> !LexLess(t, s)
  {
    if |s| > 0 && |t| > 0 && s[0] == t[0] {
      LexLessAsymmetric(s[1..], t[1..]);
    }
  }

  lemma {:induction false} LexLessTransitive(s: string, t: string, u: string)
    requires LexLess(s, t) && LexLess(t, u)
    ensures LexLess(s, u)
  {
    if |s| > 0 && |t| > 0 && |u| > 0 && s[0] == t[0] && t[0] == u[0] {
      LexLessTransitive(s[1..], t[1..], u[1..]);
    }
  }

  lemma {:induction false} LexLessConnected(s: string, t: string)
    ensures s == t || LexLess(s, t) || LexLess(t, s)
  {
    if |s| > 0 && |t| > 0 && s[0] == t[0] {
      LexLessConnected(s[1..], t[1..]);
      if s[1..] == t[1..] {
        assert s == [s[0]] + s[1..] && t == [t[0]] + t[1..];
      }
    }
  }

  datatype Ordering = Less | Equal | Greater

  /** `Ord::cmp` for message types: compare their names. */
  function Cmp(a: ButtplugDeviceMessageType, b: ButtplugDeviceMessageType): (o: Ordering)
    ensures o == Equal <==> a == b
    ensures o == Less <==> LexLess(Name(a), Name(b))
    ensures o == Greater <==> LexLess(Name(b), Name(a))
  {
    LexLessIrreflexive(Name(a));
    LexLessAsymmetric(Name(a), Name(b));
    LexLessConnected(Name(a), Name(b));
    NameInjective(a, b);
    if LexLess(Name(a), Name(b)) then Less
    else if LexLess(Name(b), Name(a)) then Greater
    else Equal
  }

  predicate TypeLess(a: ButtplugDeviceMessageType, b: ButtplugDeviceMessageType)
  {
    Cmp(a, b) == Less
  }

  /** The name order is a strict total order that agrees with equality. */
  lemma TypeLessIrreflexive(a: ButtplugDeviceMessageType)
    ensures !TypeLess(a, a)
  {
    var _ := Cmp(a, a);
  }

  lemma TypeLessAsymmetric(a: ButtplugDeviceMessageType, b: ButtplugDeviceMessageType)
    ensures TypeLess(a, b) <==> Cmp(b, a) == Greater
  {
    var _ := Cmp(a, b);
    var _ := Cmp(b, a);
  }

  lemma TypeLessConnected(a: ButtplugDeviceMessageType, b: ButtplugDeviceMessageType)
    ensures a == b || TypeLess(a, b) || TypeLess(b, a)
  {
    var _ := Cmp(a, b);
    var _ := Cmp(b, a);
  }

  lemma TypeLessTransitive(a: ButtplugDeviceMessageType, b: ButtplugDeviceMessageType, c: ButtplugDeviceMessageType)
    requires TypeLess(a, b) && TypeLess(b, c)
    ensures TypeLess(a, c)
  {
    LexLessTransitive(Name(a), Name(b), Name(c));
    var _ := Cmp(a, c);
  }

  datatype ActuatorFeatureMessageType = ActuatorScalarCmd | ActuatorRotateCmd | ActuatorLinearCmd

  function ActuatorToDeviceType(v: ActuatorFeatureMessageType): (r: ButtplugDeviceMessageType)
    ensures r in {LinearCmd, RotateCmd, ScalarCmd}
  {
    match v
    case ActuatorLinearCmd => LinearCmd
    case ActuatorRotateCmd => RotateCmd
    case ActuatorScalarCmd => ScalarCmd
  }

  /** `TryFrom<ButtplugDeviceMessageType>`: the inverse of `ActuatorToDeviceType`
      on its image, failing everywhere else. */
  function ActuatorFromDeviceType(t: ButtplugDeviceMessageType): (r: Option<ActuatorFeatureMessageType>)
    ensures r.Some? <==> t in {LinearCmd, RotateCmd, ScalarCmd}
  {
    match t
    case LinearCmd => Some(ActuatorLinearCmd)
    case RotateCmd => Some(ActuatorRotateCmd)
    case ScalarCmd => Some(ActuatorScalarCmd)
    case _ => None
  }

  lemma ActuatorTypeRoundTrip(v: ActuatorFeatureMessageType, t: ButtplugDeviceMessageType)
    ensures ActuatorFromDeviceType(ActuatorToDeviceType(v)) == Some(v)
    ensures ActuatorFromDeviceType(t).Some? ==> ActuatorToDeviceType(ActuatorFromDeviceType(t).value) == t
  {
  }

  datatype SensorFeatureMessageType = SensorFeatureReadCmd | SensorFeatureSubscribeCmd

  function SensorToDeviceType(v: SensorFeatureMessageType): (r: ButtplugDeviceMessageType)
    ensures r in {SensorReadCmd, SensorSubscribeCmd}
  {
    match v
    case SensorFeatureReadCmd => SensorReadCmd
    case SensorFeatureSubscribeCmd => SensorSubscribeCmd
  }

  function SensorFromDeviceType(t: ButtplugDeviceMessageType): (r: Option<SensorFeatureMessageType>)
    ensures r.Some? <==> t in {SensorReadCmd, SensorSubscribeCmd}
  {
    match t
    case SensorReadCmd => Some(SensorFeatureReadCmd)
    case SensorSubscribeCmd => Some(SensorFeatureSubscribeCmd)
    case _ => None
  }

  lemma SensorTypeRoundTrip(v: SensorFeatureMessageType, t: ButtplugDeviceMessageType)
    ensures SensorFromDeviceType(SensorToDeviceType(v)) == Some(v)
    ensures SensorFromDeviceType(t).Some? ==> SensorToDeviceType(SensorFromDeviceType(t).value) == t
  {
  }

  datatype RawFeatureMessageType = RawFeatureReadCmd | RawFeatureWriteCmd | RawFeatureSubscribeCmd

  function RawToDeviceType(v: RawFeatureMessageType): (r: ButtplugDeviceMessageType)
    ensures r in {RawReadCmd, RawWriteCmd, RawSubscribeCmd}
  {
    match v
    case RawFeatureReadCmd => RawReadCmd
    case RawFeatureWriteCmd => RawWriteCmd
    case RawFeatureSubscribeCmd => RawSubscribeCmd
  }

  function RawFromDeviceType(t: ButtplugDeviceMessageType): (r: Option<RawFeatureMessageType>)
    ensures r.Some? <==> t in {RawReadCmd, RawWriteCmd, RawSubscribeCmd}
  {
    match t
    case RawReadCmd => Some(RawFeatureReadCmd)
    case RawWriteCmd => Some(RawFeatureWriteCmd)
    case RawSubscribeCmd => Some(RawFeatureSubscribeCmd)
    case _ => None
  }

  lemma RawTypeRoundTrip(v: RawFeatureMessageType, t: ButtplugDeviceMessageType)
    ensures RawFromDeviceType(RawToDeviceType(v)) == Some(v)
    ensures RawFromDeviceType(t).Some? ==> RawToDeviceType(RawFromDeviceType(t).value) == t
  {
  }
}
