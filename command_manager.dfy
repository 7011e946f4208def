/** The server-side `GenericCommandManager` of
    `server/device/protocol/generic_command_manager.rs`.

    The manager is built once per device from its ordered feature list. It keeps
    one cache cell pair (`CommandCache`: a `u32` step value and a clockwise flag)
    per feature, and two "already sent" flags. It turns client scalar and rotation
    subcommands (values nominally in 0..1) into hardware step values, suppresses
    values that did not change against the cache, and backfills every slot in
    `match_all` mode.

    Each update is specified by a pure function over the cache contents
    (`UpdateScalarSpec`, `UpdateRotationSpec`), built from one step per subcommand
    (`ScalarStep`, `RotationStep`) folded left to right (`ScalarPass`,
    `RotationPass`). The class methods are proved equal to those functions, and
    the lemmas in `CommandManagerProofs` state what the functions promise. */
module CommandManager {
  import opened Wrappers
  import MT = DeviceMessageTypes
  import opened MessageAttributes
  import opened DeviceFeatures
  import opened DeviceCommands
  import opened Errors

  /* ---------- the filtered feature lists ---------- */

  /** Positions in `features` of the features that support message type `t`, in
      feature order: the `scalar_features` / `rotate_features` filter. Position
      `k` of this list is the subcommand index `k` of a command of type `t`. */
  function CapableIndices(features: seq<DeviceFeature>, t: MT.ButtplugDeviceMessageType): (r: seq<nat>)
    ensures |r| <= |features|
    ensures forall k :: 0 <= k < |r| ==> r[k] < |features| && Supports(features[r[k]], t)
  {
    if |features| == 0 then []
    else
      var prefix := CapableIndices(features[..|features| - 1], t);
      if Supports(features[|features| - 1], t) then prefix + [|features| - 1] else prefix
  }

  /** The filter keeps feature order, so positions are strictly increasing and
      no feature occupies two slots. */
  predicate StrictlyIncreasing(s: seq<nat>)
  {
    forall k, l :: 0 <= k < l < |s| ==> s[k] < s[l]
  }

  lemma {:induction false} CapableIndicesIncreasing(features: seq<DeviceFeature>, t: MT.ButtplugDeviceMessageType)
    ensures StrictlyIncreasing(CapableIndices(features, t))
  {
    if |features| > 0 {
      var init := features[..|features| - 1];
      CapableIndicesIncreasing(init, t);
      var prefix := CapableIndices(init, t);
      var r := CapableIndices(features, t);
      assert r == prefix || r == prefix + [|features| - 1];
      forall k, l | 0 <= k < l < |r|
        ensures r[k] < r[l]
      {
        if l < |prefix| {
          assert r[k] == prefix[k] && r[l] == prefix[l];
        } else {
          assert r[k] == prefix[k] && prefix[k] < |init|;
          assert r[l] == |init|;
        }
      }
    }
  }

  /** The filter drops no feature that supports `t`. */
  lemma {:induction false} CapableIndicesComplete(features: seq<DeviceFeature>, t: MT.ButtplugDeviceMessageType)
    ensures forall i :: 0 <= i < |features| && Supports(features[i], t) ==> i in CapableIndices(features, t)
  {
    if |features| > 0 {
      var init := features[..|features| - 1];
      CapableIndicesComplete(init, t);
      forall i | 0 <= i < |features| - 1 && Supports(features[i], t)
        ensures i in CapableIndices(features, t)
      {
        assert features[i] == init[i];
      }
    }
  }

  function ScalarSlots(features: seq<DeviceFeature>): seq<nat>
  {
    CapableIndices(features, MT.ScalarCmd)
  }

  function RotateSlots(features: seq<DeviceFeature>): seq<nat>
  {
    CapableIndices(features, MT.RotateCmd)
  }

  /** The step range a well-formed scalar or rotate feature unwraps. */
  function RangeOf(f: DeviceFeature): StepRange
    requires WellFormedFeature(f) && (Supports(f, MT.ScalarCmd) || Supports(f, MT.RotateCmd))
  {
    f.actuator.value.stepRange.value
  }

  /** The actuator type a well-formed scalar feature reports (`feature_type().try_into().unwrap()`). */
  function ScalarTypeOf(f: DeviceFeature): ActuatorType
    requires WellFormedFeature(f) && Supports(f, MT.ScalarCmd)
  {
    ToActuatorType(f.featureType).value
  }

  /* ---------- scaling a 0..1 value to hardware steps ---------- */

  /** The least integer not below `x` (`f64::ceil`). */
  function Ceil(x: real): (c: int)
    ensures x <= c as real < x + 1.0
  {
    -((-x).Floor)
  }

  /** `f as u32` for an integral float: saturates at both ends. */
  function SaturateU32(x: int): (r: U32)
    ensures 0 <= x <= U32Max ==> r == x
    ensures x > U32Max ==> r == U32Max
    ensures x < 0 ==> r == 0
  {
    if x < 0 then 0 else if x > U32Max then U32Max else x
  }

  /** Threshold below which a scaled value is sent as 0. */
  const StepFloor: real := 0.0001

  /** `value * (end - start)`: how far into the range a value reaches. */
  function Modifier(value: real, range: StepRange): real
  {
    value * (range.end - range.start) as real
  }

  /** The step value for `value` on `range`: 0 when the modifier is below the
      floor, otherwise `ceil(modifier + start)`, saturated to `u32`. */
  function StepValue(value: real, range: StepRange): (v: U32)
    requires range.start <= range.end
    ensures Modifier(value, range) < StepFloor ==> v == 0
    ensures Modifier(value, range) >= StepFloor ==> 1 <= v
    ensures Modifier(value, range) >= StepFloor && Modifier(value, range) + range.start as real <= U32Max as real ==>
      (v - 1) as real < Modifier(value, range) + range.start as real <= v as real
    ensures Modifier(value, range) >= StepFloor && Modifier(value, range) + range.start as real > U32Max as real ==>
      v == U32Max
  {
    var modifier := Modifier(value, range);
    if modifier < StepFloor then 0 else SaturateU32(Ceil(modifier + range.start as real))
  }

  /* ---------- the error values ---------- */

  const EmptyScalarText: string := "ScalarCmd has 0 commands, will not do anything."
  const EmptyRotateText: string := "RotateCmd has 0 commands, will not do anything."

  function EmptyScalarError(): ButtplugError
  {
    DeviceError(ProtocolRequirementError(EmptyScalarText))
  }

  function EmptyRotateError(): ButtplugError
  {
    DeviceError(ProtocolRequirementError(EmptyRotateText))
  }

  /** "ScalarCmd has {commands} commands, device has {features} features." */
  function ScalarIndexError(commands: nat, features: nat): ButtplugError
  {
    DeviceError(ProtocolRequirementError(
      "ScalarCmd has " + Decimal(commands) + " commands, device has " + Decimal(features) + " features."))
  }

  /** "RotateCmd has {commands} commands, device has {rotators} rotators." */
  function RotateIndexError(commands: nat, rotators: nat): ButtplugError
  {
    DeviceError(ProtocolRequirementError(
      "RotateCmd has " + Decimal(commands) + " commands, device has " + Decimal(rotators) + " rotators."))
  }

  /* ---------- the index check ---------- */

  /** Position of the first element whose index is at least `n`, if any: where the
      loop over the subcommands returns its index error. */
  function FirstOutOfRange<T>(subs: seq<T>, indexOf: T -> U32, n: nat): (r: Option<nat>)
    ensures r.None? <==> forall i :: 0 <= i < |subs| ==> indexOf(subs[i]) < n
    ensures r.Some? ==>
      r.value < |subs| && indexOf(subs[r.value]) >= n && forall i :: 0 <= i < r.value ==> indexOf(subs[i]) < n
  {
    if |subs| == 0 then None
    else if indexOf(subs[0]) >= n then Some(0)
    else match FirstOutOfRange(subs[1..], indexOf, n)
      case None => None
      case Some(k) => Some(k + 1)
  }

  lemma FirstOutOfRangeAt<T>(subs: seq<T>, indexOf: T -> U32, n: nat, j: nat)
    requires j < |subs| && indexOf(subs[j]) >= n
    requires forall i :: 0 <= i < j ==> indexOf(subs[i]) < n
    ensures FirstOutOfRange(subs, indexOf, n) == Some(j)
  {
  }

  function ScalarIndex(s: ScalarSubcommand): U32 { s.index }

  function RotationIndex(s: RotationSubcommand): U32 { s.index }

  predicate AllNone<T>(s: seq<Option<T>>)
  {
    forall i :: 0 <= i < |s| ==> s[i].None?
  }

  /* ---------- update_scalar, as a function of the cache ---------- */

  /** What `update_scalar` reads and writes: the `scalar` cell of every feature,
      the `sent_scalar` flag, and the result vector it builds. */
  datatype ScalarState = ScalarState(cache: seq<U32>, sent: bool, result: seq<Option<(ActuatorType, U32)>>)

  predicate ScalarFits(features: seq<DeviceFeature>, st: ScalarState)
  {
    |st.cache| == |features| && |st.result| == |ScalarSlots(features)|
  }

  /** One pass of the loop body for subcommand `sub`: the slot is written, with
      the cache cell of its feature, when nothing was sent yet or the value
      differs from the cell; the sent flag is set either way. Afterwards the
      feature's cell holds the step value whichever branch ran, no other cell
      or slot changes, and an unchanged value after a send changes nothing. */
  function ScalarStep(features: seq<DeviceFeature>, st: ScalarState, sub: ScalarSubcommand): (st': ScalarState)
    requires WellFormedDevice(features) && ScalarFits(features, st)
    requires sub.index < |ScalarSlots(features)|
    ensures ScalarFits(features, st') && st'.sent
    ensures var f := ScalarSlots(features)[sub.index];
      var v := StepValue(sub.scalar, RangeOf(features[f]));
      && st'.cache == st.cache[f := v]
      && (forall i :: 0 <= i < |st.result| && i != sub.index as int ==> st'.result[i] == st.result[i])
      && (!st.sent || v != st.cache[f] ==> st'.result[sub.index] == Some((ScalarTypeOf(features[f]), v)))
      && (st.sent && v == st.cache[f] ==> st' == st)
  {
    var f := ScalarSlots(features)[sub.index];
    var v := StepValue(sub.scalar, RangeOf(features[f]));
    if !st.sent || v != st.cache[f] then
      ScalarState(st.cache[f := v], true, st.result[sub.index := Some((ScalarTypeOf(features[f]), v))])
    else
      st.(sent := true)
  }

  /** The loop over the first `j` subcommands, whose indices are all in range. */
  function ScalarPass(features: seq<DeviceFeature>, st: ScalarState, subs: seq<ScalarSubcommand>, j: nat)
    : (st': ScalarState)
    requires WellFormedDevice(features) && ScalarFits(features, st)
    requires j <= |subs| && forall i :: 0 <= i < j ==> subs[i].index < |ScalarSlots(features)|
    ensures ScalarFits(features, st')
    ensures st'.sent == (st.sent || j > 0)
  {
    if j == 0 then st
    else ScalarStep(features, ScalarPass(features, st, subs, j - 1), subs[j - 1])
  }

  /** Under `match_all`, every empty slot takes its feature's cached value. */
  function BackfillScalar(features: seq<DeviceFeature>, result: seq<Option<(ActuatorType, U32)>>, cache: seq<U32>)
    : (r: seq<Option<(ActuatorType, U32)>>)
    requires WellFormedDevice(features) && |cache| == |features| && |result| == |ScalarSlots(features)|
    ensures |r| == |result|
    ensures forall i :: 0 <= i < |r| ==> r[i].Some?
    ensures forall i :: 0 <= i < |r| && result[i].Some? ==> r[i] == result[i]
    ensures forall i :: 0 <= i < |r| && result[i].None? ==>
      r[i] == Some((ScalarTypeOf(features[ScalarSlots(features)[i]]), cache[ScalarSlots(features)[i]]))
  {
    var slots := ScalarSlots(features);
    seq(|result|, i requires 0 <= i < |result| =>
      if result[i].None? then Some((ScalarTypeOf(features[slots[i]]), cache[slots[i]])) else result[i])
  }

  /** The response after the loop: empty when no slot changed, backfilled under
      `match_all`, the slots as they are otherwise. */
  function FinishScalar(features: seq<DeviceFeature>, st: ScalarState, matchAll: bool)
    : (r: seq<Option<(ActuatorType, U32)>>)
    requires WellFormedDevice(features) && ScalarFits(features, st)
    ensures AllNone(st.result) ==> r == []
    ensures !AllNone(st.result) ==>
      |r| == |st.result| && forall i :: 0 <= i < |r| && st.result[i].Some? ==> r[i] == st.result[i]
    ensures !AllNone(st.result) && matchAll ==> forall i :: 0 <= i < |r| ==> r[i].Some?
    ensures !matchAll ==> r == [] || r == st.result
  {
    if AllNone(st.result) then []
    else if matchAll then BackfillScalar(features, st.result, st.cache)
    else st.result
  }

  datatype ScalarOutcome = ScalarOutcome(
    response: Result<seq<Option<(ActuatorType, U32)>>, ButtplugError>,
    cache: seq<U32>,
    sent: bool)

  /** `update_scalar` as a function of the scalar cells and the sent flag before
      the call: the response, and the cells and flag after it. It succeeds
      exactly when there is a subcommand and every index names a scalar
      feature; an empty command changes nothing; a successful one marks the
      device as sent. */
  function UpdateScalarSpec(features: seq<DeviceFeature>, cache: seq<U32>, sent: bool,
                            subs: seq<ScalarSubcommand>, matchAll: bool): (o: ScalarOutcome)
    requires WellFormedDevice(features) && |cache| == |features|
    ensures o.response.Success? <==>
      |subs| > 0 && forall i :: 0 <= i < |subs| ==> subs[i].index < |ScalarSlots(features)|
    ensures |o.cache| == |features|
    ensures |subs| == 0 ==> o == ScalarOutcome(Failure(EmptyScalarError()), cache, sent)
    ensures |subs| > 0 && o.response.Failure? ==>
      o.response.error == ScalarIndexError(|subs|, |ScalarSlots(features)|)
    ensures o.response.Success? ==> o.sent
  {
    var slots := ScalarSlots(features);
    var init := ScalarState(cache, sent, seq(|slots|, _ => None));
    if |subs| == 0 then
      ScalarOutcome(Failure(EmptyScalarError()), cache, sent)
    else
      match FirstOutOfRange(subs, ScalarIndex, |slots|)
      case Some(k) =>
        var st := ScalarPass(features, init, subs, k);
        ScalarOutcome(Failure(ScalarIndexError(|subs|, |slots|)), st.cache, st.sent)
      case None =>
        var st := ScalarPass(features, init, subs, |subs|);
        ScalarOutcome(Success(FinishScalar(features, st, matchAll)), st.cache, st.sent)
  }

  /* ---------- update_rotation, as a function of the cache ---------- */

  /** What `update_rotation` reads and writes: the `scalar` and
      `rotation_clockwise` cells of every feature, the `sent_rotation` flag, and
      the result vector. */
  datatype RotationState = RotationState(
    cache: seq<U32>, clockwise: seq<bool>, sent: bool, result: seq<Option<(U32, bool)>>)

  predicate RotationFits(features: seq<DeviceFeature>, st: RotationState)
  {
    |st.cache| == |features| && |st.clockwise| == |features| && |st.result| == |RotateSlots(features)|
  }

  /** One pass of the loop body for `sub`. The step range comes from the
      `sub.index`-th rotator, but the cells compared and written are those of
      the `sub.index`-th feature of the whole device, as the code indexes
      `self.features[index]`. */
  function RotationStep(features: seq<DeviceFeature>, st: RotationState, sub: RotationSubcommand): (st': RotationState)
    requires WellFormedDevice(features) && RotationFits(features, st)
    requires sub.index < |RotateSlots(features)|
    ensures RotationFits(features, st') && st'.sent
    ensures var v := StepValue(sub.speed, RangeOf(features[RotateSlots(features)[sub.index]]));
      var cell := sub.index as nat;
      && st'.cache == st.cache[cell := v]
      && st'.clockwise == st.clockwise[cell := sub.clockwise]
      && (forall i :: 0 <= i < |st.result| && i != cell ==> st'.result[i] == st.result[i])
      && (!st.sent || v != st.cache[cell] || sub.clockwise != st.clockwise[cell] ==>
            st'.result[cell] == Some((v, sub.clockwise)))
      && (st.sent && v == st.cache[cell] && sub.clockwise == st.clockwise[cell] ==> st' == st)
  {
    var f := RotateSlots(features)[sub.index];
    var v := StepValue(sub.speed, RangeOf(features[f]));
    var cell := sub.index as nat;
    if !st.sent || v != st.cache[cell] || sub.clockwise != st.clockwise[cell] then
      RotationState(st.cache[cell := v], st.clockwise[cell := sub.clockwise], true,
                    st.result[sub.index := Some((v, sub.clockwise))])
    else
      st.(sent := true)
  }

  /** The loop over the first `j` subcommands, whose indices are all in range. */
  function RotationPass(features: seq<DeviceFeature>, st: RotationState, subs: seq<RotationSubcommand>, j: nat)
    : (st': RotationState)
    requires WellFormedDevice(features) && RotationFits(features, st)
    requires j <= |subs| && forall i :: 0 <= i < j ==> subs[i].index < |RotateSlots(features)|
    ensures RotationFits(features, st')
    ensures st'.sent == (st.sent || j > 0)
  {
    if j == 0 then st
    else RotationStep(features, RotationPass(features, st, subs, j - 1), subs[j - 1])
  }

  /** Under `match_all`, every empty slot takes the cells of its rotator. */
  function BackfillRotation(features: seq<DeviceFeature>, result: seq<Option<(U32, bool)>>,
                            cache: seq<U32>, clockwise: seq<bool>): (r: seq<Option<(U32, bool)>>)
    requires |cache| == |features| && |clockwise| == |features| && |result| == |RotateSlots(features)|
    ensures |r| == |result|
    ensures forall i :: 0 <= i < |r| ==> r[i].Some?
    ensures forall i :: 0 <= i < |r| && result[i].Some? ==> r[i] == result[i]
    ensures forall i :: 0 <= i < |r| && result[i].None? ==>
      r[i] == Some((cache[RotateSlots(features)[i]], clockwise[RotateSlots(features)[i]]))
  {
    var slots := RotateSlots(features);
    seq(|result|, i requires 0 <= i < |result| =>
      if result[i].None? then Some((cache[slots[i]], clockwise[slots[i]])) else result[i])
  }

  /** The response after the loop: backfilled under `match_all` when some slot
      changed, the slots as they are otherwise (an all-None vector is returned
      as it is, not emptied). */
  function FinishRotation(features: seq<DeviceFeature>, st: RotationState, matchAll: bool)
    : (r: seq<Option<(U32, bool)>>)
    requires RotationFits(features, st)
    ensures |r| == |st.result|
    ensures forall i :: 0 <= i < |r| && st.result[i].Some? ==> r[i] == st.result[i]
    ensures matchAll && !AllNone(st.result) ==> forall i :: 0 <= i < |r| ==> r[i].Some?
    ensures !matchAll || AllNone(st.result) ==> r == st.result
  {
    if matchAll && !AllNone(st.result) then BackfillRotation(features, st.result, st.cache, st.clockwise)
    else st.result
  }

  datatype RotationOutcome = RotationOutcome(
    response: Result<seq<Option<(U32, bool)>>, ButtplugError>,
    cache: seq<U32>,
    clockwise: seq<bool>,
    sent: bool)

  /** `update_rotation` as a function of the cells and the sent flag before
      the call. It succeeds exactly when there is a subcommand and every index
      names a rotator; an empty command changes nothing; a successful one
      marks the device as sent. */
  function UpdateRotationSpec(features: seq<DeviceFeature>, cache: seq<U32>, clockwise: seq<bool>, sent: bool,
                              subs: seq<RotationSubcommand>, matchAll: bool): (o: RotationOutcome)
    requires WellFormedDevice(features) && |cache| == |features| && |clockwise| == |features|
    ensures o.response.Success? <==>
      |subs| > 0 && forall i :: 0 <= i < |subs| ==> subs[i].index < |RotateSlots(features)|
    ensures |o.cache| == |features| && |o.clockwise| == |features|
    ensures |subs| == 0 ==> o == RotationOutcome(Failure(EmptyRotateError()), cache, clockwise, sent)
    ensures |subs| > 0 && o.response.Failure? ==>
      o.response.error == RotateIndexError(|subs|, |RotateSlots(features)|)
    ensures o.response.Success? ==> o.sent
  {
    var slots := RotateSlots(features);
    var init := RotationState(cache, clockwise, sent, seq(|slots|, _ => None));
    if |subs| == 0 then
      RotationOutcome(Failure(EmptyRotateError()), cache, clockwise, sent)
    else
      match FirstOutOfRange(subs, RotationIndex, |slots|)
      case Some(k) =>
        var st := RotationPass(features, init, subs, k);
        RotationOutcome(Failure(RotateIndexError(|subs|, |slots|)), st.cache, st.clockwise, st.sent)
      case None =>
        var st := RotationPass(features, init, subs, |subs|);
        RotationOutcome(Success(FinishRotation(features, st, matchAll)), st.cache, st.clockwise, st.sent)
  }

  /* ---------- the stop commands ---------- */

  /** The stop list of a device: a `ScalarCmd` for device 0 when it has scalar
      features, with one subcommand per scalar feature, re-indexed from 0 in
      feature order, at value 0.0 and with the feature's actuator type; then a
      `RotateCmd` for device 0 when it has rotators, one subcommand per rotator
      at speed 0.0, counter-clockwise. */
  predicate IsStopCommandList(features: seq<DeviceFeature>, cmds: seq<DeviceCommand>)
    requires WellFormedDevice(features)
  {
    var scalars := ScalarSlots(features);
    var rotators := RotateSlots(features);
    var hasScalar := |scalars| > 0;
    var hasRotate := |rotators| > 0;
    |cmds| == (if hasScalar then 1 else 0) + (if hasRotate then 1 else 0)
    && (hasScalar ==>
          cmds[0].ScalarCommand? && cmds[0].scalarCmd.deviceIndex == 0
          && |cmds[0].scalarCmd.scalars| == |scalars|
          && forall i :: 0 <= i < |scalars| ==>
               cmds[0].scalarCmd.scalars[i] == ScalarSubcommand(i, 0.0, ScalarTypeOf(features[scalars[i]])))
    && (hasRotate ==>
          cmds[|cmds| - 1].RotateCommand? && cmds[|cmds| - 1].rotateCmd.deviceIndex == 0
          && |cmds[|cmds| - 1].rotateCmd.rotations| == |rotators|
          && forall i :: 0 <= i < |rotators| ==>
               cmds[|cmds| - 1].rotateCmd.rotations[i] == RotationSubcommand(i, 0.0, false))
  }

  /** The stop list `new` precomputes, built as the source builds it: one pass
      over the features collecting scalar stops, one collecting rotate stops. */
  method BuildStopCommands(features: seq<DeviceFeature>) returns (cmds: seq<DeviceCommand>)
    requires WellFormedDevice(features)
    ensures IsStopCommandList(features, cmds)
  {
    cmds := [];
    var scalarStops: seq<ScalarSubcommand> := [];
    for i := 0 to |features|
      invariant |scalarStops| == |ScalarSlots(features[..i])|
      invariant forall k :: 0 <= k < |scalarStops| ==>
        scalarStops[k] == ScalarSubcommand(k, 0.0, ScalarTypeOf(features[ScalarSlots(features[..i])[k]]))
    {
      assert features[..i + 1][..i] == features[..i];
      if Supports(features[i], MT.ScalarCmd) {
        scalarStops := scalarStops + [ScalarSubcommand(|scalarStops|, 0.0, ScalarTypeOf(features[i]))];
      }
    }
    assert features[..|features|] == features;
    if |scalarStops| > 0 {
      cmds := cmds + [ScalarCommand(ScalarCmd(0, scalarStops))];
    }
    var rotateStops: seq<RotationSubcommand> := [];
    for i := 0 to |features|
      invariant |rotateStops| == |RotateSlots(features[..i])|
      invariant forall k :: 0 <= k < |rotateStops| ==> rotateStops[k] == RotationSubcommand(k, 0.0, false)
    {
      assert features[..i + 1][..i] == features[..i];
      if Supports(features[i], MT.RotateCmd) {
        rotateStops := rotateStops + [RotationSubcommand(|rotateStops|, 0.0, false)];
      }
    }
    if |rotateStops| > 0 {
      cmds := cmds + [RotateCommand(RotateCmd(0, rotateStops))];
    }
  }

  /* ---------- the manager ---------- */

  class GenericCommandManager {
    /** The device's features, fixed at construction. */
    const features: seq<DeviceFeature>
    /** `CommandCache::scalar` of each feature, by feature position. */
    const scalarCache: array<U32>
    /** `CommandCache::rotation_clockwise` of each feature, by feature position. */
    const clockwiseCache: array<bool>
    var sentScalar: bool
    var sentRotation: bool
    const stopCommands: seq<DeviceCommand>

    ghost predicate Valid()
      reads this
    {
      WellFormedDevice(features)
      && scalarCache.Length == |features| && clockwiseCache.Length == |features|
      && IsStopCommandList(features, stopCommands)
    }

    /** `GenericCommandManager::new`: zeroed caches, nothing sent, stop list built. */
    constructor (features: seq<DeviceFeature>)
      requires WellFormedDevice(features)
      ensures Valid()
      ensures this.features == features
      ensures scalarCache[..] == seq(|features|, _ => 0)
      ensures clockwiseCache[..] == seq(|features|, _ => false)
      ensures !sentScalar && !sentRotation
      ensures fresh(scalarCache) && fresh(clockwiseCache)
    {
      var stops := BuildStopCommands(features);
      this.features := features;
      scalarCache := new U32[|features|](_ => 0);
      clockwiseCache := new bool[|features|](_ => false);
      sentScalar := false;
      sentRotation := false;
      stopCommands := stops;
    }

    /** `update_scalar`: equal to `UpdateScalarSpec` on the cells and flag before
        the call, in response, cells and flag; the rotation flag and the
        clockwise cells are untouched. */
    method UpdateScalar(msg: ScalarCmd, matchAll: bool)
      returns (r: Result<seq<Option<(ActuatorType, U32)>>, ButtplugError>)
      requires Valid()
      modifies this, scalarCache
      ensures Valid()
      ensures var o := UpdateScalarSpec(features, old(scalarCache[..]), old(sentScalar), msg.scalars, matchAll);
        r == o.response && scalarCache[..] == o.cache && sentScalar == o.sent
      ensures sentRotation == old(sentRotation)
    {
      var subs := msg.scalars;
      if |subs| == 0 {
        return Failure(EmptyScalarError());
      }
      var slots := ScalarSlots(features);
      var result: seq<Option<(ActuatorType, U32)>> := seq(|slots|, _ => None);
      ghost var init := ScalarState(scalarCache[..], sentScalar, result);
      for j := 0 to |subs|
        invariant forall i :: 0 <= i < j ==> subs[i].index < |slots|
        invariant ScalarState(scalarCache[..], sentScalar, result) == ScalarPass(features, init, subs, j)
        invariant sentRotation == old(sentRotation)
      {
        var index := subs[j].index;
        if index >= |slots| {
          FirstOutOfRangeAt(subs, ScalarIndex, |slots|, j);
          return Failure(ScalarIndexError(|subs|, |slots|));
        }
        result := ApplyScalar(result, subs[j]);
      }
      ghost var st := ScalarState(scalarCache[..], sentScalar, result);
      assert FirstOutOfRange(subs, ScalarIndex, |slots|) == None;
      if AllNone(result) {
        result := [];
      } else if matchAll {
        result := BackfillScalarSlots(result);
      }
      assert result == FinishScalar(features, st, matchAll);
      return Success(result);
    }

    /** `update_rotation`: equal to `UpdateRotationSpec` on the cells and flag
        before the call; the scalar flag is untouched. */
    method UpdateRotation(msg: RotateCmd, matchAll: bool)
      returns (r: Result<seq<Option<(U32, bool)>>, ButtplugError>)
      requires Valid()
      modifies this, scalarCache, clockwiseCache
      ensures Valid()
      ensures var o := UpdateRotationSpec(features, old(scalarCache[..]), old(clockwiseCache[..]), old(sentRotation),
                                          msg.rotations, matchAll);
        r == o.response && scalarCache[..] == o.cache && clockwiseCache[..] == o.clockwise && sentRotation == o.sent
      ensures sentScalar == old(sentScalar)
    {
      var subs := msg.rotations;
      if |subs| == 0 {
        return Failure(EmptyRotateError());
      }
      var slots := RotateSlots(features);
      var result: seq<Option<(U32, bool)>> := seq(|slots|, _ => None);
      ghost var init := RotationState(scalarCache[..], clockwiseCache[..], sentRotation, result);
      for j := 0 to |subs|
        invariant forall i :: 0 <= i < j ==> subs[i].index < |slots|
        invariant RotationState(scalarCache[..], clockwiseCache[..], sentRotation, result)
          == RotationPass(features, init, subs, j)
        invariant sentScalar == old(sentScalar)
      {
        var index := subs[j].index;
        if index >= |slots| {
          FirstOutOfRangeAt(subs, RotationIndex, |slots|, j);
          return Failure(RotateIndexError(|subs|, |slots|));
        }
        result := ApplyRotation(result, subs[j]);
      }
      ghost var st := RotationState(scalarCache[..], clockwiseCache[..], sentRotation, result);
      assert FirstOutOfRange(subs, RotationIndex, |slots|) == None;
      if matchAll && !AllNone(result) {
        result := BackfillRotationSlots(result);
      }
      assert result == FinishRotation(features, st, matchAll);
      return Success(result);
    }

    /** The body of the `update_scalar` loop for one in-range subcommand:
        scale the value, and write the feature's cell and the slot when nothing
        was sent yet or the value differs from the cell. */
    method ApplyScalar(result: seq<Option<(ActuatorType, U32)>>, sub: ScalarSubcommand)
      returns (result': seq<Option<(ActuatorType, U32)>>)
      requires Valid() && |result| == |ScalarSlots(features)| && sub.index < |ScalarSlots(features)|
      modifies this, scalarCache
      ensures Valid()
      ensures ScalarState(scalarCache[..], sentScalar, result')
        == ScalarStep(features, ScalarState(old(scalarCache[..]), old(sentScalar), result), sub)
      ensures sentRotation == old(sentRotation)
    {
      var slots := ScalarSlots(features);
      var f := slots[sub.index];
      var v := StepValue(sub.scalar, RangeOf(features[f]));
      var current := scalarCache[f];
      var sent := sentScalar;
      result' := result;
      if !sent || v != current {
        scalarCache[f] := v;
        result' := result'[sub.index := Some((ScalarTypeOf(features[f]), v))];
      }
      if !sent {
        sentScalar := true;
      }
    }

    /** The `match_all` loop of `update_scalar`: every empty slot takes its
        feature's cell. */
    method BackfillScalarSlots(result: seq<Option<(ActuatorType, U32)>>)
      returns (result': seq<Option<(ActuatorType, U32)>>)
      requires Valid() && |result| == |ScalarSlots(features)|
      ensures result' == BackfillScalar(features, result, scalarCache[..])
    {
      var slots := ScalarSlots(features);
      result' := result;
      for i := 0 to |slots|
        invariant |result'| == |slots|
        invariant forall k :: 0 <= k < i ==> result'[k] == BackfillScalar(features, result, scalarCache[..])[k]
        invariant forall k :: i <= k < |slots| ==> result'[k] == result[k]
      {
        if result'[i].None? {
          result' := result'[i := Some((ScalarTypeOf(features[slots[i]]), scalarCache[slots[i]]))];
        }
      }
    }

    /** The body of the `update_rotation` loop for one in-range subcommand:
        scale the speed on the rotator's range, and write the cells of the
        feature at the subcommand's index, and the slot, when nothing was sent
        yet or the speed or direction differs from those cells. */
    method ApplyRotation(result: seq<Option<(U32, bool)>>, sub: RotationSubcommand)
      returns (result': seq<Option<(U32, bool)>>)
      requires Valid() && |result| == |RotateSlots(features)| && sub.index < |RotateSlots(features)|
      modifies this, scalarCache, clockwiseCache
      ensures Valid()
      ensures RotationState(scalarCache[..], clockwiseCache[..], sentRotation, result')
        == RotationStep(features, RotationState(old(scalarCache[..]), old(clockwiseCache[..]), old(sentRotation), result), sub)
      ensures sentScalar == old(sentScalar)
    {
      var slots := RotateSlots(features);
      var index := sub.index;
      var v := StepValue(sub.speed, RangeOf(features[slots[index]]));
      var clockwise := sub.clockwise;
      var sent := sentRotation;
      result' := result;
      if !sent || v != scalarCache[index] || clockwise != clockwiseCache[index] {
        scalarCache[index] := v;
        clockwiseCache[index] := clockwise;
        result' := result'[index := Some((v, clockwise))];
      }
      if !sent {
        sentRotation := true;
      }
    }

    /** The `match_all` loop of `update_rotation`: every empty slot takes the
        cells of its rotator. */
    method BackfillRotationSlots(result: seq<Option<(U32, bool)>>) returns (result': seq<Option<(U32, bool)>>)
      requires Valid() && |result| == |RotateSlots(features)|
      ensures result' == BackfillRotation(features, result, scalarCache[..], clockwiseCache[..])
    {
      var slots := RotateSlots(features);
      result' := result;
      for i := 0 to |slots|
        invariant |result'| == |slots|
        invariant forall k :: 0 <= k < i ==>
          result'[k] == BackfillRotation(features, result, scalarCache[..], clockwiseCache[..])[k]
        invariant forall k :: i <= k < |slots| ==> result'[k] == result[k]
      {
        if result'[i].None? {
          result' := result'[i := Some((scalarCache[slots[i]], clockwiseCache[slots[i]]))];
        }
      }
    }

    /** `_update_linear`: an unimplemented extension point that accepts every
        command and asks for nothing to be sent. */
    method UpdateLinear(msg: LinearCmd) returns (r: Result<Option<seq<(U32, U32)>>, ButtplugError>)
      ensures r == Success(None)
    {
      r := Success(None);
    }

    /** `stop_commands`: the precomputed stop list; no cell or flag changes. */
    method StopCommands() returns (cmds: seq<DeviceCommand>)
      requires Valid()
      ensures IsStopCommandList(features, cmds)
    {
      cmds := stopCommands;
    }
  }
}
