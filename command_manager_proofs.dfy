/** What `update_scalar` and `update_rotation` promise, proved about their
    specifications in `CommandManager`. */
module CommandManagerProofs {
  import opened Wrappers
  import MT = DeviceMessageTypes
  import opened MessageAttributes
  import opened DeviceFeatures
  import opened DeviceCommands
  import opened Errors
  import opened CommandManager

  /* ---------- step values ---------- */

  /** The commented-out unit tests' expected step values. */
  lemma StepValueExamples()
    ensures StepValue(0.5, StepRange(10, 15)) == 13
    ensures StepValue(0.75, StepRange(10, 20)) == 18
    ensures StepValue(0.5, StepRange(0, 20)) == 10
    ensures StepValue(0.75, StepRange(0, 20)) == 15
  {
  }

  /** Scaling a non-negative width by a larger factor gives a larger product. */
  lemma ScaleMonotone(a: real, b: real, d: real)
    requires a <= b && 0.0 <= d
    ensures a * d <= b * d
  {
    var e := b - a;
    assert e >= 0.0;
    assert e * d >= 0.0;
    assert b * d == a * d + e * d;
  }

  /** A value in [0, 1] lands in the step range: either 0 (below the floor) or
      strictly above the start and at most the end. */
  lemma StepValueWithinRange(value: real, range: StepRange)
    requires range.start <= range.end && 0.0 <= value <= 1.0
    ensures var v := StepValue(value, range); v == 0 || range.start < v <= range.end
  {
    var d := (range.end - range.start) as real;
    ScaleMonotone(value, 1.0, d);
    var m := Modifier(value, range);
    assert m == value * d && m <= d;
    if m >= StepFloor {
      var c := Ceil(m + range.start as real);
      assert c as real < range.end as real + 1.0;
      assert range.start < c <= range.end;
    }
  }

  lemma CeilMonotone(x: real, y: real)
    requires x <= y
    ensures Ceil(x) <= Ceil(y)
  {
    assert (Ceil(x) as real) < (Ceil(y) as real) + 1.0;
  }

  /** A larger value reaches further into the range. */
  lemma ModifierMonotone(a: real, b: real, range: StepRange)
    requires range.start <= range.end && a <= b
    ensures Modifier(a, range) <= Modifier(b, range)
  {
    var d, e := (range.end - range.start) as real, b - a;
    assert 0.0 <= d && 0.0 <= e;
    assert 0.0 <= e * d;
    assert Modifier(b, range) == Modifier(a, range) + e * d;
  }

  /** A larger value never gives a smaller step. */
  lemma StepValueMonotone(a: real, b: real, range: StepRange)
    requires range.start <= range.end && a <= b
    ensures StepValue(a, range) <= StepValue(b, range)
  {
    ModifierMonotone(a, b, range);
    var ma, mb := Modifier(a, range), Modifier(b, range);
    if ma >= StepFloor {
      var x, y := ma + range.start as real, mb + range.start as real;
      assert x <= y;
      assert StepValue(a, range) == SaturateU32(Ceil(x));
      assert StepValue(b, range) == SaturateU32(Ceil(y));
      CeilMonotone(x, y);
      SaturateMonotone(Ceil(x), Ceil(y));
    }
  }

  lemma SaturateMonotone(x: int, y: int)
    requires x <= y
    ensures SaturateU32(x) <= SaturateU32(y)
  {
  }

  /* ---------- helpers naming what a subcommand targets ---------- */

  /** The feature whose scalar cell a scalar subcommand writes. */
  function ScalarTarget(features: seq<DeviceFeature>, sub: ScalarSubcommand): nat
    requires WellFormedDevice(features) && sub.index < |ScalarSlots(features)|
  {
    ScalarSlots(features)[sub.index]
  }

  /** The step value a scalar subcommand scales to. */
  function ScalarTargetValue(features: seq<DeviceFeature>, sub: ScalarSubcommand): U32
    requires WellFormedDevice(features) && sub.index < |ScalarSlots(features)|
  {
    StepValue(sub.scalar, RangeOf(features[ScalarTarget(features, sub)]))
  }

  /** The step value a rotation subcommand scales to, on its rotator's range. */
  function RotationTargetValue(features: seq<DeviceFeature>, sub: RotationSubcommand): U32
    requires WellFormedDevice(features) && sub.index < |RotateSlots(features)|
  {
    StepValue(sub.speed, RangeOf(features[RotateSlots(features)[sub.index]]))
  }

  predicate DistinctScalarIndices(subs: seq<ScalarSubcommand>)
  {
    forall i, k :: 0 <= i < k < |subs| ==> subs[i].index != subs[k].index
  }

  predicate DistinctRotationIndices(subs: seq<RotationSubcommand>)
  {
    forall i, k :: 0 <= i < k < |subs| ==> subs[i].index != subs[k].index
  }

  predicate ScalarInRange(features: seq<DeviceFeature>, subs: seq<ScalarSubcommand>)
  {
    forall i :: 0 <= i < |subs| ==> subs[i].index < |ScalarSlots(features)|
  }

  predicate RotationInRange(features: seq<DeviceFeature>, subs: seq<RotationSubcommand>)
  {
    forall i :: 0 <= i < |subs| ==> subs[i].index < |RotateSlots(features)|
  }

  /** Distinct slots belong to distinct features. */
  lemma SlotsDistinct(features: seq<DeviceFeature>, t: MT.ButtplugDeviceMessageType, i: nat, k: nat)
    requires i < |CapableIndices(features, t)| && k < |CapableIndices(features, t)| && i != k
    ensures CapableIndices(features, t)[i] != CapableIndices(features, t)[k]
  {
    CapableIndicesIncreasing(features, t);
  }

  /* ---------- update_scalar: slots agree with the cache ---------- */

  /** Every filled slot reports its feature's actuator type and current cell. */
  predicate ScalarSlotsAgree(features: seq<DeviceFeature>, st: ScalarState)
    requires WellFormedDevice(features) && ScalarFits(features, st)
  {
    var slots := ScalarSlots(features);
    forall i :: 0 <= i < |st.result| && st.result[i].Some? ==>
      st.result[i].value == (ScalarTypeOf(features[slots[i]]), st.cache[slots[i]])
  }

  lemma ScalarStepKeepsAgreement(features: seq<DeviceFeature>, st: ScalarState, sub: ScalarSubcommand)
    requires WellFormedDevice(features) && ScalarFits(features, st) && sub.index < |ScalarSlots(features)|
    requires ScalarSlotsAgree(features, st)
    ensures ScalarSlotsAgree(features, ScalarStep(features, st, sub))
  {
    var slots := ScalarSlots(features);
    var st' := ScalarStep(features, st, sub);
    forall i | 0 <= i < |st'.result| && st'.result[i].Some?
      ensures st'.result[i].value == (ScalarTypeOf(features[slots[i]]), st'.cache[slots[i]])
    {
      if i != sub.index {
        SlotsDistinct(features, MT.ScalarCmd, i, sub.index);
      }
    }
  }

  lemma {:induction false} ScalarPassKeepsAgreement(features: seq<DeviceFeature>, st: ScalarState,
                                                    subs: seq<ScalarSubcommand>, j: nat)
    requires WellFormedDevice(features) && ScalarFits(features, st)
    requires j <= |subs| && forall i :: 0 <= i < j ==> subs[i].index < |ScalarSlots(features)|
    requires ScalarSlotsAgree(features, st)
    ensures ScalarSlotsAgree(features, ScalarPass(features, st, subs, j))
  {
    if j > 0 {
      ScalarPassKeepsAgreement(features, st, subs, j - 1);
      ScalarStepKeepsAgreement(features, ScalarPass(features, st, subs, j - 1), subs[j - 1]);
    }
  }

  /** A successful `update_scalar` returns either nothing (no slot changed) or one
      slot per scalar feature; every filled slot holds its feature's actuator
      type and its cell after the call; under `match_all` every slot is filled. */
  lemma UpdateScalarReportsCache(features: seq<DeviceFeature>, cache: seq<U32>, sent: bool,
                                 subs: seq<ScalarSubcommand>, matchAll: bool)
    requires WellFormedDevice(features) && |cache| == |features|
    ensures var o := UpdateScalarSpec(features, cache, sent, subs, matchAll);
      var slots := ScalarSlots(features);
      o.response.Success? ==>
        (o.response.value == [] || |o.response.value| == |slots|)
        && (forall i :: 0 <= i < |o.response.value| && o.response.value[i].Some? ==>
              o.response.value[i].value == (ScalarTypeOf(features[slots[i]]), o.cache[slots[i]]))
        && (matchAll ==> forall i :: 0 <= i < |o.response.value| ==> o.response.value[i].Some?)
  {
    var slots := ScalarSlots(features);
    var init := ScalarState(cache, sent, seq(|slots|, _ => None));
    if |subs| > 0 && FirstOutOfRange(subs, ScalarIndex, |slots|).None? {
      ScalarPassKeepsAgreement(features, init, subs, |subs|);
    }
  }

  /* ---------- update_scalar: errors ---------- */

  /** An empty command fails and changes nothing. An out-of-range index fails
      with the command's length and the scalar feature count; the subcommands
      before it have already run, so the sent flag is set exactly when there
      was one, and a feature no earlier subcommand targets keeps its cell. */
  lemma UpdateScalarErrors(features: seq<DeviceFeature>, cache: seq<U32>, sent: bool,
                           subs: seq<ScalarSubcommand>, matchAll: bool, k: nat)
    requires WellFormedDevice(features) && |cache| == |features|
    requires k < |subs| && subs[k].index >= |ScalarSlots(features)|
    requires forall i :: 0 <= i < k ==> subs[i].index < |ScalarSlots(features)|
    ensures UpdateScalarSpec(features, cache, sent, [], matchAll) == ScalarOutcome(Failure(EmptyScalarError()), cache, sent)
    ensures var o := UpdateScalarSpec(features, cache, sent, subs, matchAll);
      o.response == Failure(ScalarIndexError(|subs|, |ScalarSlots(features)|))
      && o.sent == (sent || k > 0)
      && forall f :: 0 <= f < |features| && (forall i :: 0 <= i < k ==> ScalarTarget(features, subs[i]) != f) ==>
           o.cache[f] == cache[f]
  {
    FirstOutOfRangeAt(subs, ScalarIndex, |ScalarSlots(features)|, k);
    var init := ScalarState(cache, sent, seq(|ScalarSlots(features)|, _ => None));
    ScalarPassFrame(features, init, subs, k);
  }

  /** Cells of features that none of the first `j` subcommands target are unchanged. */
  lemma {:induction false} ScalarPassFrame(features: seq<DeviceFeature>, st: ScalarState,
                                           subs: seq<ScalarSubcommand>, j: nat)
    requires WellFormedDevice(features) && ScalarFits(features, st)
    requires j <= |subs| && forall i :: 0 <= i < j ==> subs[i].index < |ScalarSlots(features)|
    ensures forall f :: 0 <= f < |features| && (forall i :: 0 <= i < j ==> ScalarTarget(features, subs[i]) != f) ==>
      ScalarPass(features, st, subs, j).cache[f] == st.cache[f]
  {
    if j > 0 {
      ScalarPassFrame(features, st, subs, j - 1);
    }
  }

  /* ---------- update_scalar: repeating a command ---------- */

  /** After the first `j` subcommands with distinct indices, each targeted cell
      holds that subcommand's step value. */
  lemma {:induction false} ScalarPassWritesAll(features: seq<DeviceFeature>, st: ScalarState,
                                               subs: seq<ScalarSubcommand>, j: nat)
    requires WellFormedDevice(features) && ScalarFits(features, st)
    requires j <= |subs| && ScalarInRange(features, subs) && DistinctScalarIndices(subs)
    ensures forall i :: 0 <= i < j ==>
      ScalarPass(features, st, subs, j).cache[ScalarTarget(features, subs[i])] == ScalarTargetValue(features, subs[i])
  {
    if j > 0 {
      ScalarPassWritesAll(features, st, subs, j - 1);
      forall i | 0 <= i < j - 1
        ensures ScalarTarget(features, subs[i]) != ScalarTarget(features, subs[j - 1])
      {
        SlotsDistinct(features, MT.ScalarCmd, subs[i].index, subs[j - 1].index);
      }
    }
  }

  /** Once something was sent and every targeted cell already holds its value,
      the loop changes nothing. */
  lemma {:induction false} ScalarPassStable(features: seq<DeviceFeature>, st: ScalarState,
                                            subs: seq<ScalarSubcommand>, j: nat)
    requires WellFormedDevice(features) && ScalarFits(features, st)
    requires j <= |subs| && ScalarInRange(features, subs) && st.sent
    requires forall i :: 0 <= i < j ==> st.cache[ScalarTarget(features, subs[i])] == ScalarTargetValue(features, subs[i])
    ensures ScalarPass(features, st, subs, j) == st
  {
    if j > 0 {
      ScalarPassStable(features, st, subs, j - 1);
    }
  }

  /** Sending the same command twice: the second call, whatever its `match_all`,
      succeeds with an empty vector and leaves cells and flag as the first call
      left them. */
  lemma RepeatedScalarCmdIsEmpty(features: seq<DeviceFeature>, cache: seq<U32>, sent: bool,
                                 subs: seq<ScalarSubcommand>, matchAll: bool, matchAll': bool)
    requires WellFormedDevice(features) && |cache| == |features| && DistinctScalarIndices(subs)
    requires UpdateScalarSpec(features, cache, sent, subs, matchAll).response.Success?
    ensures var o := UpdateScalarSpec(features, cache, sent, subs, matchAll);
      UpdateScalarSpec(features, o.cache, o.sent, subs, matchAll') == ScalarOutcome(Success([]), o.cache, o.sent)
  {
    var slots := ScalarSlots(features);
    var init := ScalarState(cache, sent, seq(|slots|, _ => None));
    ScalarPassWritesAll(features, init, subs, |subs|);
    var o := UpdateScalarSpec(features, cache, sent, subs, matchAll);
    var again := ScalarState(o.cache, o.sent, seq(|slots|, _ => None));
    ScalarPassStable(features, again, subs, |subs|);
  }

  /* ---------- update_scalar: the stop command ---------- */

  /** Running the precomputed scalar stop command succeeds and leaves every
      scalar feature's cell at 0. */
  lemma StopScalarCmdZeroesCells(features: seq<DeviceFeature>, cmds: seq<DeviceCommand>,
                                 cache: seq<U32>, sent: bool, matchAll: bool)
    requires WellFormedDevice(features) && |cache| == |features|
    requires IsStopCommandList(features, cmds) && |ScalarSlots(features)| > 0
    ensures var o := UpdateScalarSpec(features, cache, sent, cmds[0].scalarCmd.scalars, matchAll);
      o.response.Success? && o.sent
      && forall i :: 0 <= i < |ScalarSlots(features)| ==> o.cache[ScalarSlots(features)[i]] == 0
  {
    var slots := ScalarSlots(features);
    var subs := cmds[0].scalarCmd.scalars;
    var init := ScalarState(cache, sent, seq(|slots|, _ => None));
    assert ScalarInRange(features, subs);
    ScalarPassWritesAll(features, init, subs, |subs|);
    forall i | 0 <= i < |slots|
      ensures ScalarPass(features, init, subs, |subs|).cache[slots[i]] == 0
    {
      assert ScalarTarget(features, subs[i]) == slots[i];
    }
  }

  /* ---------- update_rotation ---------- */

  /** Every filled slot holds the cells of the feature at the same position of
      the whole device (not of the rotator at that position). */
  predicate RotationSlotsAgree(features: seq<DeviceFeature>, st: RotationState)
    requires RotationFits(features, st)
  {
    forall i :: 0 <= i < |st.result| && st.result[i].Some? ==>
      i < |features| && st.result[i].value == (st.cache[i], st.clockwise[i])
  }

  lemma {:induction false} RotationPassKeepsAgreement(features: seq<DeviceFeature>, st: RotationState,
                                                      subs: seq<RotationSubcommand>, j: nat)
    requires WellFormedDevice(features) && RotationFits(features, st)
    requires j <= |subs| && forall i :: 0 <= i < j ==> subs[i].index < |RotateSlots(features)|
    requires RotationSlotsAgree(features, st)
    ensures RotationSlotsAgree(features, RotationPass(features, st, subs, j))
  {
    if j > 0 {
      RotationPassKeepsAgreement(features, st, subs, j - 1);
    }
  }

  /** A successful `update_rotation` returns one slot per rotator. A slot the
      loop wrote holds the cells of feature `i` (the loop indexes the whole
      device); under `match_all`, when some slot changed, every slot is filled,
      each with the cells of feature `i` or those of rotator `i`, and a slot no
      subcommand names holds the cells of rotator `i`. */
  lemma UpdateRotationReportsCells(features: seq<DeviceFeature>, cache: seq<U32>, clockwise: seq<bool>, sent: bool,
                                   subs: seq<RotationSubcommand>, matchAll: bool)
    requires WellFormedDevice(features) && |cache| == |features| && |clockwise| == |features|
    ensures var o := UpdateRotationSpec(features, cache, clockwise, sent, subs, matchAll);
      var slots := RotateSlots(features);
      o.response.Success? ==>
        |o.response.value| == |slots|
        && (!matchAll ==> forall i :: 0 <= i < |slots| && o.response.value[i].Some? ==>
              o.response.value[i].value == (o.cache[i], o.clockwise[i]))
        && (matchAll && !AllNone(o.response.value) ==>
              forall i :: 0 <= i < |o.response.value| ==> o.response.value[i].Some?)
        && (matchAll && (forall i :: 0 <= i < |slots| ==> slots[i] == i) ==>
              forall i :: 0 <= i < |slots| && o.response.value[i].Some? ==>
                o.response.value[i].value == (o.cache[i], o.clockwise[i]))
        && (matchAll ==> forall i :: 0 <= i < |slots| && o.response.value[i].Some? ==>
              o.response.value[i].value == (o.cache[i], o.clockwise[i])
              || o.response.value[i].value == (o.cache[slots[i]], o.clockwise[slots[i]]))
        && (matchAll && !AllNone(o.response.value) ==>
              forall i :: 0 <= i < |slots| && (forall k :: 0 <= k < |subs| ==> subs[k].index != i) ==>
                o.response.value[i] == Some((o.cache[slots[i]], o.clockwise[slots[i]])))
  {
    var slots := RotateSlots(features);
    var init := RotationState(cache, clockwise, sent, seq(|slots|, _ => None));
    if |subs| > 0 && FirstOutOfRange(subs, RotationIndex, |slots|).None? {
      RotationPassKeepsAgreement(features, init, subs, |subs|);
      RotationPassUntargetedSlots(features, init, subs, |subs|);
    }
  }

  /** A result slot that none of the first `j` subcommands names keeps what it held. */
  lemma {:induction false} RotationPassUntargetedSlots(features: seq<DeviceFeature>, st: RotationState,
                                                       subs: seq<RotationSubcommand>, j: nat)
    requires WellFormedDevice(features) && RotationFits(features, st)
    requires j <= |subs| && forall i :: 0 <= i < j ==> subs[i].index < |RotateSlots(features)|
    ensures forall s :: 0 <= s < |st.result| && (forall i :: 0 <= i < j ==> subs[i].index != s) ==>
      RotationPass(features, st, subs, j).result[s] == st.result[s]
  {
    if j > 0 {
      RotationPassUntargetedSlots(features, st, subs, j - 1);
    }
  }

  /** An empty command fails and changes nothing; an out-of-range index fails
      with the command's length and the rotator count. */
  lemma UpdateRotationErrors(features: seq<DeviceFeature>, cache: seq<U32>, clockwise: seq<bool>, sent: bool,
                             subs: seq<RotationSubcommand>, matchAll: bool, k: nat)
    requires WellFormedDevice(features) && |cache| == |features| && |clockwise| == |features|
    requires k < |subs| && subs[k].index >= |RotateSlots(features)|
    requires forall i :: 0 <= i < k ==> subs[i].index < |RotateSlots(features)|
    ensures UpdateRotationSpec(features, cache, clockwise, sent, [], matchAll)
      == RotationOutcome(Failure(EmptyRotateError()), cache, clockwise, sent)
    ensures var o := UpdateRotationSpec(features, cache, clockwise, sent, subs, matchAll);
      o.response == Failure(RotateIndexError(|subs|, |RotateSlots(features)|))
      && o.sent == (sent || k > 0)
      && forall f :: 0 <= f < |features| && (forall i :: 0 <= i < k ==> subs[i].index != f) ==>
           o.cache[f] == cache[f] && o.clockwise[f] == clockwise[f]
  {
    FirstOutOfRangeAt(subs, RotationIndex, |RotateSlots(features)|, k);
    var init := RotationState(cache, clockwise, sent, seq(|RotateSlots(features)|, _ => None));
    RotationPassFrame(features, init, subs, k);
  }

  lemma {:induction false} RotationPassFrame(features: seq<DeviceFeature>, st: RotationState,
                                             subs: seq<RotationSubcommand>, j: nat)
    requires WellFormedDevice(features) && RotationFits(features, st)
    requires j <= |subs| && forall i :: 0 <= i < j ==> subs[i].index < |RotateSlots(features)|
    ensures forall f :: 0 <= f < |features| && (forall i :: 0 <= i < j ==> subs[i].index != f) ==>
      RotationPass(features, st, subs, j).cache[f] == st.cache[f]
      && RotationPass(features, st, subs, j).clockwise[f] == st.clockwise[f]
  {
    if j > 0 {
      RotationPassFrame(features, st, subs, j - 1);
    }
  }

  lemma {:induction false} RotationPassWritesAll(features: seq<DeviceFeature>, st: RotationState,
                                                 subs: seq<RotationSubcommand>, j: nat)
    requires WellFormedDevice(features) && RotationFits(features, st)
    requires j <= |subs| && RotationInRange(features, subs) && DistinctRotationIndices(subs)
    ensures var st' := RotationPass(features, st, subs, j);
      forall i :: 0 <= i < j ==>
        st'.cache[subs[i].index] == RotationTargetValue(features, subs[i])
        && st'.clockwise[subs[i].index] == subs[i].clockwise
  {
    if j > 0 {
      RotationPassWritesAll(features, st, subs, j - 1);
    }
  }

  lemma {:induction false} RotationPassStable(features: seq<DeviceFeature>, st: RotationState,
                                              subs: seq<RotationSubcommand>, j: nat)
    requires WellFormedDevice(features) && RotationFits(features, st)
    requires j <= |subs| && RotationInRange(features, subs) && st.sent
    requires forall i :: 0 <= i < j ==>
      st.cache[subs[i].index] == RotationTargetValue(features, subs[i]) && st.clockwise[subs[i].index] == subs[i].clockwise
    ensures RotationPass(features, st, subs, j) == st
  {
    if j > 0 {
      RotationPassStable(features, st, subs, j - 1);
    }
  }

  /** Sending the same rotation command twice: the second call succeeds with one
      empty slot per rotator (the vector is not emptied), cells and flag as the
      first call left them. */
  lemma RepeatedRotateCmdIsAllNone(features: seq<DeviceFeature>, cache: seq<U32>, clockwise: seq<bool>, sent: bool,
                                   subs: seq<RotationSubcommand>, matchAll: bool, matchAll': bool)
    requires WellFormedDevice(features) && |cache| == |features| && |clockwise| == |features|
    requires DistinctRotationIndices(subs)
    requires UpdateRotationSpec(features, cache, clockwise, sent, subs, matchAll).response.Success?
    ensures var o := UpdateRotationSpec(features, cache, clockwise, sent, subs, matchAll);
      UpdateRotationSpec(features, o.cache, o.clockwise, o.sent, subs, matchAll')
        == RotationOutcome(Success(seq(|RotateSlots(features)|, _ => None)), o.cache, o.clockwise, o.sent)
  {
    var slots := RotateSlots(features);
    var init := RotationState(cache, clockwise, sent, seq(|slots|, _ => None));
    RotationPassWritesAll(features, init, subs, |subs|);
    var o := UpdateRotationSpec(features, cache, clockwise, sent, subs, matchAll);
    var again := RotationState(o.cache, o.clockwise, o.sent, seq(|slots|, _ => None));
    RotationPassStable(features, again, subs, |subs|);
  }

  /** Running the precomputed rotate stop command succeeds and sets cells
      0..m-1 (m rotators) to speed 0, counter-clockwise: the cells of the
      device's first m features. */
  lemma StopRotateCmdZeroesCells(features: seq<DeviceFeature>, cmds: seq<DeviceCommand>,
                                 cache: seq<U32>, clockwise: seq<bool>, sent: bool, matchAll: bool)
    requires WellFormedDevice(features) && |cache| == |features| && |clockwise| == |features|
    requires IsStopCommandList(features, cmds) && |RotateSlots(features)| > 0
    ensures var o := UpdateRotationSpec(features, cache, clockwise, sent, cmds[|cmds| - 1].rotateCmd.rotations, matchAll);
      o.response.Success? && o.sent
      && forall i :: 0 <= i < |RotateSlots(features)| ==> o.cache[i] == 0 && !o.clockwise[i]
  {
    var slots := RotateSlots(features);
    var subs := cmds[|cmds| - 1].rotateCmd.rotations;
    var init := RotationState(cache, clockwise, sent, seq(|slots|, _ => None));
    var last := cmds[|cmds| - 1];
    assert last.RotateCommand? && |subs| == |slots|;
    assert forall i :: 0 <= i < |slots| ==> subs[i] == RotationSubcommand(i, 0.0, false);
    assert RotationInRange(features, subs);
    RotationPassWritesAll(features, init, subs, |subs|);
    forall i | 0 <= i < |slots|
      ensures RotationPass(features, init, subs, |subs|).cache[i] == 0
      ensures !RotationPass(features, init, subs, |subs|).clockwise[i]
    {
      assert subs[i].index == i;
    }
  }

  /* ---------- the stop list ---------- */

  /** The stop list is determined by the features: any two lists meeting
      `IsStopCommandList` are equal, so `stop_commands()` always returns the
      same list `new` computed. */
  lemma StopCommandListUnique(features: seq<DeviceFeature>, a: seq<DeviceCommand>, b: seq<DeviceCommand>)
    requires WellFormedDevice(features) && IsStopCommandList(features, a) && IsStopCommandList(features, b)
    ensures a == b
  {
    var k := |ScalarSlots(features)|;
    var m := |RotateSlots(features)|;
    if k > 0 {
      assert a[0].scalarCmd.scalars == b[0].scalarCmd.scalars;
      assert a[0] == b[0];
    }
    if m > 0 {
      var ra := a[|a| - 1].rotateCmd.rotations;
      var rb := b[|b| - 1].rotateCmd.rotations;
      assert forall i :: 0 <= i < m ==> ra[i] == RotationSubcommand(i, 0.0, false);
      assert forall i :: 0 <= i < m ==> rb[i] == RotationSubcommand(i, 0.0, false);
      assert |ra| == |rb| && forall i :: 0 <= i < |ra| ==> ra[i] == rb[i];
      assert a[|a| - 1].rotateCmd.rotations == b[|b| - 1].rotateCmd.rotations;
      assert a[|a| - 1] == b[|b| - 1];
    }
    assert forall i :: 0 <= i < |a| ==> a[i] == b[i];
  }

  /* ---------- concrete scenarios ---------- */

  /** A feature answering `ScalarCmd` with a vibrator on the given step range. */
  function Vibrator(start: U32, end: U32): (f: DeviceFeature)
    requires start <= end
    ensures WellFormedFeature(f) && Supports(f, MT.ScalarCmd) && !Supports(f, MT.RotateCmd)
  {
    DeviceFeature(VibrateFeature, Some(DeviceFeatureActuator(Some(StepRange(start, end)), {MT.ScalarCmd})))
  }

  /** A feature answering `RotateCmd` on the given step range. */
  function Rotator(start: U32, end: U32): (f: DeviceFeature)
    requires start <= end
    ensures WellFormedFeature(f) && Supports(f, MT.RotateCmd) && !Supports(f, MT.ScalarCmd)
  {
    DeviceFeature(RotateFeature, Some(DeviceFeatureActuator(Some(StepRange(start, end)), {MT.RotateCmd})))
  }

  lemma PairSlots(f: DeviceFeature, g: DeviceFeature, t: MT.ButtplugDeviceMessageType)
    ensures CapableIndices([f, g], t)
      == (if Supports(f, t) then [0] else []) + (if Supports(g, t) then [1] else [])
  {
    assert [f, g][..1] == [f];
    assert [f][..0] == [];
  }

  /** `update_scalar` on a two-subcommand message with both indices in range:
      the response after running the loop body twice. */
  lemma UpdateScalarTwo(features: seq<DeviceFeature>, cache: seq<U32>, sent: bool,
                        subs: seq<ScalarSubcommand>, matchAll: bool)
    requires WellFormedDevice(features) && |cache| == |features|
    requires |subs| == 2 && ScalarInRange(features, subs)
    ensures var init := ScalarState(cache, sent, seq(|ScalarSlots(features)|, _ => None));
      var st := ScalarStep(features, ScalarStep(features, init, subs[0]), subs[1]);
      UpdateScalarSpec(features, cache, sent, subs, matchAll)
        == ScalarOutcome(Success(FinishScalar(features, st, matchAll)), st.cache, st.sent)
  {
    var init := ScalarState(cache, sent, seq(|ScalarSlots(features)|, _ => None));
    assert ScalarPass(features, init, subs, 1) == ScalarStep(features, init, subs[0]);
  }

  lemma UpdateRotationTwo(features: seq<DeviceFeature>, cache: seq<U32>, clockwise: seq<bool>, sent: bool,
                          subs: seq<RotationSubcommand>, matchAll: bool)
    requires WellFormedDevice(features) && |cache| == |features| && |clockwise| == |features|
    requires |subs| == 2 && RotationInRange(features, subs)
    ensures var init := RotationState(cache, clockwise, sent, seq(|RotateSlots(features)|, _ => None));
      var st := RotationStep(features, RotationStep(features, init, subs[0]), subs[1]);
      UpdateRotationSpec(features, cache, clockwise, sent, subs, matchAll)
        == RotationOutcome(Success(FinishRotation(features, st, matchAll)), st.cache, st.clockwise, st.sent)
  {
    var init := RotationState(cache, clockwise, sent, seq(|RotateSlots(features)|, _ => None));
    assert RotationPass(features, init, subs, 1) == RotationStep(features, init, subs[0]);
  }

  /** The devices of the unit tests. */
  function TwoVibrators(a: StepRange, b: StepRange): (fs: seq<DeviceFeature>)
    requires a.start <= a.end && b.start <= b.end
    ensures WellFormedDevice(fs) && ScalarSlots(fs) == [0, 1]
    ensures Supports(fs[0], MT.ScalarCmd) && Supports(fs[1], MT.ScalarCmd)
    ensures RangeOf(fs[0]) == a && RangeOf(fs[1]) == b && ScalarTypeOf(fs[0]) == Vibrate && ScalarTypeOf(fs[1]) == Vibrate
  {
    PairSlots(Vibrator(a.start, a.end), Vibrator(b.start, b.end), MT.ScalarCmd);
    [Vibrator(a.start, a.end), Vibrator(b.start, b.end)]
  }

  function TwoRotators(): (fs: seq<DeviceFeature>)
    ensures WellFormedDevice(fs) && RotateSlots(fs) == [0, 1]
    ensures Supports(fs[0], MT.RotateCmd) && Supports(fs[1], MT.RotateCmd)
    ensures RangeOf(fs[0]) == StepRange(0, 20) && RangeOf(fs[1]) == StepRange(0, 20)
  {
    PairSlots(Rotator(0, 20), Rotator(0, 20), MT.RotateCmd);
    [Rotator(0, 20), Rotator(0, 20)]
  }

  /** A vibrator followed by a rotator. */
  function VibratorThenRotator(): (fs: seq<DeviceFeature>)
    ensures WellFormedDevice(fs) && ScalarSlots(fs) == [0] && RotateSlots(fs) == [1]
    ensures Supports(fs[0], MT.ScalarCmd) && Supports(fs[1], MT.RotateCmd)
    ensures RangeOf(fs[0]) == StepRange(0, 20) && RangeOf(fs[1]) == StepRange(0, 20) && ScalarTypeOf(fs[0]) == Vibrate
  {
    PairSlots(Vibrator(0, 20), Rotator(0, 20), MT.ScalarCmd);
    PairSlots(Vibrator(0, 20), Rotator(0, 20), MT.RotateCmd);
    [Vibrator(0, 20), Rotator(0, 20)]
  }

  function Scalars(a: real, b: real): seq<ScalarSubcommand>
  {
    [ScalarSubcommand(0, a, Vibrate), ScalarSubcommand(1, b, Vibrate)]
  }

  function Rotations(a: real, ca: bool, b: real, cb: bool): seq<RotationSubcommand>
  {
    [RotationSubcommand(0, a, ca), RotationSubcommand(1, b, cb)]
  }

  /* The vibration unit test, with and without `match_all`, one call per lemma:
     two vibrators on 0..20. */

  /** Both at 0.5 on a fresh manager gives 10 and 10. */
  lemma VibrationFirstCall(matchAll: bool)
    ensures UpdateScalarSpec(TwoVibrators(StepRange(0, 20), StepRange(0, 20)), [0, 0], false, Scalars(0.5, 0.5), matchAll)
      == ScalarOutcome(Success([Some((Vibrate, 10)), Some((Vibrate, 10))]), [10, 10], true)
  {
    var fs := TwoVibrators(StepRange(0, 20), StepRange(0, 20));
    var subs := Scalars(0.5, 0.5);
    StepValueExamples();
    UpdateScalarTwo(fs, [0, 0], false, subs, matchAll);
    var empty: seq<Option<(ActuatorType, U32)>> := [None, None];
    assert seq(2, _ => None) == empty;
    var st1 := ScalarStep(fs, ScalarState([0, 0], false, empty), subs[0]);
    assert st1 == ScalarState([10, 0], true, [Some((Vibrate, 10)), None]);
    var st2 := ScalarStep(fs, st1, subs[1]);
    assert st2 == ScalarState([10, 10], true, [Some((Vibrate, 10)), Some((Vibrate, 10))]);
    assert st2.result[0].Some?;
    if matchAll {
      assert BackfillScalar(fs, st2.result, st2.cache) == st2.result;
    }
  }

  /** The same command again gives nothing. */
  lemma VibrationRepeatedCall(matchAll: bool)
    ensures UpdateScalarSpec(TwoVibrators(StepRange(0, 20), StepRange(0, 20)), [10, 10], true, Scalars(0.5, 0.5), matchAll)
      == ScalarOutcome(Success([]), [10, 10], true)
  {
    var fs := TwoVibrators(StepRange(0, 20), StepRange(0, 20));
    var subs := Scalars(0.5, 0.5);
    StepValueExamples();
    UpdateScalarTwo(fs, [10, 10], true, subs, matchAll);
    var empty: seq<Option<(ActuatorType, U32)>> := [None, None];
    assert seq(2, _ => None) == empty;
    var st := ScalarState([10, 10], true, empty);
    assert ScalarStep(fs, st, subs[0]) == st;
    assert ScalarStep(fs, st, subs[1]) == st;
  }

  /** 0.5 and 0.75 gives only the changed second slot, or both slots under `match_all`. */
  lemma VibrationChangedCall(matchAll: bool)
    ensures UpdateScalarSpec(TwoVibrators(StepRange(0, 20), StepRange(0, 20)), [10, 10], true, Scalars(0.5, 0.75), matchAll)
      == ScalarOutcome(Success([if matchAll then Some((Vibrate, 10)) else None, Some((Vibrate, 15))]), [10, 15], true)
  {
    var fs := TwoVibrators(StepRange(0, 20), StepRange(0, 20));
    var subs := Scalars(0.5, 0.75);
    StepValueExamples();
    UpdateScalarTwo(fs, [10, 10], true, subs, matchAll);
    var empty: seq<Option<(ActuatorType, U32)>> := [None, None];
    assert seq(2, _ => None) == empty;
    var st := ScalarState([10, 10], true, empty);
    assert ScalarStep(fs, st, subs[0]) == st;
    var st' := ScalarStep(fs, st, subs[1]);
    assert st' == ScalarState([10, 15], true, [None, Some((Vibrate, 15))]);
    assert st'.result[1].Some?;
    if matchAll {
      assert BackfillScalar(fs, st'.result, st'.cache) == [Some((Vibrate, 10)), Some((Vibrate, 15))];
    }
  }

  /** Index 2 on a two-vibrator device fails and leaves the cells as they are. */
  lemma VibrationBadIndexCall(cache: seq<U32>, sent: bool, matchAll: bool)
    requires |cache| == 2
    ensures UpdateScalarSpec(TwoVibrators(StepRange(0, 20), StepRange(0, 20)), cache, sent,
                             [ScalarSubcommand(2, 0.5, Vibrate)], matchAll)
      == ScalarOutcome(Failure(ScalarIndexError(1, 2)), cache, sent)
  {
    FirstOutOfRangeAt([ScalarSubcommand(2, 0.5, Vibrate)], ScalarIndex, 2, 0);
  }

  /* The step-range unit test: vibrators on 10..15 and 10..20. */

  /** Both at 0.5 on a fresh manager gives 13 and 15. */
  lemma StepRangeFirstCall()
    ensures UpdateScalarSpec(TwoVibrators(StepRange(10, 15), StepRange(10, 20)), [0, 0], false, Scalars(0.5, 0.5), false)
      == ScalarOutcome(Success([Some((Vibrate, 13)), Some((Vibrate, 15))]), [13, 15], true)
  {
    var fs := TwoVibrators(StepRange(10, 15), StepRange(10, 20));
    var subs := Scalars(0.5, 0.5);
    StepValueExamples();
    UpdateScalarTwo(fs, [0, 0], false, subs, false);
    var empty: seq<Option<(ActuatorType, U32)>> := [None, None];
    assert seq(2, _ => None) == empty;
    var st1 := ScalarStep(fs, ScalarState([0, 0], false, empty), subs[0]);
    assert st1 == ScalarState([13, 0], true, [Some((Vibrate, 13)), None]);
    var st2 := ScalarStep(fs, st1, subs[1]);
    assert st2 == ScalarState([13, 15], true, [Some((Vibrate, 13)), Some((Vibrate, 15))]);
    assert st2.result[0].Some?;
  }

  /** Then 0.5 and 0.75 gives only 18 for the second. */
  lemma StepRangeChangedCall()
    ensures UpdateScalarSpec(TwoVibrators(StepRange(10, 15), StepRange(10, 20)), [13, 15], true, Scalars(0.5, 0.75), false)
      == ScalarOutcome(Success([None, Some((Vibrate, 18))]), [13, 18], true)
  {
    var fs := TwoVibrators(StepRange(10, 15), StepRange(10, 20));
    var subs := Scalars(0.5, 0.75);
    StepValueExamples();
    UpdateScalarTwo(fs, [13, 15], true, subs, false);
    var empty: seq<Option<(ActuatorType, U32)>> := [None, None];
    assert seq(2, _ => None) == empty;
    var st := ScalarState([13, 15], true, empty);
    assert ScalarStep(fs, st, subs[0]) == st;
    var st' := ScalarStep(fs, st, subs[1]);
    assert st' == ScalarState([13, 18], true, [None, Some((Vibrate, 18))]);
    assert st'.result[1].Some?;
  }

  /* The rotation unit test: two rotators on 0..20. */

  /** Both at 0.5 clockwise on a fresh manager gives (10, clockwise) twice. */
  lemma RotationFirstCall()
    ensures UpdateRotationSpec(TwoRotators(), [0, 0], [false, false], false, Rotations(0.5, true, 0.5, true), false)
      == RotationOutcome(Success([Some((10, true)), Some((10, true))]), [10, 10], [true, true], true)
  {
    var fs := TwoRotators();
    var subs := Rotations(0.5, true, 0.5, true);
    StepValueExamples();
    UpdateRotationTwo(fs, [0, 0], [false, false], false, subs, false);
    var empty: seq<Option<(U32, bool)>> := [None, None];
    assert seq(2, _ => None) == empty;
    var st1 := RotationStep(fs, RotationState([0, 0], [false, false], false, empty), subs[0]);
    assert st1 == RotationState([10, 0], [true, false], true, [Some((10, true)), None]);
    var st2 := RotationStep(fs, st1, subs[1]);
    assert st2 == RotationState([10, 10], [true, true], true, [Some((10, true)), Some((10, true))]);
  }

  /** The same command again gives two empty slots, not an empty vector. */
  lemma RotationRepeatedCall()
    ensures UpdateRotationSpec(TwoRotators(), [10, 10], [true, true], true, Rotations(0.5, true, 0.5, true), false)
      == RotationOutcome(Success([None, None]), [10, 10], [true, true], true)
  {
    var fs := TwoRotators();
    var subs := Rotations(0.5, true, 0.5, true);
    StepValueExamples();
    UpdateRotationTwo(fs, [10, 10], [true, true], true, subs, false);
    var empty: seq<Option<(U32, bool)>> := [None, None];
    assert seq(2, _ => None) == empty;
    var st := RotationState([10, 10], [true, true], true, empty);
    assert RotationStep(fs, st, subs[0]) == st;
    assert RotationStep(fs, st, subs[1]) == st;
  }

  /** The second at 0.75 counter-clockwise gives only that slot. */
  lemma RotationChangedCall()
    ensures UpdateRotationSpec(TwoRotators(), [10, 10], [true, true], true, Rotations(0.5, true, 0.75, false), false)
      == RotationOutcome(Success([None, Some((15, false))]), [10, 15], [true, false], true)
  {
    var fs := TwoRotators();
    var subs := Rotations(0.5, true, 0.75, false);
    StepValueExamples();
    UpdateRotationTwo(fs, [10, 10], [true, true], true, subs, false);
    var empty: seq<Option<(U32, bool)>> := [None, None];
    assert seq(2, _ => None) == empty;
    var st := RotationState([10, 10], [true, true], true, empty);
    assert RotationStep(fs, st, subs[0]) == st;
    assert RotationStep(fs, st, subs[1]) == RotationState([10, 15], [true, false], true, [None, Some((15, false))]);
  }

  /** Both at 0.75 counter-clockwise under `match_all` gives (15, ccw) twice:
      the unchanged second slot is backfilled. */
  lemma RotationMatchAllCall()
    ensures UpdateRotationSpec(TwoRotators(), [10, 15], [true, false], true, Rotations(0.75, false, 0.75, false), true)
      == RotationOutcome(Success([Some((15, false)), Some((15, false))]), [15, 15], [false, false], true)
  {
    var fs := TwoRotators();
    var subs := Rotations(0.75, false, 0.75, false);
    StepValueExamples();
    UpdateRotationTwo(fs, [10, 15], [true, false], true, subs, true);
    var empty: seq<Option<(U32, bool)>> := [None, None];
    assert seq(2, _ => None) == empty;
    var st := RotationState([10, 15], [true, false], true, empty);
    var st' := RotationState([15, 15], [false, false], true, [Some((15, false)), None]);
    assert RotationStep(fs, st, subs[0]) == st';
    assert RotationStep(fs, st', subs[1]) == st';
    assert st'.result[0].Some?;
    assert BackfillRotation(fs, st'.result, st'.cache, st'.clockwise) == [Some((15, false)), Some((15, false))];
  }

  /** The sent flag is set by the first subcommand, not after the first
      message: on a fresh manager, a second subcommand whose value equals its
      (zero) cell is not reported. */
  lemma FirstMessageSkipsUnchangedLaterSlots()
    ensures UpdateScalarSpec(TwoVibrators(StepRange(0, 20), StepRange(0, 20)), [0, 0], false, Scalars(0.5, 0.0), false)
      == ScalarOutcome(Success([Some((Vibrate, 10)), None]), [10, 0], true)
  {
    var fs := TwoVibrators(StepRange(0, 20), StepRange(0, 20));
    var subs := Scalars(0.5, 0.0);
    StepValueExamples();
    UpdateScalarTwo(fs, [0, 0], false, subs, false);
    var empty: seq<Option<(ActuatorType, U32)>> := [None, None];
    assert seq(2, _ => None) == empty;
    var st1 := ScalarStep(fs, ScalarState([0, 0], false, empty), subs[0]);
    assert st1 == ScalarState([10, 0], true, [Some((Vibrate, 10)), None]);
    assert ScalarStep(fs, st1, subs[1]) == st1;
    assert st1.result[0].Some?;
  }

  /* The rotation loop writes the cells of the feature at the subcommand's
     index in the whole device. With a vibrator before a rotator: */

  /** The vibrator at 0.5 on a fresh manager: cell 0 becomes 10. */
  lemma MixedDeviceScalarCall()
    ensures UpdateScalarSpec(VibratorThenRotator(), [0, 0], false, [ScalarSubcommand(0, 0.5, Vibrate)], false)
      == ScalarOutcome(Success([Some((Vibrate, 10))]), [10, 0], true)
  {
    var fs := VibratorThenRotator();
    var subs := [ScalarSubcommand(0, 0.5, Vibrate)];
    StepValueExamples();
    var one: seq<Option<(ActuatorType, U32)>> := [None];
    assert seq(1, _ => None) == one;
    assert ScalarPass(fs, ScalarState([0, 0], false, one), subs, 1)
      == ScalarStep(fs, ScalarState([0, 0], false, one), subs[0])
      == ScalarState([10, 0], true, [Some((Vibrate, 10))]);
    assert [Some((Vibrate, 10))][0].Some?;
  }

  /** Rotator 0 at 0.75 clockwise: the speed lands in cell 0, the vibrator's,
      and the rotator's own cell 1 stays 0. */
  lemma MixedDeviceRotationCall()
    ensures UpdateRotationSpec(VibratorThenRotator(), [10, 0], [false, false], false, [RotationSubcommand(0, 0.75, true)], false)
      == RotationOutcome(Success([Some((15, true))]), [15, 0], [true, false], true)
  {
    var fs := VibratorThenRotator();
    var subs := [RotationSubcommand(0, 0.75, true)];
    StepValueExamples();
    var one: seq<Option<(U32, bool)>> := [None];
    assert seq(1, _ => None) == one;
    assert RotationPass(fs, RotationState([10, 0], [false, false], false, one), subs, 1)
      == RotationStep(fs, RotationState([10, 0], [false, false], false, one), subs[0])
      == RotationState([15, 0], [true, false], true, [Some((15, true))]);
  }

  /** The vibrator at 0.75 afterwards is suppressed, since cell 0 already holds
      15, although the vibrator was last set to 10. */
  lemma MixedDeviceSuppressedScalarCall()
    ensures UpdateScalarSpec(VibratorThenRotator(), [15, 0], true, [ScalarSubcommand(0, 0.75, Vibrate)], false)
      == ScalarOutcome(Success([]), [15, 0], true)
  {
    var fs := VibratorThenRotator();
    var subs := [ScalarSubcommand(0, 0.75, Vibrate)];
    StepValueExamples();
    var one: seq<Option<(ActuatorType, U32)>> := [None];
    assert seq(1, _ => None) == one;
    var st := ScalarState([15, 0], true, one);
    assert ScalarPass(fs, st, subs, 1) == ScalarStep(fs, st, subs[0]);
    assert ScalarStep(fs, st, subs[0]) == st;
  }
}
