/** The LiboShark protocol (`server/device/protocol/libo_shark.rs`): the
    two motor speeds the command manager produced are packed into a single
    byte written to the `Tx` endpoint. Bytes are integers in [0, 256) and the
    `u8` operations the source uses are written out: truncation, a left
    shift that drops the bits it pushes out, and bitwise OR. */
module LiboShark {
  import opened Wrappers
  import opened MessageAttributes

  /** A `u8`. */
  type Byte = b: int | 0 <= b < 256

  /** `HardwareWriteCmd`: bytes for one endpoint, and whether the write waits
      for a response. */
  datatype HardwareWriteCmd = HardwareWriteCmd(endpoint: Endpoint, data: seq<Byte>, writeWithResponse: bool)

  /** One slot per scalar feature: the actuator type and the step value, or
      None when the slot is unchanged. */
  type ScalarSlots = seq<Option<(ActuatorType, U32)>>

  /** Rust's `speed as u8`: the low eight bits of a `u32`. */
  function AsU8(speed: U32): Byte
  {
    speed % 256
  }

  /** A `u8` shifted left by four: only the low nibble survives, moved into
      the high nibble. */
  function ShiftLeft4(b: Byte): (r: Byte)
    ensures r == 16 * (b % 16)
  {
    ShiftedByte(b);
    (b * 16) % 256
  }

  lemma ShiftedByte(b: Byte)
    ensures (b * 16) % 256 == 16 * (b % 16)
  {
    var q, s := b / 16, b % 16;
    assert b * 16 == 256 * q + 16 * s;
    ModOfSplit256(b * 16, q, 16 * s);
  }

  /** Bitwise OR of two naturals, bit by bit from the lowest. */
  function BitOr(a: nat, b: nat): nat
    decreases a + b
  {
    if a == 0 then b
    else if b == 0 then a
    else 2 * BitOr(a / 2, b / 2) + (if a % 2 == 1 || b % 2 == 1 then 1 else 0)
  }

  function Pow2(k: nat): nat
  {
    if k == 0 then 1 else 2 * Pow2(k - 1)
  }

  /** OR never sets a bit above the operands' width. */
  lemma {:induction false} BitOrBelow(a: nat, b: nat, k: nat)
    requires a < Pow2(k) && b < Pow2(k)
    ensures BitOr(a, b) < Pow2(k)
    decreases k
  {
    if a != 0 && b != 0 {
      assert k > 0;
      BitOrBelow(a / 2, b / 2, k - 1);
    }
  }

  /** `|` on two `u8`: a byte again. */
  function Or8(a: Byte, b: Byte): (r: Byte)
    ensures a == 0 ==> r == b
    ensures b == 0 ==> r == a
  {
    assert Pow2(8) == 256;
    BitOrBelow(a, b, 8);
    BitOr(a, b)
  }

  /** Slot 0 shifted into the high nibble. */
  function HighPart(cmds: ScalarSlots): Byte
    requires |cmds| >= 1
  {
    if cmds[0].Some? then ShiftLeft4(AsU8(cmds[0].value.1)) else 0
  }

  /** Slot 1 as it is OR-ed in: all eight bits, not only the low nibble. */
  function LowPart(cmds: ScalarSlots): Byte
    requires |cmds| >= 2
  {
    if cmds[1].Some? then AsU8(cmds[1].value.1) else 0
  }

  /** The byte `handle_scalar_cmd` writes. When slot 1 fits in a nibble the
      two parts do not overlap and the byte is their sum; an empty slot 1
      leaves slot 0's part alone. */
  function SpeedByte(cmds: ScalarSlots): (r: Byte)
    requires |cmds| >= 2
    ensures LowPart(cmds) < 16 ==> r == HighPart(cmds) + LowPart(cmds)
    ensures cmds[1].None? ==> r == HighPart(cmds)
  {
    var h, l := HighPart(cmds), LowPart(cmds);
    assert l < 16 ==> BitOr(h, l) == h + l by {
      if l < 16 {
        assert h == 16 * (h / 16);
        NibbleOr(h / 16, l);
      }
    }
    Or8(h, l)
  }

  /** `handle_scalar_cmd`: start from zero and OR in the speed of each of the
      first two slots that is present. `cmds[0]` and `cmds[1]` panic on a
      shorter slice, which is `None` here. */
  method HandleScalarCmd(cmds: ScalarSlots) returns (r: Option<Result<seq<HardwareWriteCmd>, ()>>)
    ensures r.None? <==> |cmds| < 2
    ensures r.Some? ==> r.value.Success? && |r.value.value| == 1
    ensures r.Some? ==>
      var w := r.value.value[0];
      w.endpoint == Tx && !w.writeWithResponse && w.data == [SpeedByte(cmds)]
  {
    if |cmds| == 0 {
      return None;
    }
    var data: Byte := 0;
    if cmds[0].Some? {
      data := Or8(data, ShiftLeft4(AsU8(cmds[0].value.1)));
    }
    if |cmds| == 1 {
      return None;
    }
    if cmds[1].Some? {
      data := Or8(data, AsU8(cmds[1].value.1));
    }
    r := Some(Success([HardwareWriteCmd(Tx, [data], false)]));
  }

  /** The reading the packing is meant for: high nibble from slot 0, low
      nibble from slot 1. */
  function Unpack(b: Byte): (r: (int, int))
    ensures 0 <= r.0 < 16 && 0 <= r.1 < 16
    ensures b == 16 * r.0 + r.1
  {
    (b / 16, b % 16)
  }

  /** `a` has its lowest `k` bits clear. */
  predicate LowBitsClear(a: nat, k: nat)
  {
    k == 0 || (a % 2 == 0 && LowBitsClear(a / 2, k - 1))
  }

  /** OR of a number whose low `k` bits are clear with one below `2^k`: the
      bits do not overlap, so the OR is the sum. */
  lemma {:induction false} DisjointOr(a: nat, l: nat, k: nat)
    requires LowBitsClear(a, k) && l < Pow2(k)
    ensures BitOr(a, l) == a + l
    decreases k
  {
    if k == 0 {
      assert l == 0;
    } else if a != 0 && l != 0 {
      DisjointOr(a / 2, l / 2, k - 1);
      assert BitOr(a, l) == 2 * BitOr(a / 2, l / 2) + l % 2;
    }
  }

  /** A high nibble and a low nibble do not overlap: their OR is their sum. */
  lemma NibbleOr(h: nat, l: nat)
    requires h < 16 && l < 16
    ensures BitOr(16 * h, l) == 16 * h + l
  {
    assert LowBitsClear(2 * h, 1);
    assert LowBitsClear(4 * h, 2);
    assert LowBitsClear(8 * h, 3);
    assert LowBitsClear(16 * h, 4);
    assert Pow2(4) == 16;
    DisjointOr(16 * h, l, 4);
  }

  /** Round trip: speeds that fit in a nibble come back out of the byte;
      a missing slot reads as speed 0. */
  lemma SpeedByteRoundTrip(cmds: ScalarSlots)
    requires |cmds| >= 2
    requires cmds[0].Some? ==> cmds[0].value.1 < 16
    requires cmds[1].Some? ==> cmds[1].value.1 < 16
    ensures Unpack(SpeedByte(cmds)).0 == (if cmds[0].Some? then cmds[0].value.1 else 0)
    ensures Unpack(SpeedByte(cmds)).1 == (if cmds[1].Some? then cmds[1].value.1 else 0)
  {
    var h := if cmds[0].Some? then cmds[0].value.1 else 0;
    var l := if cmds[1].Some? then cmds[1].value.1 else 0;
    assert HighPart(cmds) == 16 * h;
    assert LowPart(cmds) == l;
    NibbleOr(h, l);
  }

  /** Slot 0 keeps only its low four bits: a speed of 16 or more wraps in
      the high nibble. */
  lemma HighNibbleWraps(cmds: ScalarSlots)
    requires |cmds| >= 2 && cmds[0].Some? && cmds[1].None?
    ensures Unpack(SpeedByte(cmds)).0 == cmds[0].value.1 % 16
    ensures Unpack(SpeedByte(cmds)).1 == 0
  {
    var speed := cmds[0].value.1;
    ModOfMod(speed);
    assert SpeedByte(cmds) == 16 * (speed % 16);
  }

  lemma ModOfSplit16(n: int, q: int, r: int)
    requires 0 <= r < 16 && n == 16 * q + r
    ensures n % 16 == r
  {
  }

  lemma ModOfSplit256(n: int, q: int, r: int)
    requires 0 <= r < 256 && n == 256 * q + r
    ensures n % 256 == r
  {
  }

  lemma ModOfMod(n: nat)
    ensures (n % 256) % 16 == n % 16
  {
    var q := n / 256;
    var s := n % 256;
    assert n == 16 * (16 * q + s / 16) + s % 16;
    ModOfSplit16(n, 16 * q + s / 16, s % 16);
  }

  /** Slot 1 is not masked: a slot-1 speed of 16 or more spills into the high
      nibble, so speeds (1, 0) and (0, 16) give the same byte. */
  lemma LowSlotSpills()
    ensures SpeedByte([Some((Vibrate, 1)), Some((Vibrate, 0))]) == 0x10
    ensures SpeedByte([Some((Vibrate, 0)), Some((Vibrate, 16))]) == 0x10
  {
  }

  /** Only the speeds of the first two slots matter: the actuator types and
      any further slots are ignored. */
  lemma SpeedByteIgnoresTypesAndTail(a: ScalarSlots, b: ScalarSlots)
    requires |a| >= 2 && |b| >= 2
    requires forall i :: 0 <= i < 2 ==> a[i].Some? == b[i].Some?
    requires forall i :: 0 <= i < 2 && a[i].Some? ==> a[i].value.1 == b[i].value.1
    ensures SpeedByte(a) == SpeedByte(b)
  {
    assert a[0].Some? == b[0].Some? && a[1].Some? == b[1].Some?;
  }

  /** The device test's bytes: two motors at step 2 write 0x22; step 3 on
      the second motor then gives 0x23; the stop command, which sets both
      cells back to 0, writes 0x00. Two empty slots also give 0x00. */
  lemma SpeedByteExamples()
    ensures SpeedByte([Some((Vibrate, 2)), Some((Vibrate, 2))]) == 0x22
    ensures SpeedByte([Some((Vibrate, 2)), Some((Vibrate, 3))]) == 0x23
    ensures SpeedByte([Some((Vibrate, 0)), Some((Vibrate, 0))]) == 0x00
    ensures SpeedByte([None, None]) == 0x00
  {
    var both2 := [Some((Vibrate, 2)), Some((Vibrate, 2))];
    var then3 := [Some((Vibrate, 2)), Some((Vibrate, 3))];
    var stop := [Some((Vibrate, 0)), Some((Vibrate, 0))];
    assert HighPart(both2) == 32 && LowPart(both2) == 2;
    assert HighPart(then3) == 32 && LowPart(then3) == 3;
    assert HighPart(stop) == 0 && LowPart(stop) == 0;
  }
}
