/**
 * Wire format of the science console's CAN frames: the 11-bit command
 * arbitration ID, the "set PWM" payload and the "move carousel" payload.
 * Everything here is pure.
 */
module Codec {

  /** Number of carousel slots; a cup index lies in [0, N_SLOTS). */
  const N_SLOTS: int := 12

  const MOTOR_GROUP: int := 0x4
  const SCIENCE_GROUP: int := 0x7
  const SCIENCE_SERIAL: int := 0x1
  const DRILL_ARM_SERIAL: int := 0xC
  const DRILL_SERIAL: int := 0xD

  /**
   * The two motor powers, already quantized as round((2^15 - 1) * power):
   * 0.5 gives 16383.5, which rounds half to even to 16384; 1.0 gives 32767.
   */
  const DRILL_ARM_POWER: int := 16384
  const DRILL_POWER: int := 32767

  /** Resend period, in seconds, that set_motor_power asks of every periodic motor command. */
  const RESEND_PERIOD: real := 0.5

  /** Command tags: first payload byte. */
  const PWM_TAG: int := 0x3
  const MOVE_TAG: int := 0xC

  /** A CAN message as the source builds it. */
  datatype Frame = Frame(id: int, extended: bool, data: seq<int>)

  predicate IsByte(x: int) {
    0 <= x < 256
  }

  /** An 11-bit ID with the command-family marker (bit 10) set. */
  predicate IsCommandId(id: int) {
    1024 <= id < 2048
  }

  /** Bits 9-6 of an ID. */
  function GroupOf(id: int): (group: int) {
    (id / 64) % 16
  }

  /** Bits 5-0 of an ID. */
  function SerialOf(id: int): (serial: int) {
    id % 64
  }

  /**
   * (1 << 10) | (group << 6) | serial. The source asserts that group fits
   * in 4 bits and serial in 6 bits before packing; the three fields then
   * occupy disjoint bits, so the OR is a sum of place values.
   */
  function CanId(group: int, serial: int): (id: int)
    requires 0 <= group < 16 && 0 <= serial < 64
    ensures IsCommandId(id)
    ensures GroupOf(id) == group && SerialOf(id) == serial
  {
    1024 + group * 64 + serial
  }

  /** Every command ID is the packing of its own group and serial. */
  lemma CanIdOfFields(id: int)
    requires IsCommandId(id)
    ensures CanId(GroupOf(id), SerialOf(id)) == id
  {
    var g, s := GroupOf(id), SerialOf(id);
    var q := id / 64;
    assert id == 64 * q + s;
    assert 16 <= q < 32;
    assert g == q - 16;
    var packed := CanId(g, s);
    assert packed / 64 == 16 + g by {
      assert packed == 64 * (packed / 64) + s;
    }
  }

  /** Distinct (group, serial) pairs never share an ID. */
  lemma CanIdInjective(g1: int, s1: int, g2: int, s2: int)
    requires 0 <= g1 < 16 && 0 <= s1 < 64
    requires 0 <= g2 < 16 && 0 <= s2 < 64
    ensures CanId(g1, s1) == CanId(g2, s2) <==> g1 == g2 && s1 == s2
  {
  }

  /** The value whose big-endian two's-complement 16-bit encoding is hi, lo. */
  function Signed16(hi: int, lo: int): (value: int)
    requires IsByte(hi) && IsByte(lo)
  {
    var u := hi * 256 + lo;
    if u < 0x8000 then u else u - 0x10000
  }

  /**
   * [0x3, 0xFF & (p >> 8), 0xFF & p]. Python's >> and & 0xFF floor, and so
   * do Dafny's / and % by a positive divisor.
   */
  function PwmPayload(power: int): (data: seq<int>)
    ensures |data| == 3 && data[0] == PWM_TAG
    ensures IsByte(data[1]) && IsByte(data[2])
  {
    [PWM_TAG, (power / 256) % 256, power % 256]
  }

  /** Every power that fits in a signed 16-bit word is recovered from bytes 1-2. */
  lemma PwmPayloadRoundTrip(power: int)
    requires -0x8000 <= power < 0x8000
    ensures Signed16(PwmPayload(power)[1], PwmPayload(power)[2]) == power
  {
    var data := PwmPayload(power);
    var q := power / 256;
    assert power == 256 * q + data[2];
    assert -128 <= q < 128;
    if q >= 0 {
      assert data[1] == q;
    } else {
      assert data[1] == q + 256;
    }
  }

  /** The payload only sees the low 16 bits: out-of-range powers alias in-range ones. */
  lemma PwmPayloadWraps(power: int)
    ensures PwmPayload(power + 0x10000) == PwmPayload(power)
  {
    var q := power / 256;
    assert power == 256 * q + power % 256;
    assert power + 0x10000 == 256 * (q + 256) + power % 256;
    assert (power + 0x10000) / 256 == q + 256;
  }

  /** The frame that sets the PWM of motor `serial` in the motor group. */
  function PwmFrame(serial: int, power: int): (f: Frame)
    requires 0 <= serial < 64
  {
    Frame(CanId(MOTOR_GROUP, serial), false, PwmPayload(power))
  }

  /** The frame that moves the carousel so that the first cup sits at `slot`. */
  function MoveFrame(slot: int): (f: Frame)
    requires IsByte(slot)
  {
    Frame(CanId(SCIENCE_GROUP, SCIENCE_SERIAL), false, [MOVE_TAG, slot])
  }

  /** The start-up frame sent to motor `serial`. */
  function InitFrame(serial: int): (f: Frame)
    requires 0 <= serial < 64
  {
    Frame(CanId(MOTOR_GROUP, serial), false, [0x0, 0x0])
  }

  /** A PWM frame addresses exactly its motor, with a standard ID. */
  lemma PwmFrameAddress(serial: int, power: int)
    requires 0 <= serial < 64
    ensures var f := PwmFrame(serial, power);
      !f.extended && IsCommandId(f.id) && GroupOf(f.id) == MOTOR_GROUP && SerialOf(f.id) == serial
  {
  }

  /**
   * A move frame goes to the science controller and can never be mistaken
   * for a motor frame: its ID differs from every motor's and its tag from PWM.
   */
  lemma MoveFrameAddress(slot: int, serial: int, power: int)
    requires IsByte(slot) && 0 <= serial < 64
    ensures var f := MoveFrame(slot);
      && !f.extended && IsCommandId(f.id)
      && GroupOf(f.id) == SCIENCE_GROUP && SerialOf(f.id) == SCIENCE_SERIAL
      && f.id != PwmFrame(serial, power).id
      && f.data[0] != PwmFrame(serial, power).data[0]
      && |f.data| == 2 && f.data[1] == slot
  {
    CanIdInjective(SCIENCE_GROUP, SCIENCE_SERIAL, MOTOR_GROUP, serial);
  }

}
