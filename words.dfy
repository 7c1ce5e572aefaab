/** Fixed-width integers of the ESP32 target and the register-word arithmetic built on them. */
module Words {

  type uint8 = x: int | 0 <= x < 0x100
  type uint16 = x: int | 0 <= x < 0x1_0000
  type uint32 = x: int | 0 <= x < 0x1_0000_0000

  /** The conventional optional value; `None` stands for a code that names no member. */
  datatype Option<+T> = None | Some(value: T)

  /** `((uint32_t)hi << 16) | lo`: two holding registers, high word first. */
  function Word32(hi: uint16, lo: uint16): uint32 {
    hi * 0x1_0000 + lo
  }

  /** The high word is the quotient by 2^16 and the low word the remainder. */
  lemma Word32Halves(hi: uint16, lo: uint16)
    ensures Word32(hi, lo) / 0x1_0000 == hi && Word32(hi, lo) % 0x1_0000 == lo
  {
  }

  function HighWord(v: uint32): uint16 { v / 0x1_0000 }

  function LowWord(v: uint32): uint16 { v % 0x1_0000 }

  /** Every 32-bit value is assembled from exactly one pair of words. */
  lemma Word32Split(v: uint32)
    ensures Word32(HighWord(v), LowWord(v)) == v
  {
  }

  lemma Word32Injective(h1: uint16, l1: uint16, h2: uint16, l2: uint16)
    ensures Word32(h1, l1) == Word32(h2, l2) ==> h1 == h2 && l1 == l2
  {
    Word32Halves(h1, l1);
    Word32Halves(h2, l2);
  }

  /**
   * The source assembles with a shift and a bitwise or; because the low word
   * occupies only the low 16 bits, that is the same as multiply-and-add.
   */
  lemma ShiftOrIsMultiplyAdd(hi: bv32, lo: bv32)
    requires hi < 0x1_0000 && lo < 0x1_0000
    ensures (hi << 16) | lo == hi * 0x1_0000 + lo
    ensures ((hi << 16) | lo) >> 16 == hi && ((hi << 16) | lo) & 0xFFFF == lo
  {
  }

  /** `x++` on a `uint8_t`: wraps from 255 to 0. */
  function Increment8(x: uint8): (r: uint8)
    ensures x < 0xFF ==> r == x + 1
    ensures x == 0xFF ==> r == 0
  {
    (x + 1) % 0x100
  }

  /** `now - last` on 32-bit `unsigned long`: arithmetic modulo 2^32. */
  function Elapsed32(now: uint32, last: uint32): (r: uint32)
    ensures now >= last ==> r == now - last
    ensures now < last ==> r == now + 0x1_0000_0000 - last
  {
    (now - last) % 0x1_0000_0000
  }

  /**
   * Across a rollover of the millisecond clock the wrapped difference is still the
   * real elapsed time, as long as less than 2^32 ms have passed.
   */
  lemma {:induction false} Elapsed32IsRealElapsed(t0: nat, t1: nat)
    requires t0 <= t1 < t0 + 0x1_0000_0000
    ensures Elapsed32(t1 % 0x1_0000_0000, t0 % 0x1_0000_0000) == t1 - t0
  {
    var q0, q1 := t0 / 0x1_0000_0000, t1 / 0x1_0000_0000;
    var r0, r1 := t0 % 0x1_0000_0000, t1 % 0x1_0000_0000;
    assert t0 == q0 * 0x1_0000_0000 + r0;
    assert t1 == q1 * 0x1_0000_0000 + r1;
    if r1 >= r0 {
      assert q1 == q0;
    } else {
      assert q1 == q0 + 1;
    }
  }
}
