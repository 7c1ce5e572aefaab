/**
 * Decoding of holding registers into snapshot values. A failed read yields the
 * previous value, which is how the source's reference parameters behave.
 */
module RegisterDecode {
  import opened Words
  import opened Bus

  /** The divisors the register map uses. */
  type Scale = c: int | c == 1 || c == 10 || c == 100 witness 1

  /** `(float)raw / coefficient`, over the reals. */
  function Scaled(raw: int, c: Scale): real {
    raw as real / c as real
  }

  /** The scaled value times the coefficient is the raw value; a natural raw value scales to a non-negative one. */
  lemma ScaledMeaning(raw: int, c: Scale)
    ensures Scaled(raw, c) * (c as real) == raw as real
    ensures raw >= 0 ==> Scaled(raw, c) >= 0.0
  {
  }

  /** Scaling is strictly increasing, so distinct raw values stay distinct. */
  lemma ScaledMonotone(a: int, b: int, c: Scale)
    ensures a < b <==> Scaled(a, c) < Scaled(b, c)
  {
    var ra, rb := Scaled(a, c), Scaled(b, c);
    ScaledMeaning(a, c);
    ScaledMeaning(b, c);
    assert (rb - ra) * (c as real) == (b - a) as real;
  }

  /** `read32BitValue`: the assembled word on success, else the previous value. */
  function Raw32(reply: Reply, previous: uint32): uint32 {
    if ReadOk(reply, 2) then Word32(reply.words[0], reply.words[1]) else previous
  }

  /** `read16BitValue`: the word on success, else the previous value. */
  function Raw16(reply: Reply, previous: uint16): uint16 {
    if ReadOk(reply, 1) then reply.words[0] else previous
  }

  /** `readFloat32`: the assembled word divided by the coefficient, else the previous value. */
  function Float32(reply: Reply, c: Scale, previous: real): real {
    if ReadOk(reply, 2) then Scaled(Word32(reply.words[0], reply.words[1]), c) else previous
  }

  /** `readFloat16`: the word divided by the coefficient, else the previous value. */
  function Float16(reply: Reply, c: Scale, previous: real): real {
    if ReadOk(reply, 1) then Scaled(reply.words[0], c) else previous
  }

  /**
   * A successful 32-bit read yields the high word times 2^16 plus the low word and
   * keeps both words recoverable; a failed one leaves the previous value.
   */
  lemma Raw32Meaning(reply: Reply, previous: uint32)
    ensures ReadOk(reply, 2) ==> Raw32(reply, previous) == (reply.words[0] as int) * 0x1_0000 + reply.words[1]
    ensures ReadOk(reply, 2) ==> Raw32(reply, previous) / 0x1_0000 == reply.words[0] &&
                                 Raw32(reply, previous) % 0x1_0000 == reply.words[1]
    ensures !ReadOk(reply, 2) ==> Raw32(reply, previous) == previous
  {
    if ReadOk(reply, 2) {
      Word32Halves(reply.words[0], reply.words[1]);
    }
  }

  /** A decoded float times its coefficient is the raw register value; a failed read leaves the previous value. */
  lemma FloatMeaning(reply: Reply, c: Scale, previous: real)
    ensures ReadOk(reply, 2) ==>
              Float32(reply, c, previous) * (c as real) == ((reply.words[0] as int) * 0x1_0000 + reply.words[1]) as real
    ensures !ReadOk(reply, 2) ==> Float32(reply, c, previous) == previous
    ensures ReadOk(reply, 1) ==> Float16(reply, c, previous) * (c as real) == reply.words[0] as real
    ensures !ReadOk(reply, 1) ==> Float16(reply, c, previous) == previous
  {
    if ReadOk(reply, 2) {
      ScaledMeaning(Word32(reply.words[0], reply.words[1]), c);
    }
    if ReadOk(reply, 1) {
      ScaledMeaning(reply.words[0], c);
    }
  }

  /** A decoded 32-bit quantity lies between 0 and (2^32 - 1) / scale. */
  lemma Float32Range(reply: Reply, c: Scale, previous: real)
    requires ReadOk(reply, 2)
    ensures 0.0 <= Float32(reply, c, previous) <= (0xFFFF_FFFF as real) / (c as real)
  {
    var raw := Word32(reply.words[0], reply.words[1]);
    ScaledMonotone(raw, 0xFFFF_FFFF, c);
  }

  /** The decoded 32-bit value determines both register words. */
  lemma Float32Injective(a: Reply, b: Reply, c: Scale, previous: real)
    requires ReadOk(a, 2) && ReadOk(b, 2)
    requires Float32(a, c, previous) == Float32(b, c, previous)
    ensures a.words == b.words
  {
    var ra, rb := Word32(a.words[0], a.words[1]), Word32(b.words[0], b.words[1]);
    ScaledMonotone(ra, rb, c);
    ScaledMonotone(rb, ra, c);
    Word32Injective(a.words[0], a.words[1], b.words[0], b.words[1]);
  }
}
