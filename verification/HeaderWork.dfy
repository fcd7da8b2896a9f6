/** Header fields and the proof-of-work check (headers/chain.go). */
module HeaderWork {
  import opened Bytes

  const HEADER_SIZE := 80

  type Raw = b: Bytes | |b| == HEADER_SIZE witness seq(80, _ => 0)

  function PrevOf(raw: Raw): (r: Hash) { Hash(raw[4..36]) }

  function RootOf(raw: Raw): (r: Hash) { Hash(raw[36..68]) }

  /** The compact target, an unsigned little-endian 32-bit field. */
  function BitsOf(raw: Raw): nat { LittleEndian(raw[72..76]) }

  /** A compact target expanded; None for a zero mantissa. The mantissa is the
      low 23 bits, so the sign bit is ignored. */
  function CompactToBig(bits: nat): Option<nat>
  {
    Expand(bits / 0x100_0000, bits % 0x80_0000)
  }

  function Expand(exponent: nat, mantissa: nat): Option<nat>
  {
    if mantissa == 0 then None
    else if exponent <= 3 then Some(mantissa / Power(256, 3 - exponent))
    else Some(mantissa * Power(256, exponent - 3))
  }

  /** The byte-reversed copy of s. */
  function Reversed(s: Bytes): (r: Bytes)
    ensures |r| == |s|
    ensures forall i :: 0 <= i < |s| ==> r[i] == s[|s| - 1 - i]
  {
    seq(|s|, i requires 0 <= i < |s| => s[|s| - 1 - i])
  }

  /** The number proof of work compares: the hash is little-endian on the wire. */
  method WorkValue(hash: Hash) returns (v: nat)
    ensures v == LittleEndian(hash.bytes)
  {
    var n := |hash.bytes|;
    var be := new Byte[n];
    for i := 0 to n
      invariant forall k :: 0 <= k < i ==> be[k] == hash.bytes[n - 1 - k]
    {
      be[i] := hash.bytes[n - 1 - i];
    }
    v := BigEndian(be[..]);
    assert be[..] == Reversed(hash.bytes);
    ReversedEndian(hash.bytes);
  }

  lemma {:induction false} ReversedEndian(s: Bytes)
    ensures BigEndian(Reversed(s)) == LittleEndian(s)
  {
    if s == [] {
    } else {
      ReversedEndian(s[1..]);
      assert Reversed(s)[..|s| - 1] == Reversed(s[1..]);
    }
  }

  /** checkWork without its error text: the declared target is well formed, no
      easier than the floor when one is set, and met by the hash. */
  predicate MeetsWork(hash: Hash, bits: nat, minBits: nat)
  {
    var target := CompactToBig(bits);
    && target.Some?
    && (minBits != 0 ==>
          var floor := CompactToBig(minBits);
          floor.Some? && target.value <= floor.value)
    && LittleEndian(hash.bytes) <= target.value
  }

  /** checkWork step by step, as the source orders it. */
  method CheckWork(hash: Hash, bits: nat, minBits: nat) returns (ok: bool)
    ensures ok <==> MeetsWork(hash, bits, minBits)
    ensures ok <==> ProvesWork(hash, bits, minBits)
  {
    MeetsWorkExactly(hash, bits, minBits);
    var target := CompactToBig(bits);
    if target.None? {
      return false;
    }
    if minBits != 0 {
      var floor := CompactToBig(minBits);
      if floor.None? || target.value > floor.value {
        return false;
      }
    }
    var work := WorkValue(hash);
    return work <= target.value;
  }

  // ------------------------------------------------ what the fields and targets mean

  /** t is the target that compact bits stand for: the mantissa, their low 23 bits, times
      two to the 8 * (exponent - 3), rounded down; the exponent is their top byte. A zero
      mantissa stands for none. */
  predicate IsTarget(bits: nat, t: nat)
  {
    var e, m := bits / 0x100_0000, bits % 0x80_0000;
    && m != 0
    && (e >= 3 ==> t * Two(24) == m * Two(8 * e))
    && (e < 3 ==> t * Two(8 * (3 - e)) <= m < (t + 1) * Two(8 * (3 - e)))
  }

  lemma {:induction false} TwoAdds(a: nat, b: nat)
    ensures Two(a + b) == Two(a) * Two(b)
  {
    if a == 0 {
    } else {
      TwoAdds(a - 1, b);
    }
  }

  lemma {:induction false} TwoPositive(n: nat)
    ensures Two(n) > 0
  {
    if n == 0 {
    } else {
      TwoPositive(n - 1);
    }
  }

  lemma ExpandUp(e: nat, m: nat)
    requires e >= 3 && m != 0
    ensures Expand(e, m).Some? && Expand(e, m).value * Two(24) == m * Two(8 * e)
  {
    hide Power, Two;
    PowerIsTwo(e - 3);
    TwoAdds(24, 8 * (e - 3));
    assert Power(256, 0) == 1 by {
      PowerZero();
    }
    Scale(m, Two(8 * (e - 3)), Two(24), m * Power(256, e - 3));
  }

  lemma PowerZero()
    ensures Power(256, 0) == 1
  {
  }

  lemma ExpandDown(e: nat, m: nat)
    requires e < 3 && m != 0
    ensures Expand(e, m).Some?
    ensures Expand(e, m).value * Two(8 * (3 - e)) <= m < (Expand(e, m).value + 1) * Two(8 * (3 - e))
  {
    hide Power, Two;
    PowerIsTwo(3 - e);
    FloorDivides(m, Power(256, 3 - e));
  }

  /** compactToBig expands every compact target to the number it stands for, and only
      malformed ones to nothing. */
  lemma CompactExact(bits: nat)
    ensures CompactToBig(bits).Some? <==> bits % 0x80_0000 != 0
    ensures CompactToBig(bits).Some? ==> IsTarget(bits, CompactToBig(bits).value)
  {
    hide Two;
    var e, m := bits / 0x100_0000, bits % 0x80_0000;
    if m != 0 {
      if e >= 3 {
        ExpandUp(e, m);
      } else {
        ExpandDown(e, m);
      }
      hide Expand;
      assert CompactToBig(bits) == Expand(e, m);
    }
  }

  lemma Scale(m: nat, a: nat, b: nat, t: nat)
    requires t == m * a
    ensures t * b == m * (b * a)
  {
  }

  lemma FloorDivides(m: nat, d: nat)
    requires d > 0
    ensures (m / d) * d <= m < (m / d + 1) * d
  {
  }

  lemma TargetUnique(bits: nat, t: nat, t': nat)
    requires IsTarget(bits, t) && IsTarget(bits, t')
    ensures t == t'
  {
    var e := bits / 0x100_0000;
    if e >= 3 {
      TwoPositive(24);
      Cancel(t, t', Two(24));
    } else {
      TwoPositive(8 * (3 - e));
      SameFloor(t, t', Two(8 * (3 - e)), bits % 0x80_0000);
    }
  }

  lemma TimesMonotone(a: int, b: int, d: nat)
    requires a <= b
    ensures a * d <= b * d
  {
  }

  lemma Cancel(a: nat, b: nat, d: nat)
    requires d > 0 && a * d == b * d
    ensures a == b
  {
    if a < b {
      TimesMonotone(a + 1, b, d);
    } else if b < a {
      TimesMonotone(b + 1, a, d);
    }
  }

  lemma SameFloor(a: nat, b: nat, d: nat, m: nat)
    requires d > 0 && a * d <= m < (a + 1) * d && b * d <= m < (b + 1) * d
    ensures a == b
  {
    if a < b {
      TimesMonotone(a + 1, b, d);
    } else if b < a {
      TimesMonotone(b + 1, a, d);
    }
  }

  /** Difficulty one, the target of Bitcoin's first blocks. */
  lemma DifficultyOne()
    ensures CompactToBig(0x1d00_ffff) == Some(0xffff * Two(208))
  {
    hide Power, Two;
    assert CompactToBig(0x1d00_ffff) == Expand(29, 0xffff);
    PowerIsTwo(26);
  }

  /** The work check in terms of the numbers the compact fields stand for. */
  ghost predicate ProvesWork(hash: Hash, bits: nat, minBits: nat)
  {
    exists t: nat ::
      && IsTarget(bits, t) && LittleEndian(hash.bytes) <= t
      && (minBits != 0 ==> exists floor: nat :: IsTarget(minBits, floor) && t <= floor)
  }

  lemma MeetsWorkExactly(hash: Hash, bits: nat, minBits: nat)
    ensures MeetsWork(hash, bits, minBits) <==> ProvesWork(hash, bits, minBits)
  {
    hide IsTarget, CompactToBig;
    CompactExact(bits);
    CompactExact(minBits);
    if ProvesWork(hash, bits, minBits) {
      var t: nat :| IsTarget(bits, t) && LittleEndian(hash.bytes) <= t
                    && (minBits != 0 ==> exists floor: nat :: IsTarget(minBits, floor) && t <= floor);
      TargetMalformed(bits, t);
      TargetUnique(bits, t, CompactToBig(bits).value);
      if minBits != 0 {
        var floor: nat :| IsTarget(minBits, floor) && t <= floor;
        TargetMalformed(minBits, floor);
        TargetUnique(minBits, floor, CompactToBig(minBits).value);
      }
    }
  }

  lemma TargetMalformed(bits: nat, t: nat)
    requires IsTarget(bits, t)
    ensures bits % 0x80_0000 != 0
  {
  }

  /** The bytes of a header: version, previous hash, merkle root, time, bits and nonce. */
  function HeaderBytes(version: nat, prev: Hash, root: Hash, time: nat, bits: nat, nonce: nat): Bytes
  {
    Digits(version, 4) + prev.bytes + root.bytes + Digits(time, 4) + Digits(bits, 4) + Digits(nonce, 4)
  }

  /** A header built from its fields reads back its previous hash, root and bits. */
  lemma FieldsReadBack(version: nat, prev: Hash, root: Hash, time: nat, bits: nat, nonce: nat)
    requires |prev.bytes| == 32 && |root.bytes| == 32 && bits < 0x1_0000_0000
    ensures var raw := HeaderBytes(version, prev, root, time, bits, nonce);
            |raw| == HEADER_SIZE && PrevOf(raw) == prev && RootOf(raw) == root && BitsOf(raw) == bits
  {
    hide Digits;
    var raw := HeaderBytes(version, prev, root, time, bits, nonce);
    assert raw[4..36] == prev.bytes;
    assert raw[36..68] == root.bytes;
    assert raw[72..76] == Digits(bits, 4);
    assert Power(256, 4) == 0x1_0000_0000;
    DigitsRead(bits, 4);
  }
}
