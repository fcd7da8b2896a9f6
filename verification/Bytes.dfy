/** Bytes, 32-byte hashes and the little- and big-endian numbers read from them. */
module Bytes {

  type Byte = b: int | 0 <= b < 256

  type Bytes = seq<Byte>

  /** chainhash.Hash. Its 32-byte length is never relied on. */
  datatype Hash = Hash(bytes: Bytes)

  /** The zero value of chainhash.Hash. */
  const ZERO_HASH: Hash := Hash(
    [0, 0, 0, 0, 0, 0, 0, 0, 0, 0, 0, 0, 0, 0, 0, 0, 0, 0, 0, 0, 0, 0, 0, 0, 0, 0, 0, 0, 0, 0, 0, 0])

  datatype Option<+T> = None | Some(value: T)

  /** The number whose least significant byte comes first. */
  function LittleEndian(b: Bytes): nat
  {
    if b == [] then 0 else b[0] + 256 * LittleEndian(b[1..])
  }

  /** The number whose most significant byte comes first. */
  function BigEndian(b: Bytes): nat
  {
    if b == [] then 0 else 256 * BigEndian(b[..|b| - 1]) + b[|b| - 1]
  }

  function Power(base: nat, exponent: nat): (r: nat)
    ensures base > 0 ==> r > 0
  {
    if exponent == 0 then 1 else base * Power(base, exponent - 1)
  }

  /** n written in w base-256 digits, least significant first. */
  function Digits(n: nat, w: nat): (r: Bytes)
    ensures |r| == w
  {
    if w == 0 then [] else [n % 256] + Digits(n / 256, w - 1)
  }

  /** Writing and reading a number are inverse: every number that fits in w digits reads
      back, and every w bytes are the digits of the number they read as. */
  lemma {:induction false} DigitsRead(n: nat, w: nat)
    requires n < Power(256, w)
    ensures LittleEndian(Digits(n, w)) == n
  {
    if w == 0 {
    } else {
      var r := Digits(n / 256, w - 1);
      DigitsRead(n / 256, w - 1);
      assert Digits(n, w)[1..] == r;
    }
  }

  lemma {:induction false} ReadDigits(b: Bytes)
    ensures LittleEndian(b) < Power(256, |b|) && Digits(LittleEndian(b), |b|) == b
  {
    if b == [] {
    } else {
      ReadDigits(b[1..]);
      var n := LittleEndian(b[1..]);
      assert (b[0] + 256 * n) % 256 == b[0] && (b[0] + 256 * n) / 256 == n;
      assert b == [b[0]] + b[1..];
    }
  }

  /** Two to the n. */
  function Two(n: nat): nat
  {
    if n == 0 then 1 else 2 * Two(n - 1)
  }

  lemma {:induction false} PowerIsTwo(e: nat)
    ensures Power(256, e) == Two(8 * e)
  {
    if e == 0 {
    } else {
      PowerIsTwo(e - 1);
      EightTwos(8 * (e - 1));
    }
  }

  lemma EightTwos(n: nat)
    ensures Two(n + 8) == 256 * Two(n)
  {
    assert Two(n + 8) == 2 * Two(n + 7) && Two(n + 7) == 2 * Two(n + 6) && Two(n + 6) == 2 * Two(n + 5);
    assert Two(n + 5) == 2 * Two(n + 4) && Two(n + 4) == 2 * Two(n + 3) && Two(n + 3) == 2 * Two(n + 2);
    assert Two(n + 2) == 2 * Two(n + 1) && Two(n + 1) == 2 * Two(n);
  }
}
