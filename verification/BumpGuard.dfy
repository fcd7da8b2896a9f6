/**
  The BUMP bound checker of headers/bumpguard.go, and the recursive grammar of
  the binary encoding (BRC-74: levels, leaves, flags) it has to agree with.
*/
module BumpGuard {
  import opened Bytes

  const MAX_TREE_HEIGHT := 64
  const MIN_LEAF_BYTES := 2

  // ------------------------------------------------------------------ grammar

  /** The bytes after the prefix of a VarInt. */
  function Width(prefix: Byte): nat
  {
    if prefix == 0xFD then 2 else if prefix == 0xFE then 4 else if prefix == 0xFF then 8 else 0
  }

  /** The low bit of a flags byte: set on a duplicate. */
  predicate LowBit(flags: nat)
  {
    flags % 2 == 1
  }

  /** The w-byte little-endian number at p. */
  function NumberAt(b: Bytes, p: nat, w: nat): nat
    requires p + w <= |b|
    decreases w
  {
    if w == 0 then 0 else b[p] + 256 * NumberAt(b, p + 1, w - 1)
  }

  /** A number read, and the position after it. */
  datatype Reading = NoNumber | Reading(value: nat, next: nat)

  /** A Bitcoin VarInt at p. */
  function VarIntAt(b: Bytes, p: nat): (r: Reading)
    ensures r.Reading? ==> p < r.next <= |b|
  {
    if p >= |b| || p + 1 + Width(b[p]) > |b| then NoNumber
    else if Width(b[p]) == 0 then Reading(b[p], p + 1)
    else Reading(NumberAt(b, p + 1, Width(b[p])), p + 1 + Width(b[p]))
  }

  // Each nonterminal below gives the position after what it reads at p.

  /** An offset, a flags byte and, unless it is a duplicate, a 32-byte hash. */
  function LeafAt(b: Bytes, p: nat): (r: Option<nat>)
    ensures r.Some? ==> p + 2 <= r.value <= |b|
  {
    var offset := VarIntAt(b, p);
    if offset.NoNumber? || offset.next >= |b| then None
    else if LowBit(b[offset.next]) then Some(offset.next + 1)
    else if offset.next + 1 + 32 <= |b| then Some(offset.next + 1 + 32)
    else None
  }

  function LeavesAt(b: Bytes, p: nat, n: nat): (r: Option<nat>)
    requires p <= |b|
    ensures r.Some? ==> p + 2 * n <= r.value <= |b|
    decreases n
  {
    if n == 0 then Some(p)
    else if LeafAt(b, p).None? then None
    else LeavesAt(b, LeafAt(b, p).value, n - 1)
  }

  /** One level: a leaf count and that many leaves. */
  function LevelAt(b: Bytes, p: nat): (r: Option<nat>)
    ensures r.Some? ==> p < r.value <= |b|
  {
    var count := VarIntAt(b, p);
    if count.NoNumber? then None else LeavesAt(b, count.next, count.value)
  }

  function LevelsAt(b: Bytes, p: nat, n: nat): (r: Option<nat>)
    requires p <= |b|
    ensures r.Some? ==> p + n <= r.value <= |b|
    decreases n
  {
    if n == 0 then Some(p)
    else if LevelAt(b, p).None? then None
    else LevelsAt(b, LevelAt(b, p).value, n - 1)
  }

  /** A block height, a tree height of 1 (0 when flat is allowed) to 64, and the
      levels. */
  function BumpAt(b: Bytes, p: nat, flat: bool): (r: Option<nat>)
    ensures r.Some? ==> p + (if flat then 2 else 3) <= r.value <= |b|
  {
    var height := VarIntAt(b, p);
    if height.NoNumber? || height.next >= |b| || b[height.next] > MAX_TREE_HEIGHT then None
    else if b[height.next] == 0 && !flat then None
    else LevelsAt(b, height.next + 1, b[height.next])
  }

  function BumpsAt(b: Bytes, p: nat, n: nat, flat: bool): (r: Option<nat>)
    requires p <= |b|
    ensures r.Some? ==> p + (if flat then 2 * n else 3 * n) <= r.value <= |b|
    decreases n
  {
    if n == 0 then Some(p)
    else if BumpAt(b, p, flat).None? then None
    else BumpsAt(b, BumpAt(b, p, flat).value, n - 1, flat)
  }

  /** A BUMP count and that many BUMPs. */
  function SectionAt(b: Bytes, p: nat, flat: bool): Option<nat>
  {
    var count := VarIntAt(b, p);
    if count.NoNumber? then None else BumpsAt(b, count.next, count.value, flat)
  }

  // The iterations the three nested loops begin when they read at p, one that fails
  // included. A loop is not begun on a count that cannot fit.

  function LeafTurns(b: Bytes, p: nat, n: nat): nat
    requires p <= |b|
    decreases n
  {
    if n == 0 then 0
    else 1 + (if LeafAt(b, p).None? then 0 else LeafTurns(b, LeafAt(b, p).value, n - 1))
  }

  function LevelTurns(b: Bytes, p: nat): nat
  {
    var count := VarIntAt(b, p);
    if count.NoNumber? || count.value * MIN_LEAF_BYTES > |b| - count.next then 0
    else LeafTurns(b, count.next, count.value)
  }

  function LevelsTurns(b: Bytes, p: nat, n: nat): nat
    requires p <= |b|
    decreases n
  {
    if n == 0 then 0
    else 1 + LevelTurns(b, p) + (if LevelAt(b, p).None? then 0 else LevelsTurns(b, LevelAt(b, p).value, n - 1))
  }

  function BumpTurns(b: Bytes, p: nat): nat
  {
    var height := VarIntAt(b, p);
    if height.NoNumber? || height.next >= |b| || b[height.next] > MAX_TREE_HEIGHT then 0
    else LevelsTurns(b, height.next + 1, b[height.next])
  }

  function BumpsTurns(b: Bytes, p: nat, n: nat): nat
    requires p <= |b|
    decreases n
  {
    if n == 0 then 0
    else 1 + BumpTurns(b, p) + (if BumpAt(b, p, true).None? then 0 else BumpsTurns(b, BumpAt(b, p, true).value, n - 1))
  }

  /** The iterations of the whole check of a section at p. */
  function SectionTurns(b: Bytes, p: nat): nat
  {
    var count := VarIntAt(b, p);
    if count.NoNumber? || count.value * 3 > |b| - count.next then 0
    else BumpsTurns(b, count.next, count.value)
  }

  /** An iteration that succeeds reads a byte of its own, and at most one fails. */
  lemma {:induction false} LeafTurnsBound(b: Bytes, p: nat, n: nat)
    requires p <= |b|
    ensures p + LeafTurns(b, p, n) <= if LeavesAt(b, p, n).Some? then LeavesAt(b, p, n).value else |b| + 1
    decreases n
  {
    if n == 0 || LeafAt(b, p).None? {
    } else {
      LeafTurnsBound(b, LeafAt(b, p).value, n - 1);
    }
  }

  lemma LevelTurnsBound(b: Bytes, p: nat)
    requires p <= |b|
    ensures LevelAt(b, p).Some? ==> p + 1 + LevelTurns(b, p) <= LevelAt(b, p).value
    ensures p + LevelTurns(b, p) <= |b|
  {
    var count := VarIntAt(b, p);
    if count.Reading? {
      LeafTurnsBound(b, count.next, count.value);
    }
  }

  lemma {:induction false} LevelsTurnsBound(b: Bytes, p: nat, n: nat)
    requires p <= |b|
    ensures p + LevelsTurns(b, p, n) <= if LevelsAt(b, p, n).Some? then LevelsAt(b, p, n).value else |b| + 1
    decreases n
  {
    if n == 0 {
    } else {
      LevelTurnsBound(b, p);
      if LevelAt(b, p).Some? {
        LevelsTurnsBound(b, LevelAt(b, p).value, n - 1);
      }
    }
  }

  lemma BumpTurnsBound(b: Bytes, p: nat)
    requires p <= |b|
    ensures BumpAt(b, p, true).Some? ==> p + 1 + BumpTurns(b, p) <= BumpAt(b, p, true).value
    ensures p + BumpTurns(b, p) <= |b|
  {
    var height := VarIntAt(b, p);
    if height.Reading? && height.next < |b| {
      LevelsTurnsBound(b, height.next + 1, b[height.next]);
    }
  }

  lemma {:induction false} BumpsTurnsBound(b: Bytes, p: nat, n: nat)
    requires p <= |b|
    ensures p + BumpsTurns(b, p, n) <= if BumpsAt(b, p, n, true).Some? then BumpsAt(b, p, n, true).value else |b| + 1
    decreases n
  {
    if n == 0 {
    } else {
      BumpTurnsBound(b, p);
      if BumpAt(b, p, true).Some? {
        BumpsTurnsBound(b, BumpAt(b, p, true).value, n - 1);
      }
    }
  }

  /** Whatever counts an object declares, the loops turn at most once for each of its
      bytes. */
  lemma TurnsBounded(b: Bytes, p: nat)
    requires p > 0
    ensures SectionTurns(b, p) <= |b|
  {
    var count := VarIntAt(b, p);
    if count.Reading? {
      BumpsTurnsBound(b, count.next, count.value);
    }
  }

  /** What the stricter grammar reads, the laxer one reads alike. */
  lemma {:induction false} BumpsLower(b: Bytes, p: nat, n: nat)
    requires p <= |b| && BumpsAt(b, p, n, false).Some?
    ensures BumpsAt(b, p, n, true) == BumpsAt(b, p, n, false)
    decreases n
  {
    hide VarIntAt, LevelsAt;
    if n == 0 {
    } else {
      assert BumpAt(b, p, true) == BumpAt(b, p, false);
      BumpsLower(b, BumpAt(b, p, false).value, n - 1);
    }
  }

  // ------------------------------------------------------------------- cursor

  datatype GuardError = Nil | Truncated | UnsatisfiableLength

  class Cursor {
    const b: Bytes
    var pos: nat

    predicate InBounds() reads this { pos <= |b| }

    constructor (b: Bytes)
      ensures this.b == b && pos == 0
    {
      this.b := b;
      pos := 0;
    }

    function Remaining(): nat
      reads this
      requires InBounds()
    {
      |b| - pos
    }

    /** Whether n items of at least each bytes could fit in what remains. */
    function Fits(n: nat, each: int): (r: bool)
      reads this
      requires InBounds()
      ensures each > 0 ==> (r <==> n * each <= Remaining())
    {
      if each <= 0 then false
      else
        FitsExact(n, each, Remaining());
        n <= Remaining() / each
    }

    method Skip(n: int) returns (err: GuardError)
      requires InBounds()
      modifies this`pos
      ensures InBounds()
      ensures err == Nil <==> 0 <= n && old(pos) + n <= |b|
      ensures pos == if err == Nil then old(pos) + n else old(pos)
    {
      if n < 0 || Remaining() < n {
        return Truncated;
      }
      pos := pos + n;
      return Nil;
    }

    method ByteAt() returns (v: Byte, err: GuardError)
      requires InBounds()
      modifies this`pos
      ensures old(pos) <= pos && InBounds() && (err == Nil <==> old(pos) < |b|)
      ensures err == Nil ==> v == b[old(pos)] && pos == old(pos) + 1
    {
      if Remaining() < 1 {
        return 0, Truncated;
      }
      v := b[pos];
      pos := pos + 1;
      err := Nil;
    }

    method ReadVarInt() returns (v: nat, err: GuardError)
      requires InBounds()
      modifies this`pos
      ensures old(pos) <= pos && InBounds() && (err == Nil <==> VarIntAt(b, old(pos)).Reading?)
      ensures err == Nil ==> VarIntAt(b, old(pos)) == Reading(v, pos)
    {
      var p;
      p, err := ByteAt();
      if err != Nil {
        return 0, err;
      }
      var w := 0;
      if p == 0xFD {
        w := 2;
      } else if p == 0xFE {
        w := 4;
      } else if p == 0xFF {
        w := 8;
      } else {
        return p, Nil;
      }
      if Remaining() < w {
        return 0, Truncated;
      }
      v := NumberAt(b, pos, w);
      pos := pos + w;
    }

    /** One leaf, as the innermost loop body reads it. */
    method ReadLeaf() returns (err: GuardError)
      requires InBounds()
      modifies this`pos
      ensures InBounds() && (err == Nil <==> LeafAt(b, old(pos)).Some?)
      ensures old(pos) <= pos && (err == Nil ==> LeafAt(b, old(pos)) == Some(pos))
    {
      var offset, flags;
      offset, err := ReadVarInt();
      if err != Nil {
        return;
      }
      flags, err := ByteAt();
      if err != Nil {
        return;
      }
      if flags % 2 == 0 {
        err := Skip(32);
      }
    }

    /** The leaves of one level; turns counts the iterations, one that fails too. */
    method ReadLeaves(n: nat) returns (err: GuardError, turns: nat)
      requires InBounds()
      modifies this`pos
      ensures InBounds() && (err == Nil <==> LeavesAt(b, old(pos), n).Some?)
      ensures err == Nil ==> LeavesAt(b, old(pos), n) == Some(pos)
      ensures turns == LeafTurns(b, old(pos), n)
    {
      hide LeafAt;
      err, turns := Nil, 0;
      var i := 0;
      ghost var most := LeafTurns(b, pos, n);
      ghost var whole := LeavesAt(b, pos, n);
      while i < n
        invariant err == Nil && InBounds() && i <= n
        invariant whole == LeavesAt(b, pos, n - i)
        invariant most == turns + LeafTurns(b, pos, n - i)
      {
        turns := turns + 1;
        err := ReadLeaf();
        if err != Nil {
          return;
        }
        i := i + 1;
      }
    }

    /** One level. */
    method ReadLevel() returns (err: GuardError, turns: nat)
      requires InBounds()
      modifies this`pos
      ensures InBounds() && (err == Nil <==> LevelAt(b, old(pos)).Some?)
      ensures err == Nil ==> LevelAt(b, old(pos)) == Some(pos)
      ensures turns == LevelTurns(b, old(pos))
    {
      var n;
      turns := 0;
      n, err := ReadVarInt();
      if err != Nil {
        return;
      }
      if !Fits(n, MIN_LEAF_BYTES) {
        return UnsatisfiableLength, 0;
      }
      err, turns := ReadLeaves(n);
    }

    /** The levels of one BUMP; turns counts the level and leaf iterations begun. */
    method ReadLevels(n: nat) returns (err: GuardError, turns: nat)
      requires InBounds()
      modifies this`pos
      ensures InBounds() && (err == Nil <==> LevelsAt(b, old(pos), n).Some?)
      ensures err == Nil ==> LevelsAt(b, old(pos), n) == Some(pos)
      ensures turns == LevelsTurns(b, old(pos), n)
    {
      hide LevelAt, LevelTurns;
      err, turns := Nil, 0;
      var lv := 0;
      ghost var whole, most := LevelsAt(b, pos, n), LevelsTurns(b, pos, n);
      while lv < n
        invariant err == Nil && InBounds() && lv <= n
        invariant most == turns + LevelsTurns(b, pos, n - lv)
        invariant whole == LevelsAt(b, pos, n - lv)
      {
        var t;
        err, t := ReadLevel();
        turns := turns + 1 + t;
        if err != Nil {
          return;
        }
        lv := lv + 1;
      }
    }

    /** One BUMP. */
    method ReadBump() returns (err: GuardError, turns: nat)
      requires InBounds()
      modifies this`pos
      ensures InBounds() && (err == Nil <==> BumpAt(b, old(pos), true).Some?)
      ensures err == Nil ==> BumpAt(b, old(pos), true) == Some(pos)
      ensures turns == BumpTurns(b, old(pos))
    {
      var blockHeight, treeHeight;
      turns := 0;
      blockHeight, err := ReadVarInt();
      if err != Nil {
        return;
      }
      treeHeight, err := ByteAt();
      if err != Nil {
        return;
      }
      if treeHeight > MAX_TREE_HEIGHT {
        return UnsatisfiableLength, 0;
      }
      err, turns := ReadLevels(treeHeight);
    }

    /** The declared BUMPs; turns counts the iterations begun of all three loops. */
    method ReadBumps(n: nat) returns (err: GuardError, turns: nat)
      requires InBounds()
      modifies this`pos
      ensures InBounds() && (err == Nil <==> BumpsAt(b, old(pos), n, true).Some?)
      ensures turns == BumpsTurns(b, old(pos), n)
    {
      hide BumpAt, BumpTurns;
      err, turns := Nil, 0;
      var i := 0;
      ghost var whole, most := BumpsAt(b, pos, n, true), BumpsTurns(b, pos, n);
      while i < n
        invariant err == Nil && InBounds() && i <= n
        invariant most == turns + BumpsTurns(b, pos, n - i)
        invariant whole == BumpsAt(b, pos, n - i, true)
      {
        var t;
        err, t := ReadBump();
        turns := turns + 1 + t;
        if err != Nil {
          return;
        }
        i := i + 1;
      }
    }
  }

  lemma FitsExact(n: nat, each: int, remaining: nat)
    requires each > 0
    ensures n <= remaining / each <==> n * each <= remaining
  {
    var q, r := remaining / each, remaining % each;
    assert remaining == q * each + r && 0 <= r < each;
    if n <= q {
      assert n * each <= q * each;
    } else {
      assert n * each >= (q + 1) * each;
    }
  }

  // -------------------------------------------------------------------- guard

  /** How the object's version word classifies it. */
  datatype Kind = Unclassified | Atomic | Plain | OtherWord

  /** The bytes before the BUMP section: an Atomic object repeats a version word
      after its marker and subject txid. */
  function Prefix(kind: Kind): nat { if kind == Atomic then 4 + 32 + 4 else 4 }

  predicate Carries(kind: Kind) { kind == Atomic || kind == Plain }

  /** The section parses, and its count passes the three-bytes-a-BUMP floor. */
  predicate Accepts(obj: Bytes, p: nat)
  {
    && SectionAt(obj, p, true).Some?
    && 3 * VarIntAt(obj, p).value <= |obj| - VarIntAt(obj, p).next
  }

  /** turns counts the iterations begun of the three nested loops. */
  method GuardBumps(obj: Bytes, kind: Kind) returns (err: GuardError, turns: nat)
    ensures !Carries(kind) ==> err == Nil
    ensures Carries(kind) ==> (err == Nil <==> Accepts(obj, Prefix(kind)))
    ensures turns == if Carries(kind) then SectionTurns(obj, Prefix(kind)) else 0
    ensures turns <= |obj|
  {
    var c := new Cursor(obj);
    turns := 0;
    TurnsBounded(obj, Prefix(kind));
    if !Carries(kind) {
      return Nil, 0;
    }
    err := c.Skip(Prefix(kind));
    if err != Nil {
      return;
    }
    var n;
    n, err := c.ReadVarInt();
    if err != Nil {
      return;
    }
    if !c.Fits(n, 3) {
      return UnsatisfiableLength, 0;
    }
    err, turns := c.ReadBumps(n);
  }

  /** An object whose BUMPs all have a tree height of 1 to 64 is accepted
      exactly when it parses: fits never rejects it. */
  lemma TallAccepted(obj: Bytes, p: nat)
    requires SectionAt(obj, p, false).Some?
    ensures Accepts(obj, p) && SectionAt(obj, p, true) == SectionAt(obj, p, false)
  {
    hide VarIntAt, BumpsAt;
    var Reading(n, q) := VarIntAt(obj, p);
    BumpsLower(obj, q, n);
  }

  /** A parseable object is refused exactly when it declares more BUMPs than a
      third of the bytes left, which takes a BUMP of tree height 0. */
  lemma RefusedParse(obj: Bytes, p: nat)
    requires SectionAt(obj, p, true).Some? && !Accepts(obj, p)
    ensures SectionAt(obj, p, false).None?
    ensures var Reading(n, q) := VarIntAt(obj, p); 3 * n > |obj| - q >= 2 * n
  {
    if SectionAt(obj, p, false).Some? {
      TallAccepted(obj, p);
    }
  }

  /** Two BUMPs of tree height 0 parse and are refused. */
  lemma FlatBumpsRefused(m0: Byte, m1: Byte, m2: Byte, m3: Byte)
    ensures var obj := [m0, m1, m2, m3, 2, 7, 0, 7, 0];
            SectionAt(obj, 4, true) == Some(9) && !Accepts(obj, 4)
  {
    var obj := [m0, m1, m2, m3, 2, 7, 0, 7, 0];
    assert VarIntAt(obj, 4) == Reading(2, 5);
    assert BumpAt(obj, 5, true) == Some(7);
    assert BumpAt(obj, 7, true) == Some(9);
    assert BumpsAt(obj, 7, 1, true) == BumpsAt(obj, 9, 0, true) == Some(9);
  }
}
