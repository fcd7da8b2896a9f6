/**
  What a peer may write as the BUMP section of an object (BRC-74), defined without the
  reader: a VarInt is a value and the width it is written in, so that every form of it,
  the shortest or not, is covered.
*/
module BumpEncoding {
  import opened Bytes
  import opened BumpGuard

  /** A value and how many digits follow its prefix byte; 0 for a value that is its own
      prefix. */
  datatype VarInt = VarInt(value: nat, width: nat)

  predicate VarIntOk(v: VarInt)
  {
    || (v.width == 0 && v.value < 0xFD)
    || (v.width == 2 && v.value < 0x1_0000)
    || (v.width == 4 && v.value < 0x1_0000_0000)
    || (v.width == 8 && v.value < 0x1_0000_0000_0000_0000)
  }

  function VarIntBytes(v: VarInt): Bytes
  {
    match v.width
    case 2 => [0xFD] + Digits(v.value, 2)
    case 4 => [0xFE] + Digits(v.value, 4)
    case 8 => [0xFF] + Digits(v.value, 8)
    case _ => [v.value % 256]
  }

  /** A path element: an odd flags byte marks a duplicate, which carries no hash. */
  datatype Element = Duplicate(offset: VarInt, flags: Byte) | Hashed(offset: VarInt, flags: Byte, hash: Bytes)

  datatype Row = Row(count: VarInt, elements: seq<Element>)

  datatype Path = Path(blockHeight: VarInt, levels: seq<Row>)

  datatype Paths = Paths(count: VarInt, paths: seq<Path>)

  predicate ElementOk(l: Element)
  {
    VarIntOk(l.offset) &&
    match l
    case Duplicate(_, flags) => flags % 2 == 1
    case Hashed(_, flags, hash) => flags % 2 == 0 && |hash| == 32
  }

  predicate Counts(v: VarInt, n: nat)
  {
    VarIntOk(v) && v.value == n
  }

  predicate RowOk(r: Row)
  {
    Counts(r.count, |r.elements|) && forall i :: 0 <= i < |r.elements| ==> ElementOk(r.elements[i])
  }

  /** flat: a path may have no level at all. */
  predicate PathOk(p: Path, flat: bool)
  {
    && VarIntOk(p.blockHeight)
    && (if flat then 0 else 1) <= |p.levels| <= 64
    && forall i :: 0 <= i < |p.levels| ==> RowOk(p.levels[i])
  }

  predicate PathsOk(s: Paths, flat: bool)
  {
    Counts(s.count, |s.paths|) && forall i :: 0 <= i < |s.paths| ==> PathOk(s.paths[i], flat)
  }

  function ElementBytes(l: Element): Bytes
  {
    VarIntBytes(l.offset) + ([l.flags] + (if l.Hashed? then l.hash else []))
  }

  function ElementsBytes(ls: seq<Element>): Bytes
  {
    if ls == [] then [] else ElementBytes(ls[0]) + ElementsBytes(ls[1..])
  }

  function RowsBytes(levels: seq<Row>): Bytes
  {
    if levels == [] then [] else VarIntBytes(levels[0].count) + (ElementsBytes(levels[0].elements) + RowsBytes(levels[1..]))
  }

  /** Each path: its block height, its tree height in one byte, its levels. */
  function PathSeqBytes(ps: seq<Path>): Bytes
  {
    if ps == [] then []
    else VarIntBytes(ps[0].blockHeight) + ([|ps[0].levels| % 256] + (RowsBytes(ps[0].levels) + PathSeqBytes(ps[1..])))
  }

  /** What is written after an object's prefix. */
  function PathsBytes(s: Paths): Bytes
  {
    VarIntBytes(s.count) + PathSeqBytes(s.paths)
  }

  /** The bytes x stand in b from p on. */
  predicate Stands(b: Bytes, p: nat, x: Bytes)
  {
    p + |x| <= |b| && forall i :: 0 <= i < |x| ==> b[p + i] == x[i]
  }

  lemma StandsSplit(b: Bytes, p: nat, x: Bytes, y: Bytes)
    requires Stands(b, p, x + y)
    ensures Stands(b, p, x) && Stands(b, p + |x|, y)
  {
    assert forall i :: 0 <= i < |x| ==> (x + y)[i] == x[i];
    forall i | 0 <= i < |y| ensures b[p + |x| + i] == y[i] {
      assert b[p + (|x| + i)] == (x + y)[|x| + i];
    }
  }

  // The grammar reads back each piece, wherever it stands.

  /** Read digits are the number they were written from. */
  lemma {:induction false} NumberRead(b: Bytes, p: nat, w: nat)
    requires p + w <= |b|
    ensures NumberAt(b, p, w) == LittleEndian(b[p..p + w])
    decreases w
  {
    if w == 0 {
    } else {
      NumberRead(b, p + 1, w - 1);
      assert b[p..p + w][1..] == b[p + 1..p + w];
    }
  }

  lemma VarIntPowers()
    ensures Power(256, 2) == 0x1_0000 && Power(256, 4) == 0x1_0000_0000 && Power(256, 8) == 0x1_0000_0000_0000_0000
  {
    assert Power(256, 4) == 256 * (256 * Power(256, 2));
    assert Power(256, 6) == 256 * (256 * Power(256, 4));
    assert Power(256, 8) == 256 * (256 * Power(256, 6));
  }

  lemma VarIntRead(b: Bytes, p: nat, v: VarInt)
    requires VarIntOk(v) && Stands(b, p, VarIntBytes(v))
    ensures VarIntAt(b, p) == Reading(v.value, p + |VarIntBytes(v)|)
  {
    hide Power, NumberAt, LittleEndian, Digits;
    var x := VarIntBytes(v);
    assert b[p + 0] == x[0];
    if v.width > 0 {
      VarIntPowers();
      DigitsRead(v.value, v.width);
      StandsSplit(b, p, [x[0]], Digits(v.value, v.width));
      assert b[p + 1..p + 1 + v.width] == Digits(v.value, v.width);
      NumberRead(b, p + 1, v.width);
    }
  }

  lemma ElementRead(b: Bytes, p: nat, l: Element)
    requires ElementOk(l) && Stands(b, p, ElementBytes(l))
    ensures LeafAt(b, p) == Some(p + |ElementBytes(l)|)
  {
    var tail := [l.flags] + (if l.Hashed? then l.hash else []);
    StandsSplit(b, p, VarIntBytes(l.offset), tail);
    VarIntRead(b, p, l.offset);
    assert b[p + |VarIntBytes(l.offset)| + 0] == tail[0] == l.flags;
  }

  lemma {:induction false} ElementsRead(b: Bytes, p: nat, ls: seq<Element>)
    requires (forall i :: 0 <= i < |ls| ==> ElementOk(ls[i])) && Stands(b, p, ElementsBytes(ls))
    ensures LeavesAt(b, p, |ls|) == Some(p + |ElementsBytes(ls)|)
    decreases ls
  {
    hide LeafAt, Stands, ElementBytes, ElementOk;
    if ls == [] {
    } else {
      StandsSplit(b, p, ElementBytes(ls[0]), ElementsBytes(ls[1..]));
      ElementRead(b, p, ls[0]);
      ElementsRead(b, p + |ElementBytes(ls[0])|, ls[1..]);
    }
  }

  lemma LevelsCons(b: Bytes, p: nat, n: nat, m: nat, q: nat, r: nat, t: nat)
    requires p <= |b| && q <= |b| && r <= |b| && n > 0
    requires VarIntAt(b, p) == Reading(m, q) && LeavesAt(b, q, m) == Some(r)
    requires LevelsAt(b, r, n - 1) == Some(t)
    ensures LevelsAt(b, p, n) == Some(t)
  {
    hide VarIntAt, LeavesAt;
    assert LevelAt(b, p) == Some(r);
  }

  lemma {:induction false} RowsRead(b: Bytes, p: nat, levels: seq<Row>)
    requires (forall i :: 0 <= i < |levels| ==> RowOk(levels[i])) && Stands(b, p, RowsBytes(levels))
    ensures LevelsAt(b, p, |levels|) == Some(p + |RowsBytes(levels)|)
    decreases levels
  {
    hide VarIntBytes, VarIntOk, VarIntAt, LeavesAt, LevelAt, Stands, ElementsBytes;
    if levels == [] {
    } else {
      var x, y, z := VarIntBytes(levels[0].count), ElementsBytes(levels[0].elements), RowsBytes(levels[1..]);
      StandsSplit(b, p, x, y + z);
      StandsSplit(b, p + |x|, y, z);
      VarIntRead(b, p, levels[0].count);
      ElementsRead(b, p + |x|, levels[0].elements);
      RowsRead(b, p + |x| + |y|, levels[1..]);
      LevelsCons(b, p, |levels|, |levels[0].elements|, p + |x|, p + |x| + |y|, p + |x| + |y| + |z|);
    }
  }

  lemma BumpsCons(b: Bytes, p: nat, n: nat, flat: bool, h: nat, q: nat, r: nat, t: nat)
    requires p <= |b| && q < |b| && r <= |b| && n > 0 && (if flat then 0 else 1) <= b[q] <= MAX_TREE_HEIGHT
    requires VarIntAt(b, p) == Reading(h, q) && LevelsAt(b, q + 1, b[q]) == Some(r)
    requires BumpsAt(b, r, n - 1, flat) == Some(t)
    ensures BumpsAt(b, p, n, flat) == Some(t)
  {
    hide VarIntAt, LevelsAt;
    assert BumpAt(b, p, flat) == Some(r);
  }

  lemma {:induction false} PathSeqRead(b: Bytes, p: nat, ps: seq<Path>, flat: bool)
    requires (forall i :: 0 <= i < |ps| ==> PathOk(ps[i], flat)) && Stands(b, p, PathSeqBytes(ps))
    ensures BumpsAt(b, p, |ps|, flat) == Some(p + |PathSeqBytes(ps)|)
    decreases ps
  {
    hide VarIntBytes, VarIntOk, VarIntAt, BumpAt, LevelsAt, Stands, RowsBytes;
    if ps == [] {
    } else {
      var x, h := VarIntBytes(ps[0].blockHeight), [|ps[0].levels| % 256];
      var y, z := RowsBytes(ps[0].levels), PathSeqBytes(ps[1..]);
      StandsSplit(b, p, x, h + (y + z));
      var q := p + |x|;
      StandsSplit(b, q, h, y + z);
      StandsSplit(b, q + 1, y, z);
      StandsHead(b, q, h);
      VarIntRead(b, p, ps[0].blockHeight);
      RowsRead(b, q + 1, ps[0].levels);
      PathSeqRead(b, q + 1 + |y|, ps[1..], flat);
      BumpsCons(b, p, |ps|, flat, ps[0].blockHeight.value, q, q + 1 + |y|, q + 1 + |y| + |z|);
    }
  }

  lemma StandsHead(b: Bytes, p: nat, x: Bytes)
    requires x != [] && Stands(b, p, x)
    ensures p < |b| && b[p] == x[0]
  {
    assert b[p + 0] == x[0];
  }

  /** A written section parses, and to its end. */
  lemma PathsRead(obj: Bytes, p: nat, s: Paths, flat: bool)
    requires PathsOk(s, flat) && Stands(obj, p, PathsBytes(s))
    ensures SectionAt(obj, p, flat) == Some(p + |PathsBytes(s)|)
    ensures VarIntAt(obj, p) == Reading(|s.paths|, p + |VarIntBytes(s.count)|)
  {
    hide VarIntBytes, VarIntOk, VarIntAt, BumpsAt, Stands;
    StandsSplit(obj, p, VarIntBytes(s.count), PathSeqBytes(s.paths));
    VarIntRead(obj, p, s.count);
    PathSeqRead(obj, p + |VarIntBytes(s.count)|, s.paths, flat);
  }

  /** Every object a conforming peer writes, whatever follows its BUMPs, is
      accepted, and the checker stops exactly where the BUMP section ends. */
  lemma WrittenAccepted(obj: Bytes, p: nat, s: Paths)
    requires PathsOk(s, false) && Stands(obj, p, PathsBytes(s))
    ensures Accepts(obj, p) && SectionAt(obj, p, true) == Some(p + |PathsBytes(s)|)
  {
    hide VarIntAt, BumpsAt, Stands;
    PathsRead(obj, p, s, false);
    TallAccepted(obj, p);
  }

  // ------------------------------------------------------------- the converse

  // Whatever the grammar reads is what some peer may have written there.

  lemma VarIntWritten(b: Bytes, p: nat) returns (v: VarInt)
    requires VarIntAt(b, p).Reading?
    ensures VarIntOk(v) && v.value == VarIntAt(b, p).value && VarIntBytes(v) == b[p..VarIntAt(b, p).next]
  {
    hide Power, NumberAt, LittleEndian, Digits;
    var Reading(n, q) := VarIntAt(b, p);
    v := VarInt(n, q - p - 1);
    assert b[p..q] == [b[p]] + b[p + 1..q];
    if v.width > 0 {
      VarIntPowers();
      NumberRead(b, p + 1, v.width);
      ReadDigits(b[p + 1..q]);
    }
  }

  lemma ElementWritten(b: Bytes, p: nat) returns (l: Element)
    requires LeafAt(b, p).Some?
    ensures ElementOk(l) && ElementBytes(l) == b[p..LeafAt(b, p).value]
  {
    var q := VarIntAt(b, p).next;
    var x := VarIntWritten(b, p);
    l := if LowBit(b[q]) then Duplicate(x, b[q]) else Hashed(x, b[q], b[q + 1..q + 1 + 32]);
  }

  lemma {:induction false} ElementsWritten(b: Bytes, p: nat, n: nat) returns (ls: seq<Element>)
    requires p <= |b| && LeavesAt(b, p, n).Some?
    ensures |ls| == n && (forall i :: 0 <= i < |ls| ==> ElementOk(ls[i]))
    ensures ElementsBytes(ls) == b[p..LeavesAt(b, p, n).value]
    decreases n
  {
    hide LeafAt, ElementBytes, ElementOk;
    ls := [];
    if n == 0 {
    } else {
      var l := ElementWritten(b, p);
      var q := LeafAt(b, p).value;
      var rest := ElementsWritten(b, q, n - 1);
      ls := [l] + rest;
      assert ls[1..] == rest;
      Joined(b, p, q, LeavesAt(b, p, n).value);
    }
  }

  lemma Joined(b: Bytes, p: nat, q: nat, r: nat)
    requires p <= q <= r <= |b|
    ensures b[p..q] + b[q..r] == b[p..r]
  {
  }

  lemma {:induction false} RowsWritten(b: Bytes, p: nat, n: nat) returns (levels: seq<Row>)
    requires p <= |b| && LevelsAt(b, p, n).Some?
    ensures |levels| == n && (forall i :: 0 <= i < |levels| ==> RowOk(levels[i]))
    ensures RowsBytes(levels) == b[p..LevelsAt(b, p, n).value]
    decreases n
  {
    hide VarIntBytes, VarIntOk, VarIntAt, LeavesAt, ElementsBytes, ElementOk;
    levels := [];
    if n == 0 {
    } else {
      var Reading(m, q) := VarIntAt(b, p);
      var r, t := LeavesAt(b, q, m).value, LevelsAt(b, p, n).value;
      var count := VarIntWritten(b, p);
      var elements := ElementsWritten(b, q, m);
      var rest := RowsWritten(b, r, n - 1);
      levels := [Row(count, elements)] + rest;
      assert levels[1..] == rest;
      Joined(b, q, r, t);
      Joined(b, p, q, t);
    }
  }

  lemma PathWritten(b: Bytes, p: nat, flat: bool) returns (x: Path)
    requires BumpAt(b, p, flat).Some?
    ensures PathOk(x, flat)
    ensures VarIntBytes(x.blockHeight) + ([|x.levels| % 256] + RowsBytes(x.levels)) == b[p..BumpAt(b, p, flat).value]
  {
    hide VarIntBytes, VarIntOk, VarIntAt, LevelsAt, RowsBytes, RowOk;
    var q := VarIntAt(b, p).next;
    var r := BumpAt(b, p, flat).value;
    var height := VarIntWritten(b, p);
    var levels := RowsWritten(b, q + 1, b[q]);
    x := Path(height, levels);
    Joined(b, q, q + 1, r);
    Joined(b, p, q, r);
    assert b[q..q + 1] == [b[q]];
  }

  lemma {:induction false} PathSeqWritten(b: Bytes, p: nat, n: nat, flat: bool) returns (ps: seq<Path>)
    requires p <= |b| && BumpsAt(b, p, n, flat).Some?
    ensures |ps| == n && (forall i :: 0 <= i < |ps| ==> PathOk(ps[i], flat))
    ensures PathSeqBytes(ps) == b[p..BumpsAt(b, p, n, flat).value]
    decreases n
  {
    hide VarIntBytes, BumpAt, RowsBytes, PathOk;
    ps := [];
    if n == 0 {
    } else {
      var x := PathWritten(b, p, flat);
      var q := BumpAt(b, p, flat).value;
      var rest := PathSeqWritten(b, q, n - 1, flat);
      ps := [x] + rest;
      assert ps[1..] == rest;
      Joined(b, p, q, BumpsAt(b, p, n, flat).value);
    }
  }

  lemma SectionWritten(obj: Bytes, p: nat, flat: bool) returns (s: Paths)
    requires SectionAt(obj, p, flat).Some?
    ensures PathsOk(s, flat) && p <= SectionAt(obj, p, flat).value <= |obj|
    ensures PathsBytes(s) == obj[p..SectionAt(obj, p, flat).value]
  {
    hide VarIntBytes, VarIntOk, VarIntAt, BumpsAt, PathSeqBytes, PathOk;
    var Reading(n, q) := VarIntAt(obj, p);
    var count := VarIntWritten(obj, p);
    var ps := PathSeqWritten(obj, q, n, flat);
    s := Paths(count, ps);
    Joined(obj, p, q, SectionAt(obj, p, flat).value);
  }

  /** The grammar is exactly what may be written: a section parses from p to end if and
      only if the bytes there are those of some paths. */
  lemma ParsesIffWritten(obj: Bytes, p: nat, end: nat, flat: bool)
    ensures SectionAt(obj, p, flat) == Some(end) <==>
            exists s :: PathsOk(s, flat) && Stands(obj, p, PathsBytes(s)) && p + |PathsBytes(s)| == end
  {
    hide SectionAt, PathsOk, PathsBytes;
    if SectionAt(obj, p, flat) == Some(end) {
      var s := SectionWritten(obj, p, flat);
      assert Stands(obj, p, PathsBytes(s));
    }
    if s :| PathsOk(s, flat) && Stands(obj, p, PathsBytes(s)) && p + |PathsBytes(s)| == end {
      PathsRead(obj, p, s, flat);
    }
  }

  /** The checker accepts exactly the objects whose section some peer may have written,
      with no more paths than a third of the bytes after their count. */
  lemma AcceptsIffWritten(obj: Bytes, p: nat)
    ensures Accepts(obj, p) <==>
            exists s :: PathsOk(s, true) && Stands(obj, p, PathsBytes(s)) && 3 * |s.paths| <= |obj| - p - |VarIntBytes(s.count)|
  {
    hide SectionAt, PathsOk, PathsBytes, VarIntAt;
    if Accepts(obj, p) {
      var s := SectionWritten(obj, p, true);
      assert Stands(obj, p, PathsBytes(s));
      PathsRead(obj, p, s, true);
    }
    if s :| PathsOk(s, true) && Stands(obj, p, PathsBytes(s)) && 3 * |s.paths| <= |obj| - p - |VarIntBytes(s.count)| {
      PathsRead(obj, p, s, true);
    }
  }

  /** A whole object: a version word and a section, or, for an Atomic one, its marker, a
      subject txid and another version word before the section. */
  lemma ObjectAccepted(obj: Bytes, kind: Kind, s: Paths)
    requires PathsOk(s, false) && (kind == Atomic || kind == Plain)
    requires Stands(obj, if kind == Atomic then 40 else 4, PathsBytes(s))
    ensures Carries(kind) && Accepts(obj, Prefix(kind))
  {
    WrittenAccepted(obj, Prefix(kind), s);
  }
}
